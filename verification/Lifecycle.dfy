/** Lifecycle flags, scheduling decisions, and the pair (flag, count) that a component's word stands for. */
module Lifecycle {
  datatype Flag = Active | Passive | Destroyed | Faulty | Blocking

  datatype Decision = Schedule | AlreadyScheduled | NoWork | Blocked | Resume

  /** The pair that the packed word stands for. */
  datatype Pair = Pair(flag: Flag, count: nat)

  /** 61 bits of count. */
  const MAX_COUNT: nat := 0x1FFF_FFFF_FFFF_FFFF

  predicate Schedulable(f: Flag) {
    f == Active || f == Passive
  }

  /** What an enqueuer decides from the word it found. */
  function IntoDecision(f: Flag, c: nat): Decision {
    match f
    case Active => if c == 0 then Schedule else AlreadyScheduled
    case Passive => if c == 0 then Schedule else AlreadyScheduled
    case _ => NoWork
  }

  /** What an executor decides from the count it left. */
  function DecrementDecision(newCount: nat): Decision {
    if newCount > 0 then Schedule else NoWork
  }

  /** Combine the decision of a completed blocking future with the decision about remaining work. */
  function OrUse(d: Decision, other: Decision): Decision {
    match d
    case NoWork => (
      match other
      case Schedule => Resume
      case Resume => Resume
      case AlreadyScheduled => Resume
      case x => x)
    case _ => d
  }
}

/**
 The packed lifecycle word: three flag bits above 61 count bits in one u64, changed by
 fetch_add, fetch_sub and a compare-and-exchange loop.

 A u64 is a natural number below 2^64 and the additions wrap. The masks of the original are
 read as remainders; `MaskIsRemainder` states that reading on bit vectors.
 */
module PackedWord {
  import opened Options
  import opened Lifecycle

  type u64 = x: nat | x < 0x1_0000_0000_0000_0000

  lemma MaskIsRemainder(x: bv64, flags: bv64)
    requires flags & 0x1FFF_FFFF_FFFF_FFFF == 0
    ensures x & 0x1FFF_FFFF_FFFF_FFFF == x % 0x2000_0000_0000_0000
    ensures x & !0x1FFF_FFFF_FFFF_FFFF == x - x % 0x2000_0000_0000_0000
    ensures flags | (x & 0x1FFF_FFFF_FFFF_FFFF) == flags + (x & 0x1FFF_FFFF_FFFF_FFFF)
  {
  }

  function FlagBits(f: Flag): u64 {
    match f
    case Active => 0
    case Passive => 0x2000_0000_0000_0000
    case Destroyed => 0x4000_0000_0000_0000
    case Faulty => 0x6000_0000_0000_0000
    case Blocking => 0x8000_0000_0000_0000
  }

  function RemoveFlags(w: u64): nat { w % 0x2000_0000_0000_0000 }

  function RemoveCount(w: u64): nat { w - w % 0x2000_0000_0000_0000 }

  /** `from_current`; None is the unreachable!() branch. */
  function FromCurrent(w: u64): Option<Pair> {
    var bits := RemoveCount(w);
    if bits == FlagBits(Active) then Some(Pair(Active, RemoveFlags(w)))
    else if bits == FlagBits(Passive) then Some(Pair(Passive, RemoveFlags(w)))
    else if bits == FlagBits(Destroyed) then Some(Pair(Destroyed, RemoveFlags(w)))
    else if bits == FlagBits(Faulty) then Some(Pair(Faulty, RemoveFlags(w)))
    else if bits == FlagBits(Blocking) then Some(Pair(Blocking, RemoveFlags(w)))
    else None
  }

  /** The atomic operations on the word; `Put` is a successful compare-and-exchange of `set_state`. */
  datatype Op = Add | Take(n: nat) | Put(f: Flag)

  function WordOp(w: u64, op: Op): u64 {
    match op
    case Add => (w + 1) % 0x1_0000_0000_0000_0000
    case Take(n) => (w + 0x1_0000_0000_0000_0000 - n % 0x1_0000_0000_0000_0000) % 0x1_0000_0000_0000_0000
    case Put(f) => FlagBits(f) + RemoveFlags(w)
  }

  /** The operations stay within the count bits: the two abort conditions of the original do not hold. */
  predicate Within(p: Pair, op: Op) {
    match op
    case Add => p.count < MAX_COUNT
    case Take(n) => n <= p.count
    case Put(_) => true
  }

  function PairOp(p: Pair, op: Op): Pair
    requires Within(p, op)
  {
    match op
    case Add => p.(count := p.count + 1)
    case Take(n) => p.(count := p.count - n)
    case Put(f) => p.(flag := f)
  }

  /** Packing a flag and a count and reading the word back gives them again. */
  lemma PackThenRead(f: Flag, c: nat)
    requires c <= MAX_COUNT
    ensures FromCurrent(FlagBits(f) + c) == Some(Pair(f, c))
  {
    var w := FlagBits(f) + c;
    match f
    case Active => assert w % 0x2000_0000_0000_0000 == c;
    case Passive => assert w % 0x2000_0000_0000_0000 == c;
    case Destroyed => assert w % 0x2000_0000_0000_0000 == c;
    case Faulty => assert w % 0x2000_0000_0000_0000 == c;
    case Blocking => assert w % 0x2000_0000_0000_0000 == c;
  }

  /** Every word that has a flag is the packing of what is read from it. */
  lemma ReadThenPack(w: u64)
    requires FromCurrent(w).Some?
    ensures var p := FromCurrent(w).value; p.count <= MAX_COUNT && w == FlagBits(p.flag) + p.count
  {
  }

  /** The top three bits of the word: 0 to 4 for the five flags in the order of the original, nothing else. */
  lemma FlagCodes(w: u64)
    ensures FromCurrent(w).Some? <==> w / 0x2000_0000_0000_0000 <= 4
    ensures FromCurrent(w).Some? ==>
            FromCurrent(w).value.flag == match w / 0x2000_0000_0000_0000
                                         case 0 => Active
                                         case 1 => Passive
                                         case 2 => Destroyed
                                         case 3 => Faulty
                                         case _ => Blocking
  {
    assert w == 0x2000_0000_0000_0000 * (w / 0x2000_0000_0000_0000) + w % 0x2000_0000_0000_0000;
  }

  /** Within its bounds each operation on the word is the operation on the pair. */
  lemma OpSimulates(w: u64, op: Op)
    requires FromCurrent(w).Some? && Within(FromCurrent(w).value, op)
    ensures FromCurrent(WordOp(w, op)) == Some(PairOp(FromCurrent(w).value, op))
  {
    match op
    case Add => AddSimulates(w);
    case Take(n) => TakeSimulates(w, n);
    case Put(f) => PutSimulates(w, f);
  }

  lemma AddSimulates(w: u64)
    requires FromCurrent(w).Some? && FromCurrent(w).value.count < MAX_COUNT
    ensures var p := FromCurrent(w).value; FromCurrent(WordOp(w, Add)) == Some(Pair(p.flag, p.count + 1))
  {
    var p := FromCurrent(w).value;
    ReadThenPack(w);
    PackThenRead(p.flag, p.count + 1);
    AddWord(w);
  }

  lemma TakeSimulates(w: u64, n: nat)
    requires FromCurrent(w).Some? && n <= FromCurrent(w).value.count
    ensures var p := FromCurrent(w).value; FromCurrent(WordOp(w, Take(n))) == Some(Pair(p.flag, p.count - n))
  {
    var p := FromCurrent(w).value;
    ReadThenPack(w);
    PackThenRead(p.flag, p.count - n);
    TakeWord(w, n);
  }

  lemma PutSimulates(w: u64, f: Flag)
    requires FromCurrent(w).Some?
    ensures FromCurrent(WordOp(w, Put(f))) == Some(Pair(f, FromCurrent(w).value.count))
  {
    ReadThenPack(w);
    PackThenRead(f, FromCurrent(w).value.count);
    assert RemoveFlags(w) == FromCurrent(w).value.count;
  }

  lemma AddWord(w: u64)
    requires w + 1 < 0x1_0000_0000_0000_0000
    ensures WordOp(w, Add) == w + 1
  {
  }

  lemma TakeWord(w: u64, n: nat)
    requires n <= w
    ensures WordOp(w, Take(n)) == w - n
  {
    assert n % 0x1_0000_0000_0000_0000 == n;
  }

  /** fetch_add leaves the flag alone exactly when `validate_add` accepts the old word. */
  lemma AddKeepsFlagIffValid(w: u64)
    requires FromCurrent(w).Some?
    ensures var p := FromCurrent(w).value;
            p.count < MAX_COUNT <==> FromCurrent(WordOp(w, Add)) == Some(Pair(p.flag, p.count + 1))
    ensures var p := FromCurrent(w).value;
            p == Pair(Blocking, MAX_COUNT) <==> FromCurrent(WordOp(w, Add)).None?
  {
    var p := FromCurrent(w).value;
    ReadThenPack(w);
    AddWord(w);
    if p.count < MAX_COUNT {
      OpSimulates(w, Add);
    } else {
      match p.flag
      case Active => PackThenRead(Passive, 0);
      case Passive => PackThenRead(Destroyed, 0);
      case Destroyed => PackThenRead(Faulty, 0);
      case Faulty => PackThenRead(Blocking, 0);
      case Blocking => assert (w + 1) % 0x2000_0000_0000_0000 == 0;
    }
  }

  // --- Interleaved runs: set_state is a load and a later compare-and-exchange ---

  /** Per thread: nothing pending, or `set_state(f)` that has loaded `seen`. */
  datatype Setter = Resting | Loaded(f: Flag, seen: u64)

  datatype Machine = Machine(word: u64, setters: map<nat, Setter>)

  datatype Move = Atomic(op: Op) | Load(who: nat, f: Flag) | CompareExchange(who: nat)

  function SetterOf(m: Machine, who: nat): Setter {
    if who in m.setters then m.setters[who] else Resting
  }

  predicate Enabled(m: Machine, mv: Move) {
    match mv
    case Atomic(op) => !op.Put?
    case Load(who, _) => SetterOf(m, who).Resting?
    case CompareExchange(who) => SetterOf(m, who).Loaded?
  }

  /** A failed exchange goes back to the load, which the next `Load` performs. */
  function MachineStep(m: Machine, mv: Move): Machine
    requires Enabled(m, mv)
  {
    match mv
    case Atomic(op) => m.(word := WordOp(m.word, op))
    case Load(who, f) => m.(setters := m.setters[who := Loaded(f, m.word)])
    case CompareExchange(who) =>
      var s := SetterOf(m, who);
      Machine(if m.word == s.seen then FlagBits(s.f) + RemoveFlags(s.seen) else m.word,
              m.setters[who := Resting])
  }

  /** The effect of a move on the pair: only atomic additions and successful exchanges have one. */
  function Effect(m: Machine, mv: Move): seq<Op>
    requires Enabled(m, mv)
  {
    match mv
    case Atomic(op) => [op]
    case Load(_, _) => []
    case CompareExchange(who) =>
      if m.word == SetterOf(m, who).seen then [Put(SetterOf(m, who).f)] else []
  }

  /** The run `mvs` from `m` is possible and never triggers an abort. */
  predicate Runs(m: Machine, mvs: seq<Move>)
    decreases |mvs|
  {
    mvs == [] ||
    (Enabled(m, mvs[0])
     && (mvs[0].Atomic? ==> FromCurrent(m.word).Some? && Within(FromCurrent(m.word).value, mvs[0].op))
     && Runs(MachineStep(m, mvs[0]), mvs[1..]))
  }

  function Final(m: Machine, mvs: seq<Move>): Machine
    requires Runs(m, mvs)
    decreases |mvs|
  {
    if mvs == [] then m else Final(MachineStep(m, mvs[0]), mvs[1..])
  }

  function Effects(m: Machine, mvs: seq<Move>): seq<Op>
    requires Runs(m, mvs)
    decreases |mvs|
  {
    if mvs == [] then [] else Effect(m, mvs[0]) + Effects(MachineStep(m, mvs[0]), mvs[1..])
  }

  predicate AllWithin(p: Pair, ops: seq<Op>)
    decreases |ops|
  {
    ops == [] || (Within(p, ops[0]) && AllWithin(PairOp(p, ops[0]), ops[1..]))
  }

  function PairRun(p: Pair, ops: seq<Op>): Pair
    requires AllWithin(p, ops)
    decreases |ops|
  {
    if ops == [] then p else PairRun(PairOp(p, ops[0]), ops[1..])
  }

  lemma EffectIsOperation(m: Machine, mv: Move)
    requires Enabled(m, mv)
    ensures var e := Effect(m, mv);
            |e| <= 1 && MachineStep(m, mv).word == if e == [] then m.word else WordOp(m.word, e[0])
  {
  }

  lemma MoveSimulates(m: Machine, mv: Move)
    requires Enabled(m, mv) && FromCurrent(m.word).Some?
    requires mv.Atomic? ==> Within(FromCurrent(m.word).value, mv.op)
    ensures var e := Effect(m, mv);
            && |e| <= 1
            && (e != [] ==> Within(FromCurrent(m.word).value, e[0]))
            && FromCurrent(MachineStep(m, mv).word)
               == Some(if e == [] then FromCurrent(m.word).value else PairOp(FromCurrent(m.word).value, e[0]))
  {
    var e := Effect(m, mv);
    EffectIsOperation(m, mv);
    if e != [] {
      OpSimulates(m.word, e[0]);
    }
  }

  /**
   Refinement: any interleaving of additions, subtractions and `set_state` calls by any number of
   threads acts on the word as the atomic operations on the pair do, with each `set_state` at its
   successful exchange; the flag stays valid throughout.
   */
  lemma {:induction false} WordRefinesPair(m: Machine, mvs: seq<Move>)
    requires FromCurrent(m.word).Some? && Runs(m, mvs)
    ensures var p := FromCurrent(m.word).value;
            AllWithin(p, Effects(m, mvs)) && FromCurrent(Final(m, mvs).word) == Some(PairRun(p, Effects(m, mvs)))
    decreases |mvs|
  {
    if mvs != [] {
      var m' := MachineStep(m, mvs[0]);
      MoveSimulates(m, mvs[0]);
      WordRefinesPair(m', mvs[1..]);
      var e, es := Effect(m, mvs[0]), Effects(m', mvs[1..]);
      if e == [] {
        assert e + es == es;
      } else {
        assert (e + es)[0] == e[0] && (e + es)[1..] == es;
      }
    }
  }

  /** A component's word starts Passive with no work. */
  lemma InitialWord()
    ensures FromCurrent(FlagBits(Passive)) == Some(Pair(Passive, 0))
  {
    PackThenRead(Passive, 0);
  }

  // --- The operations as the original performs them ---

  datatype Outcome = Decided(d: Decision) | Aborts

  class AtomicWord {
    var state: u64

    ghost predicate Valid()
      reads this
    {
      FromCurrent(state).Some?
    }

    ghost function Value(): Pair
      reads this
      requires Valid()
    {
      FromCurrent(state).value
    }

    constructor ()
      ensures Valid() && Value() == Pair(Passive, 0)
    {
      state := FlagBits(Passive);
      new;
      InitialWord();
    }

    /** fetch_add, then validate the old value, then decide from it. */
    method IncrementWork() returns (r: Outcome)
      requires Valid()
      modifies this
      ensures r == if old(Value()).count < MAX_COUNT then Decided(IntoDecision(old(Value()).flag, old(Value()).count)) else Aborts
      ensures r != Aborts ==> Valid() && Value() == old(Value()).(count := old(Value()).count + 1)
    {
      var oldState := state;
      state := WordOp(oldState, Add);
      ReadThenPack(oldState);
      if RemoveFlags(oldState) < MAX_COUNT {
        OpSimulates(oldState, Add);
        var p := FromCurrent(oldState).value;
        r := Decided(IntoDecision(p.flag, p.count));
      } else {
        r := Aborts;
      }
    }

    /** fetch_sub, then a checked subtraction on the old count. */
    method DecrementWork(workDone: u64) returns (r: Outcome)
      requires Valid()
      modifies this
      ensures r == if workDone <= old(Value()).count then Decided(DecrementDecision(old(Value()).count - workDone)) else Aborts
      ensures r != Aborts ==> Valid() && Value() == old(Value()).(count := old(Value()).count - workDone)
    {
      var oldState := state;
      state := WordOp(oldState, Take(workDone));
      ReadThenPack(oldState);
      var oldCount := RemoveFlags(oldState);
      if workDone <= oldCount {
        OpSimulates(oldState, Take(workDone));
        r := Decided(DecrementDecision(oldCount - workDone));
      } else {
        r := Aborts;
      }
    }

    /**
     The compare-and-exchange loop. `interference[k]` is what the other threads do to the word
     between the k-th load and the k-th exchange; after the listed rounds they stay silent. The
     loop ends in some round with the flag replaced and every interfering change of the count kept.
     */
    method SetState(f: Flag, interference: seq<seq<Op>>) returns (rounds: nat)
      requires Valid() && AllWithin(Value(), Concat(interference))
      modifies this
      ensures rounds <= |interference|
      ensures AllWithin(old(Value()), Concat(interference[..rounds]))
      ensures Valid() && Value() == PairRun(old(Value()), Concat(interference[..rounds])).(flag := f)
    {
      rounds := 0;
      while true
        invariant rounds <= |interference|
        invariant Valid() && AllWithin(old(Value()), Concat(interference[..rounds]))
        invariant Value() == PairRun(old(Value()), Concat(interference[..rounds]))
        decreases |interference| - rounds
      {
        var current := state;
        if rounds < |interference| {
          NextRound(old(Value()), interference, rounds);
          Interfere(interference[rounds]);
          rounds := rounds + 1;
        }
        var done := CompareExchange(current, f);
        if done {
          return;
        }
      }
    }

    /** `compare_exchange` of a word loaded before for the same count under the flag `f`. */
    method CompareExchange(current: u64, f: Flag) returns (done: bool)
      requires Valid()
      modifies this
      ensures Valid() && done == (old(state) == current)
      ensures Value() == if done then old(Value()).(flag := f) else old(Value())
    {
      done := state == current;
      if done {
        OpSimulates(current, Put(f));
        state := FlagBits(f) + RemoveFlags(current);
      }
    }

    /** The other threads' operations, one after the other. */
    method Interfere(ops: seq<Op>)
      requires Valid() && AllWithin(Value(), ops)
      modifies this
      ensures Valid() && Value() == PairRun(old(Value()), ops)
    {
      var i := 0;
      while i < |ops|
        invariant i <= |ops| && Valid()
        invariant AllWithin(Value(), ops[i..]) && PairRun(Value(), ops[i..]) == PairRun(old(Value()), ops)
      {
        OpSimulates(state, ops[i]);
        assert ops[i..][1..] == ops[i + 1..];
        state := WordOp(state, ops[i]);
        i := i + 1;
      }
    }
  }

  function Concat(rounds: seq<seq<Op>>): seq<Op> {
    if rounds == [] then [] else rounds[0] + Concat(rounds[1..])
  }

  lemma {:induction false} ConcatAppend(a: seq<seq<Op>>, b: seq<seq<Op>>)
    ensures Concat(a + b) == Concat(a) + Concat(b)
  {
    if a == [] {
      assert a + b == b;
    } else {
      assert (a + b)[0] == a[0] && (a + b)[1..] == a[1..] + b;
      ConcatAppend(a[1..], b);
    }
  }

  lemma {:induction false} SplitRun(p: Pair, a: seq<Op>, b: seq<Op>)
    requires AllWithin(p, a + b)
    ensures AllWithin(p, a) && AllWithin(PairRun(p, a), b)
    ensures PairRun(p, a + b) == PairRun(PairRun(p, a), b)
    decreases |a|
  {
    if a == [] {
      assert a + b == b;
    } else {
      assert (a + b)[0] == a[0] && (a + b)[1..] == a[1..] + b;
      SplitRun(PairOp(p, a[0]), a[1..], b);
    }
  }

  /** Splitting off the interference of round `k`. */
  lemma NextRound(p: Pair, rounds: seq<seq<Op>>, k: nat)
    requires k < |rounds| && AllWithin(p, Concat(rounds))
    ensures AllWithin(p, Concat(rounds[..k])) && AllWithin(PairRun(p, Concat(rounds[..k])), rounds[k])
    ensures AllWithin(p, Concat(rounds[..k + 1]))
    ensures PairRun(p, Concat(rounds[..k + 1])) == PairRun(PairRun(p, Concat(rounds[..k])), rounds[k])
  {
    var before, after := rounds[..k], rounds[k + 1..];
    assert rounds[..k + 1] == before + [rounds[k]];
    assert rounds == rounds[..k + 1] + after;
    assert Concat([rounds[k]]) == rounds[k] + Concat([]) == rounds[k];
    ConcatAppend(before, [rounds[k]]);
    ConcatAppend(rounds[..k + 1], after);
    SplitRun(p, Concat(rounds[..k + 1]), Concat(after));
    SplitRun(p, Concat(before), rounds[k]);
  }
}
