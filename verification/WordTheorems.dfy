/** Runs of the component protocol on the packed lifecycle word. */
module WordTheorems {
  import opened Options
  import opened Lifecycle
  import opened PackedWord
  import ComponentProtocol
  import ComponentInvariants
  import ComponentTheorems

  const START := Pair(Passive, 0)

  lemma {:induction false} AppendRun(p: Pair, a: seq<Op>, b: seq<Op>)
    requires AllWithin(p, a) && AllWithin(PairRun(p, a), b)
    ensures AllWithin(p, a + b) && PairRun(p, a + b) == PairRun(PairRun(p, a), b)
    decreases |a|
  {
    if a == [] {
      assert a + b == b;
    } else {
      assert (a + b)[0] == a[0] && (a + b)[1..] == a[1..] + b;
      AppendRun(PairOp(p, a[0]), a[1..], b);
    }
  }

  /** The accesses to the lifecycle word that the steps of a run perform, in order. */
  function Ops(cfg: ComponentProtocol.Config, ls: seq<ComponentProtocol.Label>): seq<Op> {
    if ls == [] then []
    else
      var us, l := ls[..|ls| - 1], ls[|ls| - 1];
      var before := ComponentProtocol.Exec(cfg, us);
      Ops(cfg, us) + if before.Next? then ComponentTheorems.LabelOps(before.s, l) else []
  }

  lemma OperatedRuns(w: Pair, ops: seq<Op>, w': Pair)
    requires |ops| <= 1 && ComponentInvariants.Operated(w, ops, w')
    ensures AllWithin(w, ops) && PairRun(w, ops) == w'
  {
    if ops != [] {
      assert ops[1..] == [];
    }
  }

  /** Every run of the protocol changes its pair by exactly the operations of its steps, none of which overflows or underflows. */
  lemma {:induction false} RunIsOperations(cfg: ComponentProtocol.Config, ls: seq<ComponentProtocol.Label>)
    requires ComponentProtocol.Exec(cfg, ls).Next?
    ensures AllWithin(START, Ops(cfg, ls)) && PairRun(START, Ops(cfg, ls)) == ComponentProtocol.Exec(cfg, ls).s.sh.word
  {
    if ls != [] {
      var us, l := ls[..|ls| - 1], ls[|ls| - 1];
      var s := ComponentProtocol.Exec(cfg, us).s;
      var ops := ComponentTheorems.LabelOps(s, l);
      RunIsOperations(cfg, us);
      ComponentTheorems.StepIsOneWordOperation(s, l);
      OperatedRuns(s.sh.word, ops, ComponentProtocol.Exec(cfg, ls).s.sh.word);
      AppendRun(START, Ops(cfg, us), ops);
    }
  }

  lemma FirstMove(m: Machine, mv: Move, rest: seq<Move>)
    requires Enabled(m, mv)
    requires mv.Atomic? ==> FromCurrent(m.word).Some? && Within(FromCurrent(m.word).value, mv.op)
    requires Runs(MachineStep(m, mv), rest)
    ensures Runs(m, [mv] + rest)
    ensures Effects(m, [mv] + rest) == Effect(m, mv) + Effects(MachineStep(m, mv), rest)
  {
    assert ([mv] + rest)[1..] == rest;
  }

  /** A flag change as a load and an exchange that finds the word unchanged. */
  lemma PutInTwo(m: Machine, f: Flag, rest: seq<Move>)
    requires SetterOf(m, 0).Resting?
    requires Runs(MachineStep(MachineStep(m, Load(0, f)), CompareExchange(0)), rest)
    ensures Runs(m, [Load(0, f)] + ([CompareExchange(0)] + rest))
    ensures Effects(m, [Load(0, f)] + ([CompareExchange(0)] + rest))
      == [Put(f)] + Effects(MachineStep(MachineStep(m, Load(0, f)), CompareExchange(0)), rest)
  {
    var m1 := MachineStep(m, Load(0, f));
    FirstMove(m1, CompareExchange(0), rest);
    FirstMove(m, Load(0, f), [CompareExchange(0)] + rest);
    assert [] + Effects(m1, [CompareExchange(0)] + rest) == Effects(m1, [CompareExchange(0)] + rest);
  }

  /** Any sequence of operations on the pair is the effect of moves on the word, with flag changes split in two. */
  lemma {:induction false} OperationsAreMoves(m: Machine, ops: seq<Op>) returns (mvs: seq<Move>)
    requires FromCurrent(m.word).Some? && AllWithin(FromCurrent(m.word).value, ops) && SetterOf(m, 0).Resting?
    ensures Runs(m, mvs) && Effects(m, mvs) == ops
    decreases |ops|
  {
    mvs := [];
    if ops != [] {
      var op := ops[0];
      OpSimulates(m.word, op);
      if op.Put? {
        var m' := MachineStep(MachineStep(m, Load(0, op.f)), CompareExchange(0));
        assert m'.word == WordOp(m.word, op);
        var rest := OperationsAreMoves(m', ops[1..]);
        PutInTwo(m, op.f, rest);
        mvs := [Load(0, op.f)] + ([CompareExchange(0)] + rest);
      } else {
        var rest := OperationsAreMoves(MachineStep(m, Atomic(op)), ops[1..]);
        FirstMove(m, Atomic(op), rest);
        mvs := [Atomic(op)] + rest;
      }
      assert [op] + ops[1..] == ops;
    }
  }

  /**
   Every interleaving of moves on the packed word, with flag changes split into load and exchange,
   whose effects are the operations of the steps of a run ends in a word that reads back the flag and
   count of the run; and there is such an interleaving from the initial word.
   */
  lemma WordFollowsRun(cfg: ComponentProtocol.Config, ls: seq<ComponentProtocol.Label>) returns (mvs: seq<Move>)
    requires ComponentProtocol.Exec(cfg, ls).Next?
    ensures var m := Machine(FlagBits(Passive), map[]); Runs(m, mvs) && Effects(m, mvs) == Ops(cfg, ls)
    ensures forall m: Machine, vs: seq<Move> :: FromCurrent(m.word) == Some(START) && Runs(m, vs) && Effects(m, vs) == Ops(cfg, ls) ==>
      FromCurrent(Final(m, vs).word) == Some(ComponentProtocol.Exec(cfg, ls).s.sh.word)
  {
    RunIsOperations(cfg, ls);
    InitialWord();
    mvs := OperationsAreMoves(Machine(FlagBits(Passive), map[]), Ops(cfg, ls));
    forall m: Machine, vs: seq<Move> | FromCurrent(m.word) == Some(START) && Runs(m, vs) && Effects(m, vs) == Ops(cfg, ls)
      ensures FromCurrent(Final(m, vs).word) == Some(ComponentProtocol.Exec(cfg, ls).s.sh.word)
    {
      WordRefinesPair(m, vs);
    }
  }
}
