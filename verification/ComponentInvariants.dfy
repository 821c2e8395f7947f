/** What every step of the component protocol keeps. */
module ComponentInvariants {
  import opened Options
  import opened Lifecycle
  import opened ComponentProtocol
  import PackedWord

  // --- Weights of program counters, summed over all threads ---

  datatype Metric = Announced | InFlight | Tokens | Unwinding | Exits | AtApplying(t: Transition)

  function ToNat(b: bool): nat { if b then 1 else 0 }

  /** Items popped by this thread and not yet subtracted from the count. */
  function Popped(p: Point): nat {
    match p
    case Take(mode) => ModeCount(mode)
    case Polling(_, mode) => ModeCount(mode)
    case Applying(_, mode) => ModeCount(mode)
    case Polled(mode, _) => ModeCount(mode)
    case Ctrl(n) => n
    case CtrlSet(n, _) => n + 1
    case CtrlRun(n, _) => n + 1
    case CtrlDone(n, _) => n
    case CheckActive(n) => n
    case Timers(n) => n
    case Messages(n) => n
    case Ports(n, _) => n
    case MoreMessages(n) => n
    case Run(n, _) => n + 1
    case Arm(n, _) => n
    case Failing(n, _) => n
    case Recovering(n) => n
    case KillSet(n) => n
    case KillRun(n) => n
    case KillDone(n) => n
    case Sub(n) => n
    case _ => 0
  }

  predicate GoesOn(d: Decision) { d == Schedule || d == Resume }

  /** A thread that will still look at the count, or hand that duty on. */
  predicate HoldsToken(pc: Pc) {
    match pc
    case EnqPush(_, d) => d == Schedule
    case EnqSchedule(_) => true
    case Entry(_) => true
    case WaitLock(_) => true
    case Panicked(_) => true
    case Inside(_, Ret(d)) => GoesOn(d)
    case Inside(_, AfterSub(end, d)) => end != Completed || d == Schedule
    case Inside(_, _) => true
    case Returned(_, d) => GoesOn(d)
    case _ => false
  }

  function Weight(m: Metric, pc: Pc): nat {
    match m
    case Announced => ToNat(pc.EnqPush?)
    case InFlight => if pc.Inside? then Popped(pc.at) else 0
    case Tokens => ToNat(HoldsToken(pc))
    case Unwinding => ToNat(pc.Panicked?)
    case Exits => ToNat(pc.Exited?)
    case AtApplying(t) => ToNat(IsApplying(pc) && pc.at.t == t)
  }

  function Sum(m: Metric, ts: seq<Pc>): nat {
    if ts == [] then 0 else Sum(m, ts[..|ts| - 1]) + Weight(m, ts[|ts| - 1])
  }

  lemma {:induction false} SumUpdate(m: Metric, ts: seq<Pc>, i: nat, pc: Pc)
    requires i < |ts|
    ensures Sum(m, ts[i := pc]) + Weight(m, ts[i]) == Sum(m, ts) + Weight(m, pc)
  {
    var us := ts[i := pc];
    if i == |ts| - 1 {
      assert us[..|us| - 1] == ts[..|ts| - 1];
    } else {
      assert us[..|us| - 1] == ts[..|ts| - 1][i := pc];
      SumUpdate(m, ts[..|ts| - 1], i, pc);
    }
  }

  lemma SumAppend(m: Metric, ts: seq<Pc>, pc: Pc)
    ensures Sum(m, ts + [pc]) == Sum(m, ts) + Weight(m, pc)
  {
    assert (ts + [pc])[..|ts|] == ts;
  }

  lemma {:induction false} SumWitness(m: Metric, ts: seq<Pc>)
    ensures Sum(m, ts) > 0 <==> exists i :: 0 <= i < |ts| && Weight(m, ts[i]) > 0
  {
    if ts != [] {
      var us := ts[..|ts| - 1];
      SumWitness(m, us);
      assert forall i :: 0 <= i < |us| ==> us[i] == ts[i];
    }
  }

  lemma {:induction false} SumAtLeast(m: Metric, ts: seq<Pc>, i: nat)
    requires i < |ts|
    ensures Sum(m, ts) >= Weight(m, ts[i])
  {
    SumUpdate(m, ts, i, Finished);
  }

  // --- Work conservation ---

  /** The count owed to items that are queued, were discarded as stale, or were lost by a fault or shutdown. */
  function Owed(sh: Shared): nat {
    |sh.q.ctrl| + |sh.q.timeouts| + sh.q.messages + sh.q.ports + sh.gone.stale + sh.gone.lost
  }

  ghost predicate Conserved(s: State) {
    s.sh.word.count == Owed(s.sh) + Sum(Announced, s.threads) + Sum(InFlight, s.threads)
  }

  ghost predicate Balanced(sh: Shared, pc: Pc, sh': Shared, pc': Pc) {
    sh'.word.count + Owed(sh) + Weight(Announced, pc) + Weight(InFlight, pc)
    == sh.word.count + Owed(sh') + Weight(Announced, pc') + Weight(InFlight, pc')
  }

  /** The step discards a timeout whose handle is gone. */
  predicate DiscardsStale(cfg: Config, sh: Shared, pc: Pc) {
    && pc.Inside? && pc.at.Timers? && pc.at.n < cfg.maxEvents
    && sh.q.timeouts != [] && sh.q.timeouts[0] !in sh.q.handles
  }

  /** The step unwinds out of the mutex: user code panics, blocks where it must not, or a future is missing or doubled. */
  predicate Unwinds(sh: Shared, p: Point, ch: Choice) {
    match p
    case Run(_, _) => ch.Outcome? && (ch.result == Panics || (ch.result == BlockOn && sh.core.blocking.Some?))
    case CtrlRun(_, _) => ch.Outcome? && (ch.result == Panics || (ch.result == BlockOn && sh.core.blocking.Some?))
    case Polling(_, _) => ch.PollReady? && ch.result == Panics
    case KillRun(_) => ch.Outcome? && (ch.result == Panics || ch.result == BlockOn)
    case Recovering(_) => ch.Outcome? && ch.result == Panics
    case Take(_) => sh.core.blocking.None?
    case _ => false
  }

  /** The step ends an execution by fault or shutdown, without subtracting what it popped. */
  predicate EndsUncounted(sh: Shared, p: Point, ch: Choice) {
    (p.Failing? && p.flag != Faulty) || p.Recovering? || p.KillDone? || Unwinds(sh, p, ch)
  }

  /** What the step adds to the work that will never be subtracted. */
  function GoneBy(cfg: Config, sh: Shared, pc: Pc, ch: Choice): Gone {
    Gone(ToNat(DiscardsStale(cfg, sh, pc)), if pc.Inside? && EndsUncounted(sh, pc.at, ch) then Popped(pc.at) else 0)
  }

  function Plus(a: Gone, b: Gone): Gone { Gone(a.stale + b.stale, a.lost + b.lost) }

  // --- Operations on the lifecycle word ---

  function FlagsSetBy(e: ControlEvent): seq<PackedWord.Op> {
    match e
    case Start => [PackedWord.Put(Active)]
    case Stop => [PackedWord.Put(Passive)]
    case Kill => [PackedWord.Put(Destroyed)]
    case Poll(_) => []
  }

  /** The access to the lifecycle word that each program point performs; all others have none. */
  function OpsAt(pc: Pc): (ops: seq<PackedWord.Op>)
    ensures |ops| <= 1
  {
    match pc
    case EnqStart(_) => [PackedWord.Add]
    case Panicked(_) => [PackedWord.Put(Faulty)]
    case Inside(_, p) => PointOps(p)
    case _ => []
  }

  function PointOps(p: Point): (ops: seq<PackedWord.Op>)
    ensures |ops| <= 1
  {
    match p
    case Sub(n) => [PackedWord.Take(n)]
    case Polled(Fresh(n), _) => [PackedWord.Take(n)]
    case Arm(_, _) => [PackedWord.Put(Blocking)]
    case Applying(t, _) => [PackedWord.Put(FlagOf(t))]
    case CtrlSet(_, e) => FlagsSetBy(e)
    case CtrlDone(_, e) => if e.Start? then [] else FlagsSetBy(e)
    case Failing(_, f) => [PackedWord.Put(f)]
    case KillSet(_) => [PackedWord.Put(Destroyed)]
    case KillDone(_) => [PackedWord.Put(Destroyed)]
    case _ => []
  }

  /** `w'` is what the operation, if any, makes of `w`, within its bounds. */
  predicate Operated(w: Pair, ops: seq<PackedWord.Op>, w': Pair)
    requires |ops| <= 1
  {
    if ops == [] then w' == w else PackedWord.Within(w, ops[0]) && w' == PackedWord.PairOp(w, ops[0])
  }

  // --- Blocking futures ---

  /** The transition of the future that was stored last and has neither been applied nor abandoned. */
  function Open(h: seq<BlockEvent>): Option<Transition> {
    if h == [] then None
    else if h[|h| - 1].Stored? then Some(h[|h| - 1].t) else None
  }

  /** Each stored future is closed exactly once, by its own transition, before the next one is stored. */
  predicate Bracketed(h: seq<BlockEvent>) {
    h == [] ||
    (Bracketed(h[..|h| - 1]) &&
     Open(h[..|h| - 1]) == if h[|h| - 1].Stored? then None else Some(h[|h| - 1].t))
  }

  /** `h'` is `h`, possibly with one event that opens or closes a future in turn. */
  predicate Extends(h: seq<BlockEvent>, h': seq<BlockEvent>) {
    h' == h ||
    (|h'| == |h| + 1 && h'[..|h|] == h && Open(h) == if h'[|h|].Stored? then None else Some(h'[|h|].t))
  }

  /** The mutex is free: a future is stored exactly when the flag says Blocking. */
  predicate Settled(f: Flag, c: Core) {
    (c.blocking.Some? <==> f == Blocking) && Open(c.history) == c.blocking
  }

  predicate Unblocked(c: Core) {
    c.blocking.None? && Open(c.history).None?
  }

  predicate FlagFor(e: ControlEvent, f: Flag) {
    match e
    case Start => f == Active
    case Stop => f == Passive
    case Kill => f == Destroyed
    case Poll(_) => f != Blocking
  }

  /** What the owner of the mutex knows at each of its program points. */
  predicate At(p: Point, f: Flag, c: Core) {
    match p
    case Gate => Settled(f, c)
    case Ret(d) => Settled(f, c) && d != AlreadyScheduled && (d == Blocked ==> f == Blocking)
    case Arm(_, t) => c.blocking == Some(t) == Open(c.history)
    case Take(_) => c.blocking.Some? && f == Blocking && Open(c.history) == c.blocking
    case Polling(t, _) => c.blocking.None? && f == Blocking && Open(c.history) == Some(t)
    case Applying(t, _) => c.blocking.None? && f == Blocking && Open(c.history) == Some(t)
    case Polled(_, end) => AfterPoll(end, f, c)
    case AfterSub(end, d) => AfterPoll(end, f, c) && (d == Schedule || d == NoWork)
    case Ctrl(_) => Unblocked(c) && f != Blocking
    case CtrlSet(_, _) => Unblocked(c) && f != Blocking
    case CtrlRun(_, e) => Unblocked(c) && FlagFor(e, f)
    case CtrlDone(n, e) => Unblocked(c) && FlagFor(e, f) && n > 0
    case CheckActive(_) => Unblocked(c) && f != Blocking
    case Sub(_) => Unblocked(c) && f != Blocking
    case Failing(_, g) => Unblocked(c) && (g == Faulty || g == Destroyed)
    case Recovering(_) => Unblocked(c) && f == Faulty
    case KillSet(_) => Unblocked(c)
    case KillRun(_) => Unblocked(c) && f == Destroyed
    case KillDone(_) => Unblocked(c) && f == Destroyed
    case _ => Unblocked(c) && f == Active
  }

  predicate AfterPoll(end: PollEnd, f: Flag, c: Core) {
    c.history != [] &&
    match end
    case Pending => f == Blocking && c.blocking.Some? && Open(c.history) == c.blocking
    case Completed => Unblocked(c) && f != Blocking
    case _ => Unblocked(c)
  }

  /** The part of the invariant that speaks about the shared state alone. */
  predicate SharedOk(sh: Shared) {
    && (sh.core.polled ==> sh.core.history != [])
    && (sh.core.poisoned ==> sh.core.lock.None? && Unblocked(sh.core))
    && (sh.core.lock.None? && !sh.core.poisoned ==> Settled(sh.word.flag, sh.core))
  }

  /** The part of the invariant that ties thread `me` at `pc` to the shared state. */
  predicate ThreadOk(sh: Shared, me: nat, pc: Pc) {
    && (pc.Inside? <==> sh.core.lock == Some(me))
    && (pc.Inside? ==> At(pc.at, sh.word.flag, sh.core))
    && (pc.Panicked? ==> sh.core.poisoned)
    && (pc.Returned? ==> pc.decision != AlreadyScheduled)
  }

  /** What the threads other than `me` may rely on. */
  predicate Undisturbed(me: nat, sh: Shared, pc: Pc, sh': Shared, pc': Pc) {
    && (sh.core.poisoned ==> sh'.core.poisoned)
    && Extends(sh.core.history, sh'.core.history)
    && (sh.core.lock.Some? && sh.core.lock != Some(me) ==>
          sh'.core.lock == sh.core.lock && sh'.word.flag == sh.word.flag && sh'.core.blocking == sh.core.blocking && sh'.core.history == sh.core.history)
    && (sh.core.lock.None? || sh.core.lock == Some(me) ==> sh'.core.lock.None? || sh'.core.lock == Some(me))
    && (!sh.core.poisoned && sh'.core.poisoned ==> pc'.Panicked?)
    && (sh.core.poisoned ==> sh'.word.flag == sh.word.flag || sh'.word.flag == Faulty)
    && (pc.Panicked? && !pc'.Panicked? ==> sh'.word.flag == Faulty)
    && (pc.Exited? ==> pc'.Exited?)
  }

  // --- Wake-ups ---

  predicate Demands(sh: Shared) {
    Schedulable(sh.word.flag) && sh.word.count > 0
  }

  /** A step passes the duty to look at the count on, unless there is nothing left to look at. */
  predicate PassesDuty(sh: Shared, pc: Pc, sh': Shared, pc': Pc) {
    && (HoldsToken(pc) && Demands(sh') ==> HoldsToken(pc') || sh'.sched.tasks > sh.sched.tasks || sh'.sched.unpark || pc'.Exited?)
    && (!Demands(sh) && Demands(sh') ==> HoldsToken(pc'))
    && (sh'.sched.tasks >= sh.sched.tasks)
    && (sh.sched.unpark && !sh'.sched.unpark ==> HoldsToken(pc'))
  }

  /** `t` tokens are exactly what the word calls for. */
  predicate Single(sh: Shared, t: nat) {
    t <= 1 && (Schedulable(sh.word.flag) ==> t == ToNat(sh.word.count > 0))
  }

  /** A pool component whose handlers never blocked keeps the exact number of tokens. */
  ghost predicate KeepsSingle(cfg: Config, sh: Shared, pc: Pc, sh': Shared, pc': Pc) {
    forall t: nat ::
      !cfg.dedicated && sh'.core.history == [] && t >= Weight(Tokens, pc) + sh.sched.tasks && Single(sh, t)
      && sh.word.count >= Weight(InFlight, pc) && !OnDedicated(pc) ==>
        Single(sh', t - Weight(Tokens, pc) + Weight(Tokens, pc') - sh.sched.tasks + sh'.sched.tasks)
  }

  predicate OnDedicated(pc: Pc) {
    match pc
    case Entry(ded) => ded
    case WaitLock(ded) => ded
    case Inside(ded, _) => ded
    case Panicked(ded) => ded
    case Returned(ded, _) => ded
    case Idle => true
    case Parked => true
    case Exited => true
    case _ => false
  }

  // --- One step of one thread ---

  /** What one step keeps about the mutex, the blocking future and the other threads. */
  ghost predicate Structured(me: nat, sh: Shared, pc: Pc, sh': Shared, pc': Pc) {
    && SharedOk(sh') && ThreadOk(sh', me, pc')
    && Undisturbed(me, sh, pc, sh', pc')
    && (OnDedicated(pc') ==> OnDedicated(pc))
  }

  ghost predicate Dutiful(cfg: Config, sh: Shared, pc: Pc, sh': Shared, pc': Pc) {
    && PassesDuty(sh, pc, sh', pc')
    && KeepsSingle(cfg, sh, pc, sh', pc')
    && (!cfg.dedicated && !sh.sched.unpark ==> !sh'.sched.unpark)
  }

  lemma EnqueuerBalance(cfg: Config, sh: Shared, pc: Pc)
    requires pc.EnqStart? || pc.EnqPush? || pc.EnqSchedule?
    requires StepEnqueuer(cfg, sh, pc).To?
    ensures var r := StepEnqueuer(cfg, sh, pc); Balanced(sh, pc, r.sh, r.pc)
  {
  }

  lemma OutsideBalance(cfg: Config, me: nat, sh: Shared, pc: Pc, ch: Choice)
    requires !pc.Inside? && !pc.EnqStart? && !pc.EnqPush? && !pc.EnqSchedule?
    requires StepOutside(cfg, me, sh, pc, ch).To?
    ensures var r := StepOutside(cfg, me, sh, pc, ch); Balanced(sh, pc, r.sh, r.pc)
  {
  }

  lemma PollBalance(sh: Shared, ded: bool, p: Point, ch: Choice)
    requires p.Gate? || p.Take? || p.Polling? || p.Applying? || p.Arm?
    requires StepPoll(sh, ded, p, ch).To?
    ensures var r := StepPoll(sh, ded, p, ch); Balanced(sh, Inside(ded, p), r.sh, r.pc)
  {
  }

  lemma ConcludeBalance(sh: Shared, ded: bool, p: Point)
    requires p.Polled? || p.AfterSub?
    requires StepConclude(sh, ded, p).To?
    ensures var r := StepConclude(sh, ded, p); Balanced(sh, Inside(ded, p), r.sh, r.pc)
  {
  }

  lemma ControlBalance(sh: Shared, ded: bool, p: Point)
    requires p.Ctrl? || p.CtrlSet? || p.CtrlDone? || p.CheckActive?
    requires StepControl(sh, ded, p).To?
    ensures var r := StepControl(sh, ded, p); Balanced(sh, Inside(ded, p), r.sh, r.pc)
  {
  }

  lemma TryActionBalance(sh: Shared, ded: bool, n: nat)
    requires sh.q.timeouts != []
    ensures var r := TryAction(sh, ded, n); r.To? && Balanced(sh, Inside(ded, Timers(n)), r.sh, r.pc)
  {
  }

  lemma LoopsBalance(cfg: Config, sh: Shared, ded: bool, p: Point, ch: Choice)
    requires p.Timers? || p.Messages? || p.Ports? || p.MoreMessages?
    requires StepLoops(cfg, sh, ded, p, ch).To?
    ensures var r := StepLoops(cfg, sh, ded, p, ch); Balanced(sh, Inside(ded, p), r.sh, r.pc)
  {
    if p.Timers? && p.n < cfg.maxEvents && sh.q.timeouts != [] {
      TryActionBalance(sh, ded, p.n);
    }
  }

  lemma ResumptionPopped(n: nat, p: Point, benign: bool)
    requires p.CtrlRun? || p.Run?
    ensures Popped(Resumption(n, p, benign)) == n
  {
  }

  lemma ResumingBalance(sh: Shared, ded: bool, p: Point, benign: bool, h: map<nat, TimerHandle>)
    requires p.CtrlRun? || p.Run?
    ensures Balanced(sh, Inside(ded, p), sh.WithHandles(h), Inside(ded, Resumption(p.n + 1, p, benign)))
  {
    ResumptionPopped(p.n + 1, p, benign);
  }

  lemma BlockingBalance(sh: Shared, ded: bool, p: Point, h: map<nat, TimerHandle>, t: Transition)
    requires p.CtrlRun? || p.Run?
    ensures var r := Store(sh.WithHandles(h), ded, p.n + 1, t); r.To? && Balanced(sh, Inside(ded, p), r.sh, r.pc)
  {
  }

  lemma HandlerBalance(sh: Shared, ded: bool, p: Point, ch: Choice)
    requires p.CtrlRun? || p.Run?
    requires StepHandler(sh, ded, p, ch).To?
    ensures var r := StepHandler(sh, ded, p, ch); Balanced(sh, Inside(ded, p), r.sh, r.pc)
  {
    if ch.result == Handled || ch.result == Benign {
      ResumingBalance(sh, ded, p, ch.result == Benign, ch.handles);
    } else if ch.result == BlockOn {
      BlockingBalance(sh, ded, p, ch.handles, if p.CtrlRun? then TransitionFor(p.event) else ToActive);
    }
  }

  lemma LastWordsBalance(sh: Shared, ded: bool, p: Point, ch: Choice)
    requires p.Recovering? || p.KillRun?
    requires StepLastWords(sh, ded, p, ch).To?
    ensures var r := StepLastWords(sh, ded, p, ch); Balanced(sh, Inside(ded, p), r.sh, r.pc)
  {
  }

  lemma EndBalance(sh: Shared, ded: bool, p: Point, ch: Choice)
    requires p.Sub? || p.Failing? || p.Recovering? || p.KillSet? || p.KillRun? || p.KillDone? || p.Ret?
    requires StepEnd(sh, ded, p, ch).To?
    ensures var r := StepEnd(sh, ded, p, ch); Balanced(sh, Inside(ded, p), r.sh, r.pc)
  {
    if p.Recovering? || p.KillRun? {
      LastWordsBalance(sh, ded, p, ch);
    }
  }

  lemma EnqueuerStructure(cfg: Config, me: nat, sh: Shared, pc: Pc)
    requires pc.EnqStart? || pc.EnqPush? || pc.EnqSchedule?
    requires SharedOk(sh) && ThreadOk(sh, me, pc)
    requires StepEnqueuer(cfg, sh, pc).To?
    ensures var r := StepEnqueuer(cfg, sh, pc); Structured(me, sh, pc, r.sh, r.pc)
  {
  }

  lemma OutsideStructure(cfg: Config, me: nat, sh: Shared, pc: Pc, ch: Choice)
    requires !pc.Inside? && !pc.EnqStart? && !pc.EnqPush? && !pc.EnqSchedule?
    requires SharedOk(sh) && ThreadOk(sh, me, pc)
    requires StepOutside(cfg, me, sh, pc, ch).To?
    ensures var r := StepOutside(cfg, me, sh, pc, ch); Structured(me, sh, pc, r.sh, r.pc)
  {
  }

  lemma PendingStructure(me: nat, sh: Shared, ded: bool, t: Transition, mode: PollMode, h: map<nat, TimerHandle>)
    requires SharedOk(sh) && ThreadOk(sh, me, Inside(ded, Polling(t, mode)))
    ensures Structured(me, sh, Inside(ded, Polling(t, mode)),
                       sh.WithHandles(h).WithCore(sh.core.(blocking := Some(t))), Inside(ded, Polled(mode, Pending)))
  {
  }

  lemma AbandonedStructure(me: nat, sh: Shared, ded: bool, t: Transition, mode: PollMode, h: map<nat, TimerHandle>, end: PollEnd)
    requires SharedOk(sh) && ThreadOk(sh, me, Inside(ded, Polling(t, mode)))
    requires end == WantsShutdown || end.Failed?
    ensures Structured(me, sh, Inside(ded, Polling(t, mode)),
                       sh.WithHandles(h).WithCore(Log(sh.core, Abandoned(t))), Inside(ded, Polled(mode, end)))
  {
  }

  lemma UnwoundStructure(me: nat, sh: Shared, ded: bool, t: Transition, mode: PollMode, h: map<nat, TimerHandle>)
    requires SharedOk(sh) && ThreadOk(sh, me, Inside(ded, Polling(t, mode)))
    ensures var r := Unwind(sh.WithHandles(h).WithCore(Log(sh.core, Abandoned(t))), ded, ModeCount(mode));
            r.To? && Structured(me, sh, Inside(ded, Polling(t, mode)), r.sh, r.pc)
  {
  }

  lemma PollingStructure(me: nat, sh: Shared, ded: bool, t: Transition, mode: PollMode, ch: Choice)
    requires SharedOk(sh) && ThreadOk(sh, me, Inside(ded, Polling(t, mode)))
    requires StepPolling(sh, ded, t, mode, ch).To?
    ensures var r := StepPolling(sh, ded, t, mode, ch); Structured(me, sh, Inside(ded, Polling(t, mode)), r.sh, r.pc)
  {
    if ch.PollNotReady? || ch.result == BlockOn {
      PendingStructure(me, sh, ded, t, mode, ch.handles);
    } else if ch.result == Panics {
      UnwoundStructure(me, sh, ded, t, mode, ch.handles);
    } else if ch.result == Recoverable || ch.result == Unrecoverable {
      AbandonedStructure(me, sh, ded, t, mode, ch.handles, Failed(ch.result == Recoverable));
    } else if ch.result == Shutdown {
      AbandonedStructure(me, sh, ded, t, mode, ch.handles, WantsShutdown);
    }
  }

  lemma PollStructure(me: nat, sh: Shared, ded: bool, p: Point, ch: Choice)
    requires p.Gate? || p.Take? || p.Polling? || p.Applying? || p.Arm?
    requires SharedOk(sh) && ThreadOk(sh, me, Inside(ded, p))
    requires StepPoll(sh, ded, p, ch).To?
    ensures var r := StepPoll(sh, ded, p, ch); Structured(me, sh, Inside(ded, p), r.sh, r.pc)
  {
    if p.Polling? {
      PollingStructure(me, sh, ded, p.t, p.mode, ch);
    }
  }

  lemma ConcludeStructure(me: nat, sh: Shared, ded: bool, p: Point)
    requires p.Polled? || p.AfterSub?
    requires SharedOk(sh) && ThreadOk(sh, me, Inside(ded, p))
    requires StepConclude(sh, ded, p).To?
    ensures var r := StepConclude(sh, ded, p); Structured(me, sh, Inside(ded, p), r.sh, r.pc)
  {
  }

  lemma ControlStructure(me: nat, sh: Shared, ded: bool, p: Point)
    requires p.Ctrl? || p.CtrlSet? || p.CtrlDone? || p.CheckActive?
    requires SharedOk(sh) && ThreadOk(sh, me, Inside(ded, p))
    requires StepControl(sh, ded, p).To?
    ensures var r := StepControl(sh, ded, p); Structured(me, sh, Inside(ded, p), r.sh, r.pc)
  {
  }

  lemma TryActionStructure(me: nat, sh: Shared, ded: bool, n: nat)
    requires SharedOk(sh) && ThreadOk(sh, me, Inside(ded, Timers(n))) && sh.q.timeouts != []
    ensures var r := TryAction(sh, ded, n); r.To? && Structured(me, sh, Inside(ded, Timers(n)), r.sh, r.pc)
  {
  }

  lemma LoopsStructure(cfg: Config, me: nat, sh: Shared, ded: bool, p: Point, ch: Choice)
    requires p.Timers? || p.Messages? || p.Ports? || p.MoreMessages?
    requires SharedOk(sh) && ThreadOk(sh, me, Inside(ded, p))
    requires StepLoops(cfg, sh, ded, p, ch).To?
    ensures var r := StepLoops(cfg, sh, ded, p, ch); Structured(me, sh, Inside(ded, p), r.sh, r.pc)
  {
    if p.Timers? && p.n < cfg.maxEvents && sh.q.timeouts != [] {
      TryActionStructure(me, sh, ded, p.n);
    }
  }

  lemma BlockingStructure(me: nat, sh: Shared, ded: bool, p: Point, ch: Choice)
    requires (p.CtrlRun? || p.Run?) && ch.Outcome? && ch.result == BlockOn
    requires SharedOk(sh) && ThreadOk(sh, me, Inside(ded, p))
    ensures var r := StepHandler(sh, ded, p, ch); r.To? && Structured(me, sh, Inside(ded, p), r.sh, r.pc)
  {
  }

  lemma ResumingStructure(me: nat, sh: Shared, ded: bool, p: Point, ch: Choice)
    requires (p.CtrlRun? || p.Run?) && ch.Outcome? && (ch.result == Handled || ch.result == Benign)
    requires SharedOk(sh) && ThreadOk(sh, me, Inside(ded, p))
    ensures var r := StepHandler(sh, ded, p, ch); r.To? && Structured(me, sh, Inside(ded, p), r.sh, r.pc)
  {
  }

  lemma HandlerStructure(me: nat, sh: Shared, ded: bool, p: Point, ch: Choice)
    requires p.CtrlRun? || p.Run?
    requires SharedOk(sh) && ThreadOk(sh, me, Inside(ded, p))
    requires StepHandler(sh, ded, p, ch).To?
    ensures var r := StepHandler(sh, ded, p, ch); Structured(me, sh, Inside(ded, p), r.sh, r.pc)
  {
    if ch.result == BlockOn {
      BlockingStructure(me, sh, ded, p, ch);
    } else if ch.result == Handled || ch.result == Benign {
      ResumingStructure(me, sh, ded, p, ch);
    }
  }

  lemma LastWordsStructure(me: nat, sh: Shared, ded: bool, p: Point, ch: Choice)
    requires p.Recovering? || p.KillRun?
    requires SharedOk(sh) && ThreadOk(sh, me, Inside(ded, p))
    requires StepLastWords(sh, ded, p, ch).To?
    ensures var r := StepLastWords(sh, ded, p, ch); Structured(me, sh, Inside(ded, p), r.sh, r.pc)
  {
  }

  lemma EndStructure(me: nat, sh: Shared, ded: bool, p: Point, ch: Choice)
    requires p.Sub? || p.Failing? || p.Recovering? || p.KillSet? || p.KillRun? || p.KillDone? || p.Ret?
    requires SharedOk(sh) && ThreadOk(sh, me, Inside(ded, p))
    requires StepEnd(sh, ded, p, ch).To?
    ensures var r := StepEnd(sh, ded, p, ch); Structured(me, sh, Inside(ded, p), r.sh, r.pc)
  {
    if p.Recovering? || p.KillRun? {
      LastWordsStructure(me, sh, ded, p, ch);
    }
  }

  lemma EnqueuerDuty(cfg: Config, me: nat, sh: Shared, pc: Pc)
    requires pc.EnqStart? || pc.EnqPush? || pc.EnqSchedule?
    requires SharedOk(sh) && ThreadOk(sh, me, pc)
    requires StepEnqueuer(cfg, sh, pc).To?
    ensures var r := StepEnqueuer(cfg, sh, pc); Dutiful(cfg, sh, pc, r.sh, r.pc)
  {
  }

  lemma OutsideDuty(cfg: Config, me: nat, sh: Shared, pc: Pc, ch: Choice)
    requires !pc.Inside? && !pc.EnqStart? && !pc.EnqPush? && !pc.EnqSchedule?
    requires SharedOk(sh) && ThreadOk(sh, me, pc)
    requires StepOutside(cfg, me, sh, pc, ch).To?
    ensures var r := StepOutside(cfg, me, sh, pc, ch); Dutiful(cfg, sh, pc, r.sh, r.pc)
  {
  }

  lemma PollDuty(cfg: Config, me: nat, sh: Shared, ded: bool, p: Point, ch: Choice)
    requires p.Gate? || p.Take? || p.Polling? || p.Applying? || p.Arm?
    requires SharedOk(sh) && ThreadOk(sh, me, Inside(ded, p))
    requires StepPoll(sh, ded, p, ch).To?
    ensures var r := StepPoll(sh, ded, p, ch); Dutiful(cfg, sh, Inside(ded, p), r.sh, r.pc)
  {
  }

  lemma ConcludeDuty(cfg: Config, me: nat, sh: Shared, ded: bool, p: Point)
    requires p.Polled? || p.AfterSub?
    requires SharedOk(sh) && ThreadOk(sh, me, Inside(ded, p))
    requires StepConclude(sh, ded, p).To?
    ensures var r := StepConclude(sh, ded, p); Dutiful(cfg, sh, Inside(ded, p), r.sh, r.pc)
  {
  }

  lemma ControlDuty(cfg: Config, me: nat, sh: Shared, ded: bool, p: Point)
    requires p.Ctrl? || p.CtrlSet? || p.CtrlDone? || p.CheckActive?
    requires SharedOk(sh) && ThreadOk(sh, me, Inside(ded, p))
    requires StepControl(sh, ded, p).To?
    ensures var r := StepControl(sh, ded, p); Dutiful(cfg, sh, Inside(ded, p), r.sh, r.pc)
  {
  }

  lemma LoopsDuty(cfg: Config, me: nat, sh: Shared, ded: bool, p: Point, ch: Choice)
    requires p.Timers? || p.Messages? || p.Ports? || p.MoreMessages?
    requires SharedOk(sh) && ThreadOk(sh, me, Inside(ded, p))
    requires StepLoops(cfg, sh, ded, p, ch).To?
    ensures var r := StepLoops(cfg, sh, ded, p, ch); Dutiful(cfg, sh, Inside(ded, p), r.sh, r.pc)
  {
  }

  lemma HandlerDuty(cfg: Config, me: nat, sh: Shared, ded: bool, p: Point, ch: Choice)
    requires p.CtrlRun? || p.Run?
    requires SharedOk(sh) && ThreadOk(sh, me, Inside(ded, p))
    requires StepHandler(sh, ded, p, ch).To?
    ensures var r := StepHandler(sh, ded, p, ch); Dutiful(cfg, sh, Inside(ded, p), r.sh, r.pc)
  {
  }

  lemma LastWordsDuty(cfg: Config, me: nat, sh: Shared, ded: bool, p: Point, ch: Choice)
    requires p.Recovering? || p.KillRun?
    requires SharedOk(sh) && ThreadOk(sh, me, Inside(ded, p))
    requires StepLastWords(sh, ded, p, ch).To?
    ensures var r := StepLastWords(sh, ded, p, ch); Dutiful(cfg, sh, Inside(ded, p), r.sh, r.pc)
  {
  }

  lemma EndDuty(cfg: Config, me: nat, sh: Shared, ded: bool, p: Point, ch: Choice)
    requires p.Sub? || p.Failing? || p.Recovering? || p.KillSet? || p.KillRun? || p.KillDone? || p.Ret?
    requires SharedOk(sh) && ThreadOk(sh, me, Inside(ded, p))
    requires StepEnd(sh, ded, p, ch).To?
    ensures var r := StepEnd(sh, ded, p, ch); Dutiful(cfg, sh, Inside(ded, p), r.sh, r.pc)
  {
    if p.Recovering? || p.KillRun? {
      LastWordsDuty(cfg, me, sh, ded, p, ch);
    }
  }

  /** Local work conservation, for every step of every thread. */
  lemma StepBalance(cfg: Config, me: nat, sh: Shared, pc: Pc, ch: Choice)
    requires Step(cfg, me, sh, pc, ch).To?
    ensures var r := Step(cfg, me, sh, pc, ch);
            Balanced(sh, pc, r.sh, r.pc) && r.sh.gone == Plus(sh.gone, GoneBy(cfg, sh, pc, ch))
  {
    StepEffect(cfg, me, sh, pc, ch);
    if pc.EnqStart? || pc.EnqPush? || pc.EnqSchedule? {
      EnqueuerBalance(cfg, sh, pc);
    } else if !pc.Inside? {
      OutsideBalance(cfg, me, sh, pc, ch);
    } else {
      var ded, p := pc.ded, pc.at;
      if p.Ctrl? || p.CtrlSet? || p.CtrlDone? || p.CheckActive? {
        ControlBalance(sh, ded, p);
      } else if p.CtrlRun? || p.Run? {
        HandlerBalance(sh, ded, p, ch);
      } else if p.Timers? || p.Messages? || p.Ports? || p.MoreMessages? {
        LoopsBalance(cfg, sh, ded, p, ch);
      } else if p.Gate? || p.Take? || p.Polling? || p.Applying? || p.Arm? {
        PollBalance(sh, ded, p, ch);
      } else if p.Polled? || p.AfterSub? {
        ConcludeBalance(sh, ded, p);
      } else {
        EndBalance(sh, ded, p, ch);
      }
    }
  }

  /** The mutex and blocking discipline, for every step of every thread. */
  lemma StepStructure(cfg: Config, me: nat, sh: Shared, pc: Pc, ch: Choice)
    requires SharedOk(sh) && ThreadOk(sh, me, pc)
    requires Step(cfg, me, sh, pc, ch).To?
    ensures var r := Step(cfg, me, sh, pc, ch); Structured(me, sh, pc, r.sh, r.pc)
  {
    if pc.EnqStart? || pc.EnqPush? || pc.EnqSchedule? {
      EnqueuerStructure(cfg, me, sh, pc);
    } else if !pc.Inside? {
      OutsideStructure(cfg, me, sh, pc, ch);
    } else {
      var ded, p := pc.ded, pc.at;
      if p.Ctrl? || p.CtrlSet? || p.CtrlDone? || p.CheckActive? {
        ControlStructure(me, sh, ded, p);
      } else if p.CtrlRun? || p.Run? {
        HandlerStructure(me, sh, ded, p, ch);
      } else if p.Timers? || p.Messages? || p.Ports? || p.MoreMessages? {
        LoopsStructure(cfg, me, sh, ded, p, ch);
      } else if p.Gate? || p.Take? || p.Polling? || p.Applying? || p.Arm? {
        PollStructure(me, sh, ded, p, ch);
      } else if p.Polled? || p.AfterSub? {
        ConcludeStructure(me, sh, ded, p);
      } else {
        EndStructure(me, sh, ded, p, ch);
      }
    }
  }

  /** The wake-up duty, for every step of every thread. */
  lemma StepDuty(cfg: Config, me: nat, sh: Shared, pc: Pc, ch: Choice)
    requires SharedOk(sh) && ThreadOk(sh, me, pc)
    requires Step(cfg, me, sh, pc, ch).To?
    ensures var r := Step(cfg, me, sh, pc, ch); Dutiful(cfg, sh, pc, r.sh, r.pc)
  {
    if pc.EnqStart? || pc.EnqPush? || pc.EnqSchedule? {
      EnqueuerDuty(cfg, me, sh, pc);
    } else if !pc.Inside? {
      OutsideDuty(cfg, me, sh, pc, ch);
    } else {
      var ded, p := pc.ded, pc.at;
      if p.Ctrl? || p.CtrlSet? || p.CtrlDone? || p.CheckActive? {
        ControlDuty(cfg, me, sh, ded, p);
      } else if p.CtrlRun? || p.Run? {
        HandlerDuty(cfg, me, sh, ded, p, ch);
      } else if p.Timers? || p.Messages? || p.Ports? || p.MoreMessages? {
        LoopsDuty(cfg, me, sh, ded, p, ch);
      } else if p.Gate? || p.Take? || p.Polling? || p.Applying? || p.Arm? {
        PollDuty(cfg, me, sh, ded, p, ch);
      } else if p.Polled? || p.AfterSub? {
        ConcludeDuty(cfg, me, sh, ded, p);
      } else {
        EndDuty(cfg, me, sh, ded, p, ch);
      }
    }
  }

  // --- What a step can and cannot do, by its program point and choice ---

  /** Handlers and futures that neither fail nor ask for shutdown. */
  predicate CalmChoice(ch: Choice) {
    && (ch.Outcome? ==> ch.result == Handled || ch.result == BlockOn || ch.result == Benign)
    && (ch.PollReady? ==> ch.result == Handled || ch.result == BlockOn || ch.result == Benign)
  }

  predicate CalmEnd(end: PollEnd) { end == Pending || end == Completed }

  /** A thread that is not about to end an execution by fault or shutdown. */
  predicate CalmPc(pc: Pc) {
    && !pc.Panicked?
    && (pc.Inside? ==> !pc.at.Failing? && !pc.at.Recovering? && !pc.at.KillSet? && !pc.at.KillRun? && !pc.at.KillDone?)
    && (pc.Inside? && pc.at.Polled? ==> CalmEnd(pc.at.end))
    && (pc.Inside? && pc.at.AfterSub? ==> CalmEnd(pc.at.end))
  }

  predicate StaysCalm(sh: Shared, pc: Pc, ch: Choice, sh': Shared, pc': Pc) {
    CalmPc(pc) && CalmChoice(ch) && !sh.core.poisoned ==>
      CalmPc(pc') && sh'.gone.lost == sh.gone.lost && !sh'.core.poisoned
  }

  /** A poll that finds its future finished, with a result that applies the recorded transition. */
  predicate Completes(pc: Pc, ch: Choice) {
    && pc.Inside? && pc.at.Polling? && ch.PollReady?
    && (ch.result == Handled || ch.result == Benign || (ch.result == Shutdown && pc.at.t == ToDestroyed))
  }

  /** A poll that ends its future otherwise: by a fault, a panic, or a request to shut down. */
  predicate Abandons(pc: Pc, ch: Choice) {
    pc.Inside? && pc.at.Polling? && ch.PollReady? && ch.result != BlockOn && !Completes(pc, ch)
  }

  predicate IsApplying(pc: Pc) { pc.Inside? && pc.at.Applying? }

  /** A handler that returns BlockOn, and the transition its future will apply. */
  predicate Blocks(pc: Pc, ch: Choice) {
    pc.Inside? && (pc.at.Run? || pc.at.CtrlRun?) && ch.Outcome? && ch.result == BlockOn
  }

  function BlockingTransition(p: Point): Transition {
    if p.CtrlRun? then TransitionFor(p.event) else ToActive
  }

  /** Exactly how a step extends the history of blocking futures. */
  predicate Records(sh: Shared, pc: Pc, ch: Choice, sh': Shared, pc': Pc) {
    var h, h' := sh.core.history, sh'.core.history;
    if Completes(pc, ch) then h' == h && pc' == Inside(pc.ded, Applying(pc.at.t, pc.at.mode))
    else if IsApplying(pc) then
      h' == h + [Applied(pc.at.t)] && sh'.word.flag == FlagOf(pc.at.t) && pc' == Inside(pc.ded, Polled(pc.at.mode, Completed))
    else if Abandons(pc, ch) then h' == h + [Abandoned(pc.at.t)] && !IsApplying(pc')
    else if Blocks(pc, ch) then h' == h + [Stored(BlockingTransition(pc.at))] && !IsApplying(pc')
    else h' == h && !IsApplying(pc')
  }

  predicate PopsOnlyInLoops(sh: Shared, pc: Pc, sh': Shared) {
    && (|sh'.q.ctrl| < |sh.q.ctrl| ==> pc.Inside? && pc.at.Ctrl?)
    && (|sh'.q.timeouts| < |sh.q.timeouts| || sh'.q.messages < sh.q.messages || sh'.q.ports < sh.q.ports ==>
          pc.Inside? && (pc.at.Timers? || pc.at.Messages? || pc.at.Ports? || pc.at.MoreMessages?))
  }

  ghost predicate Traced(sh: Shared, pc: Pc, ch: Choice, sh': Shared, pc': Pc) {
    StaysCalm(sh, pc, ch, sh', pc') && Records(sh, pc, ch, sh', pc') && PopsOnlyInLoops(sh, pc, sh')
  }

  // --- Exact effects, from any state ---

  /** What a step does to the lifecycle word and to the work that is gone, by its program point. */
  predicate Effected(cfg: Config, sh: Shared, pc: Pc, ch: Choice, sh': Shared) {
    Operated(sh.word, OpsAt(pc), sh'.word) && sh'.gone == Plus(sh.gone, GoneBy(cfg, sh, pc, ch))
  }

  lemma EnqueuerEffect(cfg: Config, sh: Shared, pc: Pc, ch: Choice)
    requires pc.EnqStart? || pc.EnqPush? || pc.EnqSchedule?
    requires StepEnqueuer(cfg, sh, pc).To?
    ensures Effected(cfg, sh, pc, ch, StepEnqueuer(cfg, sh, pc).sh)
  {
  }

  lemma OutsideEffect(cfg: Config, me: nat, sh: Shared, pc: Pc, ch: Choice)
    requires !pc.Inside? && !pc.EnqStart? && !pc.EnqPush? && !pc.EnqSchedule?
    requires StepOutside(cfg, me, sh, pc, ch).To?
    ensures Effected(cfg, sh, pc, ch, StepOutside(cfg, me, sh, pc, ch).sh)
  {
  }

  lemma PollEffect(cfg: Config, sh: Shared, ded: bool, p: Point, ch: Choice)
    requires p.Gate? || p.Take? || p.Polling? || p.Applying? || p.Arm?
    requires StepPoll(sh, ded, p, ch).To?
    ensures Effected(cfg, sh, Inside(ded, p), ch, StepPoll(sh, ded, p, ch).sh)
  {
  }

  lemma ConcludeEffect(cfg: Config, sh: Shared, ded: bool, p: Point, ch: Choice)
    requires p.Polled? || p.AfterSub?
    requires StepConclude(sh, ded, p).To?
    ensures Effected(cfg, sh, Inside(ded, p), ch, StepConclude(sh, ded, p).sh)
  {
  }

  lemma ControlEffect(cfg: Config, sh: Shared, ded: bool, p: Point, ch: Choice)
    requires p.Ctrl? || p.CtrlSet? || p.CtrlDone? || p.CheckActive?
    requires StepControl(sh, ded, p).To?
    ensures Effected(cfg, sh, Inside(ded, p), ch, StepControl(sh, ded, p).sh)
  {
  }

  lemma LoopsEffect(cfg: Config, sh: Shared, ded: bool, p: Point, ch: Choice)
    requires p.Timers? || p.Messages? || p.Ports? || p.MoreMessages?
    requires StepLoops(cfg, sh, ded, p, ch).To?
    ensures Effected(cfg, sh, Inside(ded, p), ch, StepLoops(cfg, sh, ded, p, ch).sh)
  {
  }

  lemma HandlerEffect(cfg: Config, sh: Shared, ded: bool, p: Point, ch: Choice)
    requires p.CtrlRun? || p.Run?
    requires StepHandler(sh, ded, p, ch).To?
    ensures Effected(cfg, sh, Inside(ded, p), ch, StepHandler(sh, ded, p, ch).sh)
  {
  }

  lemma LastWordsEffect(cfg: Config, sh: Shared, ded: bool, p: Point, ch: Choice)
    requires p.Recovering? || p.KillRun?
    requires StepLastWords(sh, ded, p, ch).To?
    ensures Effected(cfg, sh, Inside(ded, p), ch, StepLastWords(sh, ded, p, ch).sh)
  {
  }

  lemma EndEffect(cfg: Config, sh: Shared, ded: bool, p: Point, ch: Choice)
    requires p.Sub? || p.Failing? || p.Recovering? || p.KillSet? || p.KillRun? || p.KillDone? || p.Ret?
    requires StepEnd(sh, ded, p, ch).To?
    ensures Effected(cfg, sh, Inside(ded, p), ch, StepEnd(sh, ded, p, ch).sh)
  {
    if p.Recovering? || p.KillRun? {
      LastWordsEffect(cfg, sh, ded, p, ch);
    }
  }

  /** The exact effect on the word and on the gone work, for every step of every thread. */
  lemma StepEffect(cfg: Config, me: nat, sh: Shared, pc: Pc, ch: Choice)
    requires Step(cfg, me, sh, pc, ch).To?
    ensures Effected(cfg, sh, pc, ch, Step(cfg, me, sh, pc, ch).sh)
  {
    if pc.EnqStart? || pc.EnqPush? || pc.EnqSchedule? {
      EnqueuerEffect(cfg, sh, pc, ch);
    } else if !pc.Inside? {
      OutsideEffect(cfg, me, sh, pc, ch);
    } else {
      var ded, p := pc.ded, pc.at;
      if p.Ctrl? || p.CtrlSet? || p.CtrlDone? || p.CheckActive? {
        ControlEffect(cfg, sh, ded, p, ch);
      } else if p.CtrlRun? || p.Run? {
        HandlerEffect(cfg, sh, ded, p, ch);
      } else if p.Timers? || p.Messages? || p.Ports? || p.MoreMessages? {
        LoopsEffect(cfg, sh, ded, p, ch);
      } else if p.Gate? || p.Take? || p.Polling? || p.Applying? || p.Arm? {
        PollEffect(cfg, sh, ded, p, ch);
      } else if p.Polled? || p.AfterSub? {
        ConcludeEffect(cfg, sh, ded, p, ch);
      } else {
        EndEffect(cfg, sh, ded, p, ch);
      }
    }
  }

  /** A step aborts only when an enqueuer finds the count full or an executor subtracts more than the count holds. */
  lemma StepAborts(cfg: Config, me: nat, sh: Shared, pc: Pc, ch: Choice)
    requires Step(cfg, me, sh, pc, ch).Abort?
    ensures if Step(cfg, me, sh, pc, ch).reason == Overflow then pc.EnqStart? && sh.word.count >= MAX_COUNT
            else pc.Inside? && Popped(pc.at) > sh.word.count
  {
    if pc.Inside? {
      InsideAborts(cfg, sh, pc.ded, pc.at, ch);
    }
  }

  lemma HandlerNeverAborts(sh: Shared, ded: bool, p: Point, ch: Choice)
    requires p.CtrlRun? || p.Run?
    ensures !StepHandler(sh, ded, p, ch).Abort?
  {
  }

  lemma InsideAborts(cfg: Config, sh: Shared, ded: bool, p: Point, ch: Choice)
    requires StepInside(cfg, sh, ded, p, ch).Abort?
    ensures StepInside(cfg, sh, ded, p, ch).reason == Underflow && Popped(p) > sh.word.count
  {
    if p.CtrlRun? || p.Run? {
      HandlerNeverAborts(sh, ded, p, ch);
    }
  }

  // --- Who may store, apply, pop or lose ---

  lemma EnqueuerTrace(cfg: Config, me: nat, sh: Shared, pc: Pc, ch: Choice)
    requires pc.EnqStart? || pc.EnqPush? || pc.EnqSchedule?
    requires SharedOk(sh) && ThreadOk(sh, me, pc)
    requires StepEnqueuer(cfg, sh, pc).To?
    ensures var r := StepEnqueuer(cfg, sh, pc); Traced(sh, pc, ch, r.sh, r.pc)
  {
  }

  lemma OutsideTrace(cfg: Config, me: nat, sh: Shared, pc: Pc, ch: Choice)
    requires !pc.Inside? && !pc.EnqStart? && !pc.EnqPush? && !pc.EnqSchedule?
    requires SharedOk(sh) && ThreadOk(sh, me, pc)
    requires StepOutside(cfg, me, sh, pc, ch).To?
    ensures var r := StepOutside(cfg, me, sh, pc, ch); Traced(sh, pc, ch, r.sh, r.pc)
  {
  }

  lemma PollTrace(me: nat, sh: Shared, ded: bool, p: Point, ch: Choice)
    requires p.Gate? || p.Take? || p.Polling? || p.Applying? || p.Arm?
    requires SharedOk(sh) && ThreadOk(sh, me, Inside(ded, p))
    requires StepPoll(sh, ded, p, ch).To?
    ensures var r := StepPoll(sh, ded, p, ch); Traced(sh, Inside(ded, p), ch, r.sh, r.pc)
  {
  }

  lemma ConcludeTrace(me: nat, sh: Shared, ded: bool, p: Point, ch: Choice)
    requires p.Polled? || p.AfterSub?
    requires SharedOk(sh) && ThreadOk(sh, me, Inside(ded, p))
    requires StepConclude(sh, ded, p).To?
    ensures var r := StepConclude(sh, ded, p); Traced(sh, Inside(ded, p), ch, r.sh, r.pc)
  {
  }

  lemma ControlTrace(me: nat, sh: Shared, ded: bool, p: Point, ch: Choice)
    requires p.Ctrl? || p.CtrlSet? || p.CtrlDone? || p.CheckActive?
    requires SharedOk(sh) && ThreadOk(sh, me, Inside(ded, p))
    requires StepControl(sh, ded, p).To?
    ensures var r := StepControl(sh, ded, p); Traced(sh, Inside(ded, p), ch, r.sh, r.pc)
  {
  }

  lemma LoopsTrace(cfg: Config, me: nat, sh: Shared, ded: bool, p: Point, ch: Choice)
    requires p.Timers? || p.Messages? || p.Ports? || p.MoreMessages?
    requires SharedOk(sh) && ThreadOk(sh, me, Inside(ded, p))
    requires StepLoops(cfg, sh, ded, p, ch).To?
    ensures var r := StepLoops(cfg, sh, ded, p, ch); Traced(sh, Inside(ded, p), ch, r.sh, r.pc)
  {
  }

  lemma HandlerTrace(me: nat, sh: Shared, ded: bool, p: Point, ch: Choice)
    requires p.CtrlRun? || p.Run?
    requires SharedOk(sh) && ThreadOk(sh, me, Inside(ded, p))
    requires StepHandler(sh, ded, p, ch).To?
    ensures var r := StepHandler(sh, ded, p, ch); Traced(sh, Inside(ded, p), ch, r.sh, r.pc)
  {
  }

  lemma LastWordsTrace(me: nat, sh: Shared, ded: bool, p: Point, ch: Choice)
    requires p.Recovering? || p.KillRun?
    requires SharedOk(sh) && ThreadOk(sh, me, Inside(ded, p))
    requires StepLastWords(sh, ded, p, ch).To?
    ensures var r := StepLastWords(sh, ded, p, ch); Traced(sh, Inside(ded, p), ch, r.sh, r.pc)
  {
  }

  lemma EndTrace(me: nat, sh: Shared, ded: bool, p: Point, ch: Choice)
    requires p.Sub? || p.Failing? || p.Recovering? || p.KillSet? || p.KillRun? || p.KillDone? || p.Ret?
    requires SharedOk(sh) && ThreadOk(sh, me, Inside(ded, p))
    requires StepEnd(sh, ded, p, ch).To?
    ensures var r := StepEnd(sh, ded, p, ch); Traced(sh, Inside(ded, p), ch, r.sh, r.pc)
  {
    if p.Recovering? || p.KillRun? {
      LastWordsTrace(me, sh, ded, p, ch);
    }
  }

  /** Who may store, apply, pop or lose, for every step of every thread. */
  lemma StepTrace(cfg: Config, me: nat, sh: Shared, pc: Pc, ch: Choice)
    requires SharedOk(sh) && ThreadOk(sh, me, pc)
    requires Step(cfg, me, sh, pc, ch).To?
    ensures var r := Step(cfg, me, sh, pc, ch); Traced(sh, pc, ch, r.sh, r.pc) && Effected(cfg, sh, pc, ch, r.sh)
  {
    StepEffect(cfg, me, sh, pc, ch);
    if pc.EnqStart? || pc.EnqPush? || pc.EnqSchedule? {
      EnqueuerTrace(cfg, me, sh, pc, ch);
    } else if !pc.Inside? {
      OutsideTrace(cfg, me, sh, pc, ch);
    } else {
      var ded, p := pc.ded, pc.at;
      if p.Ctrl? || p.CtrlSet? || p.CtrlDone? || p.CheckActive? {
        ControlTrace(me, sh, ded, p, ch);
      } else if p.CtrlRun? || p.Run? {
        HandlerTrace(me, sh, ded, p, ch);
      } else if p.Timers? || p.Messages? || p.Ports? || p.MoreMessages? {
        LoopsTrace(cfg, me, sh, ded, p, ch);
      } else if p.Gate? || p.Take? || p.Polling? || p.Applying? || p.Arm? {
        PollTrace(me, sh, ded, p, ch);
      } else if p.Polled? || p.AfterSub? {
        ConcludeTrace(me, sh, ded, p, ch);
      } else {
        EndTrace(me, sh, ded, p, ch);
      }
    }
  }
}
