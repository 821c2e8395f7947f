/** Safety of every run of the component protocol. */
module ComponentTheorems {
  import opened Options
  import opened Lifecycle
  import opened ComponentProtocol
  import opened ComponentInvariants
  import PackedWord

  // --- The invariant of the whole system ---

  ghost predicate Structure(s: State) {
    && SharedOk(s.sh)
    && Bracketed(s.sh.core.history)
    && (s.sh.core.lock.Some? ==> s.sh.core.lock.value < |s.threads|)
    && (forall i :: 0 <= i < |s.threads| ==> ThreadOk(s.sh, i, s.threads[i]))
    && (s.sh.core.poisoned ==> s.sh.word.flag == Faulty || Sum(Unwinding, s.threads) > 0)
  }

  /** Only thread 0 of a component with a dedicated scheduler runs the dedicated loop. */
  ghost predicate DedicatedOk(s: State) {
    && (s.cfg.dedicated ==> |s.threads| > 0)
    && (!s.cfg.dedicated ==> !s.sh.sched.unpark)
    && (forall i :: 0 <= i < |s.threads| && OnDedicated(s.threads[i]) ==> i == 0 && s.cfg.dedicated)
  }

  ghost predicate Wakeful(s: State) {
    Demands(s.sh) ==>
      s.sh.sched.tasks > 0 || s.sh.sched.unpark || Sum(Tokens, s.threads) > 0 || Sum(Exits, s.threads) > 0
  }

  ghost predicate OneToken(s: State) {
    !s.cfg.dedicated && s.sh.core.history == [] ==> Single(s.sh, s.sh.sched.tasks + Sum(Tokens, s.threads))
  }

  ghost predicate Inv(s: State) {
    Structure(s) && Conserved(s) && DedicatedOk(s) && Wakeful(s) && OneToken(s)
  }

  // --- Preservation by a step of one thread ---

  lemma ThreadKeepsStructure(s: State, i: nat, ch: Choice)
    requires Structure(s) && i < |s.threads| && Step(s.cfg, i, s.sh, s.threads[i], ch).To?
    ensures Structure(SystemStep(s, Thread(i, ch)).s)
  {
    var r := Step(s.cfg, i, s.sh, s.threads[i], ch);
    StepStructure(s.cfg, i, s.sh, s.threads[i], ch);
    var s' := SystemStep(s, Thread(i, ch)).s;
    assert Bracketed(s'.sh.core.history);
    forall j | 0 <= j < |s'.threads|
      ensures ThreadOk(s'.sh, j, s'.threads[j])
    {
      assert ThreadOk(s.sh, j, s.threads[j]);
    }
    SumUpdate(Unwinding, s.threads, i, r.pc);
    SumAtLeast(Unwinding, s'.threads, i);
  }

  lemma ThreadKeepsCount(s: State, i: nat, ch: Choice)
    requires Conserved(s) && i < |s.threads| && Step(s.cfg, i, s.sh, s.threads[i], ch).To?
    ensures Conserved(SystemStep(s, Thread(i, ch)).s)
  {
    var r := Step(s.cfg, i, s.sh, s.threads[i], ch);
    StepBalance(s.cfg, i, s.sh, s.threads[i], ch);
    SumUpdate(Announced, s.threads, i, r.pc);
    SumUpdate(InFlight, s.threads, i, r.pc);
  }

  lemma ThreadKeepsWakeful(s: State, i: nat, ch: Choice)
    requires Structure(s) && Wakeful(s) && i < |s.threads| && Step(s.cfg, i, s.sh, s.threads[i], ch).To?
    ensures Wakeful(SystemStep(s, Thread(i, ch)).s)
  {
    var pc := s.threads[i];
    var r := Step(s.cfg, i, s.sh, pc, ch);
    assert ThreadOk(s.sh, i, pc);
    StepDuty(s.cfg, i, s.sh, pc, ch);
    StepStructure(s.cfg, i, s.sh, pc, ch);
    var ts' := s.threads[i := r.pc];
    SumUpdate(Tokens, s.threads, i, r.pc);
    SumUpdate(Exits, s.threads, i, r.pc);
    SumAtLeast(Tokens, ts', i);
    SumAtLeast(Exits, ts', i);
  }

  lemma ThreadKeepsDedicated(s: State, i: nat, ch: Choice)
    requires Structure(s) && DedicatedOk(s) && i < |s.threads| && Step(s.cfg, i, s.sh, s.threads[i], ch).To?
    ensures DedicatedOk(SystemStep(s, Thread(i, ch)).s)
  {
    assert ThreadOk(s.sh, i, s.threads[i]);
    StepDuty(s.cfg, i, s.sh, s.threads[i], ch);
    StepStructure(s.cfg, i, s.sh, s.threads[i], ch);
  }

  lemma ThreadKeepsOneToken(s: State, i: nat, ch: Choice)
    requires Inv(s) && i < |s.threads| && Step(s.cfg, i, s.sh, s.threads[i], ch).To?
    ensures OneToken(SystemStep(s, Thread(i, ch)).s)
  {
    var pc := s.threads[i];
    var r := Step(s.cfg, i, s.sh, pc, ch);
    assert ThreadOk(s.sh, i, pc);
    StepDuty(s.cfg, i, s.sh, pc, ch);
    StepStructure(s.cfg, i, s.sh, pc, ch);
    SumUpdate(Tokens, s.threads, i, r.pc);
    SumAtLeast(Tokens, s.threads, i);
    SumAtLeast(InFlight, s.threads, i);
    if !s.cfg.dedicated && r.sh.core.history == [] {
      var t := s.sh.sched.tasks + Sum(Tokens, s.threads);
      assert Single(s.sh, t);
      assert !OnDedicated(pc);
    }
  }

  lemma ThreadKeepsInv(s: State, i: nat, ch: Choice)
    requires Inv(s) && i < |s.threads| && Step(s.cfg, i, s.sh, s.threads[i], ch).To?
    ensures Inv(SystemStep(s, Thread(i, ch)).s)
  {
    ThreadKeepsStructure(s, i, ch);
    ThreadKeepsCount(s, i, ch);
    ThreadKeepsWakeful(s, i, ch);
    ThreadKeepsDedicated(s, i, ch);
    ThreadKeepsOneToken(s, i, ch);
  }

  /** The abort of `decrement_work` is unreachable: what a thread popped is still in the count. */
  lemma ThreadNeverUnderflows(s: State, i: nat, ch: Choice)
    requires Conserved(s) && i < |s.threads|
    ensures var r := Step(s.cfg, i, s.sh, s.threads[i], ch);
            r.Abort? ==> r.reason == Overflow && s.threads[i].EnqStart? && s.sh.word.count >= MAX_COUNT
  {
    SumAtLeast(InFlight, s.threads, i);
    if Step(s.cfg, i, s.sh, s.threads[i], ch).Abort? {
      StepAborts(s.cfg, i, s.sh, s.threads[i], ch);
    }
  }

  // --- Preservation by the environment ---

  lemma SpawnKeepsInv(s: State, sh': Shared, pc: Pc)
    requires Inv(s)
    requires pc.EnqStart? || pc == Entry(false)
    requires sh' == s.sh || (s.sh.sched.tasks > 0 && sh' == s.sh.(sched := s.sh.sched.(tasks := s.sh.sched.tasks - 1)))
    requires pc.EnqStart? <==> sh' == s.sh
    ensures Inv(State(s.cfg, sh', s.threads + [pc]))
  {
    var s' := State(s.cfg, sh', s.threads + [pc]);
    SumAppend(Announced, s.threads, pc);
    SumAppend(InFlight, s.threads, pc);
    SumAppend(Tokens, s.threads, pc);
    SumAppend(Unwinding, s.threads, pc);
    SumAppend(Exits, s.threads, pc);
    forall j | 0 <= j < |s'.threads|
      ensures ThreadOk(s'.sh, j, s'.threads[j])
    {
      if j < |s.threads| {
        assert s'.threads[j] == s.threads[j];
      }
    }
  }

  lemma EnvironmentKeepsInv(s: State, sched: Sched)
    requires Inv(s)
    requires sched.tasks == s.sh.sched.tasks || (s.sh.core.polled && sched.tasks == s.sh.sched.tasks + 1)
    requires sched.unpark == s.sh.sched.unpark || (sched.unpark && s.cfg.dedicated)
    ensures Inv(s.(sh := s.sh.(sched := sched)))
  {
    var s' := s.(sh := s.sh.(sched := sched));
    forall j | 0 <= j < |s'.threads|
      ensures ThreadOk(s'.sh, j, s'.threads[j])
    {
      assert ThreadOk(s.sh, j, s.threads[j]);
    }
  }

  /** A move keeps the invariant, or is the one abort that can happen. */
  ghost predicate KeepsInv(s: State, l: Label) {
    var r := SystemStep(s, l);
    (r.Next? ==> Inv(r.s)) && (r.Aborted? ==> r.why == Overflow && s.sh.word.count >= MAX_COUNT)
  }

  lemma RunTaskKeepsInv(s: State)
    requires Inv(s)
    ensures KeepsInv(s, RunTask)
  {
    if s.sh.sched.tasks > 0 {
      RunTaskSpawns(s);
      SpawnKeepsInv(s, OneTaskLess(s.sh), Entry(false));
    }
  }

  function OneTaskLess(sh: Shared): Shared
    requires sh.sched.tasks > 0
  {
    sh.(sched := sh.sched.(tasks := sh.sched.tasks - 1))
  }

  lemma RunTaskSpawns(s: State)
    requires s.sh.sched.tasks > 0
    ensures SystemStep(s, RunTask) == Next(State(s.cfg, OneTaskLess(s.sh), s.threads + [Entry(false)]))
  {
  }

  lemma WakeKeepsInv(s: State)
    requires Inv(s)
    ensures KeepsInv(s, Wake)
  {
    if s.sh.core.polled {
      WakeSchedules(s);
      EnvironmentKeepsInv(s, ScheduleComponent(s.cfg, s.sh).sched);
    }
  }

  lemma WakeSchedules(s: State)
    requires s.sh.core.polled
    ensures SystemStep(s, Wake) == Next(s.(sh := s.sh.(sched := ScheduleComponent(s.cfg, s.sh).sched)))
  {
  }

  lemma ThreadMoveKeepsInv(s: State, i: nat, ch: Choice)
    requires Inv(s)
    ensures KeepsInv(s, Thread(i, ch))
  {
    if i < |s.threads| {
      if Step(s.cfg, i, s.sh, s.threads[i], ch).To? {
        ThreadKeepsInv(s, i, ch);
      } else {
        ThreadNeverUnderflows(s, i, ch);
      }
    }
  }

  /** Every move of every thread and of the environment keeps the invariant, and no run underflows. */
  lemma SystemKeepsInv(s: State, l: Label)
    requires Inv(s)
    ensures var r := SystemStep(s, l);
            (r.Next? ==> Inv(r.s)) && (r.Aborted? ==> r.why == Overflow && s.sh.word.count >= MAX_COUNT)
  {
    assert KeepsInv(s, l) by {
      match l
      case Enqueue(item) => SpawnKeepsInv(s, s.sh, EnqStart(item));
      case RunTask => RunTaskKeepsInv(s);
      case Wake => WakeKeepsInv(s);
      case RequestStop => EnvironmentKeepsInv(s, s.sh.sched.(stop := true));
      case Thread(i, ch) => ThreadMoveKeepsInv(s, i, ch);
    }
  }

  lemma InitHasInv(cfg: Config)
    ensures Inv(Init(cfg))
  {
    var s := Init(cfg);
    InitSums(cfg, Announced);
    InitSums(cfg, InFlight);
    InitSums(cfg, Tokens);
    assert s.sh == InitShared() && !s.sh.core.poisoned && !Demands(s.sh);
    assert Structure(s) && Conserved(s) && DedicatedOk(s) && Wakeful(s) && OneToken(s);
  }

  lemma InitSums(cfg: Config, m: Metric)
    ensures Sum(m, Init(cfg).threads) == if cfg.dedicated then Weight(m, Entry(true)) else 0
  {
    if cfg.dedicated {
      assert Init(cfg).threads == [] + [Entry(true)];
      SumAppend(m, [], Entry(true));
    }
  }

  lemma {:induction false} RunsKeepInv(cfg: Config, ls: seq<Label>)
    ensures Exec(cfg, ls).Next? ==> Inv(Exec(cfg, ls).s)
  {
    if ls == [] {
      InitHasInv(cfg);
    } else {
      RunsKeepInv(cfg, ls[..|ls| - 1]);
      var before := Exec(cfg, ls[..|ls| - 1]);
      if before.Next? {
        SystemKeepsInv(before.s, ls[|ls| - 1]);
      }
    }
  }

  // --- Work conservation ---

  function Queued(q: Queues): nat {
    |q.ctrl| + |q.timeouts| + q.messages + q.ports
  }

  predicate CalmRun(ls: seq<Label>) {
    forall l :: l in ls && l.Thread? ==> CalmChoice(l.ch)
  }

  predicate Calm(s: State) {
    s.sh.gone.lost == 0 && !s.sh.core.poisoned && forall i :: 0 <= i < |s.threads| ==> CalmPc(s.threads[i])
  }

  lemma {:induction false} CalmRuns(cfg: Config, ls: seq<Label>)
    requires CalmRun(ls) && Exec(cfg, ls).Next?
    ensures Calm(Exec(cfg, ls).s)
  {
    if ls != [] {
      var us, l := ls[..|ls| - 1], ls[|ls| - 1];
      CalmRuns(cfg, us);
      RunsKeepInv(cfg, us);
      var s := Exec(cfg, us).s;
      assert l in ls;
      if l.Thread? {
        assert ThreadOk(s.sh, l.i, s.threads[l.i]);
        RunsKeepConfig(cfg, us);
        StepTrace(cfg, l.i, s.sh, s.threads[l.i], l.ch);
      }
    }
  }

  /**
   The work that the steps of a run put beyond subtraction: timeouts discarded because their handle
   was gone, and items that executions had popped when they ended by fault, shutdown or panic.
   */
  function Tally(cfg: Config, ls: seq<Label>): Gone {
    if ls == [] then Gone(0, 0)
    else
      var us, l := ls[..|ls| - 1], ls[|ls| - 1];
      var before := Exec(cfg, us);
      if before.Next? && l.Thread? && l.i < |before.s.threads|
      then Plus(Tally(cfg, us), GoneBy(cfg, before.s.sh, before.s.threads[l.i], l.ch))
      else Tally(cfg, us)
  }

  lemma {:induction false} GoneIsTally(cfg: Config, ls: seq<Label>)
    requires Exec(cfg, ls).Next?
    ensures Exec(cfg, ls).s.sh.gone == Tally(cfg, ls)
  {
    if ls != [] {
      var us, l := ls[..|ls| - 1], ls[|ls| - 1];
      var s := Exec(cfg, us).s;
      GoneIsTally(cfg, us);
      RunsKeepConfig(cfg, us);
      if l.Thread? {
        StepEffect(cfg, l.i, s.sh, s.threads[l.i], l.ch);
      }
    }
  }

  /**
   In every interleaving of any number of threads the count is exactly: queued, plus announced
   but not pushed, plus popped but not subtracted, plus stale timeouts discarded so far, plus what
   executions that faulted, shut down or panicked never subtracted; the last two are read off the
   steps of the run, and the last is zero in calm runs.
   */
  lemma WorkConservation(cfg: Config, ls: seq<Label>)
    requires Exec(cfg, ls).Next?
    ensures var s := Exec(cfg, ls).s;
            s.sh.word.count == Queued(s.sh.q) + Sum(Announced, s.threads) + Sum(InFlight, s.threads)
                               + Tally(cfg, ls).stale + Tally(cfg, ls).lost
    ensures CalmRun(ls) ==> Tally(cfg, ls).lost == 0
  {
    RunsKeepInv(cfg, ls);
    GoneIsTally(cfg, ls);
    if CalmRun(ls) {
      CalmRuns(cfg, ls);
    }
  }

  /** A run never reaches the underflow abort; it can only abort by announcing more than 2^61 - 1 items. */
  lemma {:induction false} NeverUnderflows(cfg: Config, ls: seq<Label>)
    ensures Exec(cfg, ls).Aborted? ==> Exec(cfg, ls).why == Overflow
  {
    if ls != [] {
      var us := ls[..|ls| - 1];
      NeverUnderflows(cfg, us);
      RunsKeepInv(cfg, us);
      if Exec(cfg, us).Next? {
        SystemKeepsInv(Exec(cfg, us).s, ls[|ls| - 1]);
      }
    }
  }

  // --- Wake-ups ---

  /**
   No lost wake-up: a schedulable component with a positive count has a pool task, a thread that
   will still look at the count, or a dedicated thread that was unparked or has left its loop.
   */
  lemma NoLostWakeup(cfg: Config, ls: seq<Label>)
    requires Exec(cfg, ls).Next? && Demands(Exec(cfg, ls).s.sh)
    ensures var s := Exec(cfg, ls).s;
            && (cfg.dedicated ==> |s.threads| > 0)
            && (|| s.sh.sched.tasks > 0
                || (exists i :: 0 <= i < |s.threads| && HoldsToken(s.threads[i]))
                || (cfg.dedicated && (s.sh.sched.unpark || s.threads[0].Exited?)))
  {
    RunsKeepInv(cfg, ls);
    RunsKeepConfig(cfg, ls);
    var s := Exec(cfg, ls).s;
    SumWitness(Tokens, s.threads);
    SumWitness(Exits, s.threads);
    if Sum(Tokens, s.threads) > 0 {
      var i :| 0 <= i < |s.threads| && Weight(Tokens, s.threads[i]) > 0;
      assert HoldsToken(s.threads[i]);
    } else if Sum(Exits, s.threads) > 0 {
      var i :| 0 <= i < |s.threads| && Weight(Exits, s.threads[i]) > 0;
      assert OnDedicated(s.threads[i]);
    }
  }

  lemma {:induction false} RunsKeepConfig(cfg: Config, ls: seq<Label>)
    requires Exec(cfg, ls).Next?
    ensures Exec(cfg, ls).s.cfg == cfg
  {
    if ls != [] {
      RunsKeepConfig(cfg, ls[..|ls| - 1]);
    }
  }

  predicate NeverBlocks(ls: seq<Label>) {
    forall l :: l in ls && l.Thread? && l.ch.Outcome? ==> l.ch.result != BlockOn
  }

  lemma {:induction false} NeverBlockingRuns(cfg: Config, ls: seq<Label>)
    requires NeverBlocks(ls) && Exec(cfg, ls).Next?
    ensures Exec(cfg, ls).s.sh.core.history == []
  {
    if ls != [] {
      var us, l := ls[..|ls| - 1], ls[|ls| - 1];
      NeverBlockingRuns(cfg, us);
      RunsKeepInv(cfg, us);
      var s := Exec(cfg, us).s;
      assert l in ls;
      if l.Thread? {
        assert ThreadOk(s.sh, l.i, s.threads[l.i]);
        RunsKeepConfig(cfg, us);
        StepTrace(cfg, l.i, s.sh, s.threads[l.i], l.ch);
      }
    }
  }

  /**
   On the pool, if no handler ever blocks, the scheduling tokens are exactly one while a
   schedulable component has work and none while it has not, and never more than one, so at most
   one thread is anywhere between being scheduled and subtracting.
   */
  lemma ExactlyOneToken(cfg: Config, ls: seq<Label>)
    requires !cfg.dedicated && NeverBlocks(ls) && Exec(cfg, ls).Next?
    ensures var s := Exec(cfg, ls).s;
            && s.sh.sched.tasks + Sum(Tokens, s.threads) <= 1
            && (Schedulable(s.sh.word.flag) ==>
                  s.sh.sched.tasks + Sum(Tokens, s.threads) == if s.sh.word.count > 0 then 1 else 0)
    ensures var s := Exec(cfg, ls).s;
            forall i, j :: 0 <= i < j < |s.threads| && HoldsToken(s.threads[i]) ==> !HoldsToken(s.threads[j])
  {
    RunsKeepInv(cfg, ls);
    RunsKeepConfig(cfg, ls);
    NeverBlockingRuns(cfg, ls);
    var s := Exec(cfg, ls).s;
    forall i, j | 0 <= i < j < |s.threads| && HoldsToken(s.threads[i])
      ensures !HoldsToken(s.threads[j])
    {
      if HoldsToken(s.threads[j]) {
        TwoHolders(s.threads, i, j);
      }
    }
  }

  lemma TwoHolders(ts: seq<Pc>, i: nat, j: nat)
    requires i < j < |ts| && HoldsToken(ts[i]) && HoldsToken(ts[j])
    ensures Sum(Tokens, ts) >= 2
  {
    SumUpdate(Tokens, ts, i, Finished);
    SumAtLeast(Tokens, ts[i := Finished], j);
  }

  // --- The dedicated scheduler ---

  /** No execution ends with AlreadyScheduled, so the panic of the dedicated loop is unreachable. */
  lemma DedicatedLoopNeverPanics(cfg: Config, ls: seq<Label>)
    requires Exec(cfg, ls).Next?
    ensures var s := Exec(cfg, ls).s;
            forall i :: 0 <= i < |s.threads| && s.threads[i].Returned? ==> s.threads[i].decision != AlreadyScheduled
  {
    RunsKeepInv(cfg, ls);
    var s := Exec(cfg, ls).s;
    forall i | 0 <= i < |s.threads| && s.threads[i].Returned?
      ensures s.threads[i].decision != AlreadyScheduled
    {
      assert ThreadOk(s.sh, i, s.threads[i]);
    }
  }

  /** A parked dedicated thread with work has a pending unpark, or a pool task or another thread holds a token. */
  lemma DedicatedNeverSleepsOnWork(cfg: Config, ls: seq<Label>)
    requires cfg.dedicated && Exec(cfg, ls).Next? && Demands(Exec(cfg, ls).s.sh)
    ensures |Exec(cfg, ls).s.threads| > 0
    ensures var s := Exec(cfg, ls).s;
            s.threads[0].Parked? && !s.sh.sched.unpark ==>
              s.sh.sched.tasks > 0 || exists i :: 0 < i < |s.threads| && HoldsToken(s.threads[i]) && !OnDedicated(s.threads[i])
  {
    RunsKeepInv(cfg, ls);
    RunsKeepConfig(cfg, ls);
    NoLostWakeup(cfg, ls);
    var s := Exec(cfg, ls).s;
    if s.threads[0].Parked? && !s.sh.sched.unpark && s.sh.sched.tasks == 0 {
      var i :| 0 <= i < |s.threads| && HoldsToken(s.threads[i]);
      assert i > 0 && !OnDedicated(s.threads[i]);
    }
  }

  // --- Blocking ---

  /**
   Mutual exclusion, and what user code may rely on: timer actions, messages and port events run
   only while the flag is Active, control handlers only under the flag their event has set, and
   neither while a blocking future is stored or open.
   */
  lemma HandlersRunUnblocked(cfg: Config, ls: seq<Label>, i: nat)
    requires Exec(cfg, ls).Next? && i < |Exec(cfg, ls).s.threads| && Exec(cfg, ls).s.threads[i].Inside?
    ensures var s := Exec(cfg, ls).s;
            && (forall j :: 0 <= j < |s.threads| && s.threads[j].Inside? ==> j == i)
            && (s.threads[i].at.Run? || s.threads[i].at.CtrlRun? ==>
                  s.sh.core.blocking.None? && Open(s.sh.core.history).None? && s.sh.word.flag != Blocking)
            && (s.threads[i].at.Run? ==> s.sh.word.flag == Active)
            && (s.threads[i].at.CtrlRun? ==> FlagFor(s.threads[i].at.event, s.sh.word.flag))
  {
    RunsKeepInv(cfg, ls);
    var s := Exec(cfg, ls).s;
    assert ThreadOk(s.sh, i, s.threads[i]);
    forall j | 0 <= j < |s.threads| && s.threads[j].Inside?
      ensures j == i
    {
      assert ThreadOk(s.sh, j, s.threads[j]);
    }
  }

  /** Only an unblocked component takes anything out of a queue, and only an active one anything but control events. */
  lemma PopsNeedUnblocked(cfg: Config, ls: seq<Label>, l: Label)
    requires Exec(cfg, ls).Next? && SystemStep(Exec(cfg, ls).s, l).Next?
    ensures var s, s' := Exec(cfg, ls).s, SystemStep(Exec(cfg, ls).s, l).s;
            && (|s'.sh.q.ctrl| < |s.sh.q.ctrl| ==> s.sh.core.blocking.None? && s.sh.word.flag != Blocking)
            && (|s'.sh.q.timeouts| < |s.sh.q.timeouts| || s'.sh.q.messages < s.sh.q.messages || s'.sh.q.ports < s.sh.q.ports ==>
                  s.sh.core.blocking.None? && s.sh.word.flag == Active)
  {
    RunsKeepInv(cfg, ls);
    var s := Exec(cfg, ls).s;
    if l.Thread? {
      assert ThreadOk(s.sh, l.i, s.threads[l.i]);
      StepTrace(s.cfg, l.i, s.sh, s.threads[l.i], l.ch);
    }
  }

  /**
   While the mutex is free: a blocking future is stored exactly when the flag is Blocking, unless a
   panic has poisoned the mutex under the flag Blocking, and then exactly not. That window lasts
   until the panicking thread sets the flag to Faulty.
   */
  lemma BlockingFlagIffFuture(cfg: Config, ls: seq<Label>)
    requires Exec(cfg, ls).Next? && Exec(cfg, ls).s.sh.core.lock.None?
    ensures var sh := Exec(cfg, ls).s.sh;
            (sh.core.blocking.Some? <==> sh.word.flag == Blocking) <==> !(sh.core.poisoned && sh.word.flag == Blocking)
    ensures var s := Exec(cfg, ls).s;
            s.sh.core.poisoned ==>
              s.sh.core.blocking.None? && (s.sh.word.flag == Faulty || exists i :: 0 <= i < |s.threads| && s.threads[i].Panicked?)
  {
    RunsKeepInv(cfg, ls);
    var s := Exec(cfg, ls).s;
    SumWitness(Unwinding, s.threads);
    if Sum(Unwinding, s.threads) > 0 {
      var i :| 0 <= i < |s.threads| && Weight(Unwinding, s.threads[i]) > 0;
      assert s.threads[i].Panicked?;
    }
  }

  lemma {:induction false} BracketedPairs(h: seq<BlockEvent>, k: nat)
    requires Bracketed(h) && k < |h|
    ensures !h[k].Stored? ==> k > 0 && h[k - 1] == Stored(h[k].t)
    ensures h[k].Stored? && k > 0 ==> !h[k - 1].Stored?
  {
    if k < |h| - 1 {
      BracketedPairs(h[..|h| - 1], k);
    }
  }

  /** The step that records `Applied(t)` leaves the flag of `t`, in the hands of the thread that polled. */
  lemma ApplyingSetsFlag(cfg: Config, ls: seq<Label>, i: nat, ch: Choice, t: Transition)
    requires Exec(cfg, ls).Next? && i < |Exec(cfg, ls).s.threads|
    requires Step(cfg, i, Exec(cfg, ls).s.sh, Exec(cfg, ls).s.threads[i], ch).To?
    requires Step(cfg, i, Exec(cfg, ls).s.sh, Exec(cfg, ls).s.threads[i], ch).sh.core.history
             == Exec(cfg, ls).s.sh.core.history + [Applied(t)]
    ensures var r := Step(cfg, i, Exec(cfg, ls).s.sh, Exec(cfg, ls).s.threads[i], ch);
            r.sh.word.flag == FlagOf(t) && r.sh.core.blocking.None? && r.pc.Inside? && r.pc.at.Polled?
    ensures Open(Exec(cfg, ls).s.sh.core.history) == Some(t) && Exec(cfg, ls).s.sh.word.flag == Blocking
  {
    RunsKeepInv(cfg, ls);
    var s := Exec(cfg, ls).s;
    var h := s.sh.core.history;
    assert ThreadOk(s.sh, i, s.threads[i]);
    assert (h + [Applied(t)])[|h|] == Applied(t);
    StepTrace(cfg, i, s.sh, s.threads[i], ch);
    StepStructure(cfg, i, s.sh, s.threads[i], ch);
  }

  // --- The lifecycle word ---

  /** The access to the lifecycle word that a label performs in state `s`. */
  function LabelOps(s: State, l: Label): (ops: seq<PackedWord.Op>)
    ensures |ops| <= 1
  {
    if l.Thread? && l.i < |s.threads| then OpsAt(s.threads[l.i]) else []
  }

  /** Every step is exactly the one operation of its program point, within its bounds, or leaves the word alone. */
  lemma StepIsOneWordOperation(s: State, l: Label)
    requires SystemStep(s, l).Next?
    ensures Operated(s.sh.word, LabelOps(s, l), SystemStep(s, l).s.sh.word)
  {
    if l.Thread? {
      StepEffect(s.cfg, l.i, s.sh, s.threads[l.i], l.ch);
    }
  }

  /** The steps that take a Destroyed component out of that state. */
  predicate Revives(pc: Pc) {
    || pc.Panicked?
    || (pc.Inside? && (pc.at.Arm? || (pc.at.CtrlSet? && (pc.at.event.Start? || pc.at.event.Stop?)) || (pc.at.Failing? && pc.at.flag == Faulty)))
  }

  /**
   Destroyed is left exactly by a thread that handles a start or stop event of the same drain, lets
   the kill handler block, reports a recoverable fault of it, or has panicked.
   */
  lemma DestroyedLeftIff(cfg: Config, ls: seq<Label>, l: Label)
    requires Exec(cfg, ls).Next? && SystemStep(Exec(cfg, ls).s, l).Next? && Exec(cfg, ls).s.sh.word.flag == Destroyed
    ensures SystemStep(Exec(cfg, ls).s, l).s.sh.word.flag != Destroyed <==>
            l.Thread? && Revives(Exec(cfg, ls).s.threads[l.i])
  {
    var s := Exec(cfg, ls).s;
    RunsKeepInv(cfg, ls);
    StepIsOneWordOperation(s, l);
    if l.Thread? {
      assert ThreadOk(s.sh, l.i, s.threads[l.i]);
    }
  }
}
