/** Blocking futures over whole runs: what becomes of each, and that a wake-up reaches it. */
module BlockingTheorems {
  import opened Options
  import opened Lifecycle
  import opened ComponentProtocol
  import opened ComponentInvariants
  import opened ComponentTheorems

  // --- Every completion is applied, exactly once ---

  function Count(h: seq<BlockEvent>, e: BlockEvent): nat {
    if h == [] then 0 else Count(h[..|h| - 1], e) + ToNat(h[|h| - 1] == e)
  }

  lemma CountAppend(h: seq<BlockEvent>, x: BlockEvent, e: BlockEvent)
    ensures Count(h + [x], e) == Count(h, e) + ToNat(x == e)
  {
    assert (h + [x])[..|h|] == h;
  }

  /**
   The step that obliges the component to the event: a handler returns BlockOn, a poll ends Ok,
   Benign, or with shutdown while being killed, or a poll ends in any other way.
   */
  predicate CallsFor(pc: Pc, ch: Choice, e: BlockEvent) {
    match e
    case Stored(t) => Blocks(pc, ch) && BlockingTransition(pc.at) == t
    case Applied(t) => Completes(pc, ch) && pc.at.t == t
    case Abandoned(t) => Abandons(pc, ch) && pc.at.t == t
  }

  /** How many steps of the run called for `e`. */
  function Calls(cfg: Config, ls: seq<Label>, e: BlockEvent): nat {
    if ls == [] then 0
    else
      var us, l := ls[..|ls| - 1], ls[|ls| - 1];
      var before := Exec(cfg, us);
      Calls(cfg, us, e)
      + ToNat(before.Next? && l.Thread? && l.i < |before.s.threads| && CallsFor(before.s.threads[l.i], l.ch, e))
  }

  /** What was called for and is not in the history yet: only a completion about to be applied. */
  function Due(s: State, e: BlockEvent): nat {
    if e.Applied? then Sum(AtApplying(e.t), s.threads) else 0
  }

  function DueHere(pc: Pc, e: BlockEvent): nat {
    if e.Applied? then Weight(AtApplying(e.t), pc) else 0
  }

  lemma RecordsTally(sh: Shared, pc: Pc, ch: Choice, sh': Shared, pc': Pc, e: BlockEvent)
    requires Records(sh, pc, ch, sh', pc')
    ensures Count(sh'.core.history, e) + DueHere(pc', e)
      == Count(sh.core.history, e) + DueHere(pc, e) + ToNat(CallsFor(pc, ch, e))
  {
    var h := sh.core.history;
    if IsApplying(pc) && !Completes(pc, ch) {
      CountAppend(h, Applied(pc.at.t), e);
    } else if Abandons(pc, ch) {
      CountAppend(h, Abandoned(pc.at.t), e);
    } else if Blocks(pc, ch) {
      CountAppend(h, Stored(BlockingTransition(pc.at)), e);
    }
  }

  lemma StepTallies(s: State, l: Label, e: BlockEvent)
    requires Inv(s) && SystemStep(s, l).Next?
    ensures var s' := SystemStep(s, l).s;
      Count(s'.sh.core.history, e) + Due(s', e)
      == Count(s.sh.core.history, e) + Due(s, e) + ToNat(l.Thread? && CallsFor(s.threads[l.i], l.ch, e))
  {
    match l
    case Enqueue(item) => SumAppend(AtApplying(e.t), s.threads, EnqStart(item));
    case RunTask => SumAppend(AtApplying(e.t), s.threads, Entry(false));
    case Thread(i, ch) =>
      var r := Step(s.cfg, i, s.sh, s.threads[i], ch);
      assert ThreadOk(s.sh, i, s.threads[i]);
      StepTrace(s.cfg, i, s.sh, s.threads[i], ch);
      RecordsTally(s.sh, s.threads[i], ch, r.sh, r.pc, e);
      SumUpdate(AtApplying(e.t), s.threads, i, r.pc);
    case _ =>
  }

  /**
   In every run and for every transition: the futures stored are the handlers that returned
   BlockOn, the transitions applied (or just being applied by the one thread in the mutex) are the
   polls that ended Ok, Benign, or with shutdown while being killed, and the transitions abandoned
   are the polls that ended otherwise. Polls that stay pending or replace the future count for nothing.
   */
  lemma {:induction false} CompletionsApplied(cfg: Config, ls: seq<Label>, e: BlockEvent)
    requires Exec(cfg, ls).Next?
    ensures Calls(cfg, ls, e) == Count(Exec(cfg, ls).s.sh.core.history, e) + Due(Exec(cfg, ls).s, e)
  {
    if ls == [] {
      InitSums(cfg, AtApplying(e.t));
    } else {
      var us, l := ls[..|ls| - 1], ls[|ls| - 1];
      CompletionsApplied(cfg, us, e);
      RunsKeepInv(cfg, us);
      StepTallies(Exec(cfg, us).s, l, e);
    }
  }

  /**
   Exactly once: every applied or abandoned transition is the one recorded when its future was
   stored, no future is stored before the previous one was applied or abandoned, and every poll that
   ended Ok, Benign, or with shutdown while being killed has its transition applied, or is about to,
   however often futures were polled or replaced before.
   */
  lemma TransitionAppliedOnce(cfg: Config, ls: seq<Label>, k: nat, t: Transition)
    requires Exec(cfg, ls).Next?
    ensures var h := Exec(cfg, ls).s.sh.core.history;
            k < |h| ==>
              && (!h[k].Stored? ==> k > 0 && h[k - 1] == Stored(h[k].t))
              && (h[k].Stored? && k > 0 ==> !h[k - 1].Stored?)
    ensures var s := Exec(cfg, ls).s;
            Calls(cfg, ls, Applied(t)) == Count(s.sh.core.history, Applied(t)) + Sum(AtApplying(t), s.threads)
  {
    RunsKeepInv(cfg, ls);
    var h := Exec(cfg, ls).s.sh.core.history;
    if k < |h| {
      BracketedPairs(h, k);
    }
    CompletionsApplied(cfg, ls, Applied(t));
  }

  lemma {:induction false} BracketsBalance(h: seq<BlockEvent>, t: Transition)
    requires Bracketed(h)
    ensures Count(h, Stored(t)) == Count(h, Applied(t)) + Count(h, Abandoned(t)) + ToNat(Open(h) == Some(t))
  {
    if h != [] {
      BracketsBalance(h[..|h| - 1], t);
    }
  }

  /**
   While the mutex is free: as many handlers returned BlockOn with transition `t` as polls ended its
   futures, one way or the other, plus the one still stored.
   */
  lemma EveryFutureEndsOnce(cfg: Config, ls: seq<Label>, t: Transition)
    requires Exec(cfg, ls).Next? && Exec(cfg, ls).s.sh.core.lock.None?
    ensures Calls(cfg, ls, Stored(t)) == Calls(cfg, ls, Applied(t)) + Calls(cfg, ls, Abandoned(t))
      + ToNat(Exec(cfg, ls).s.sh.core.blocking == Some(t))
    ensures Calls(cfg, ls, Applied(t)) == Count(Exec(cfg, ls).s.sh.core.history, Applied(t))
  {
    var s := Exec(cfg, ls).s;
    RunsKeepInv(cfg, ls);
    CompletionsApplied(cfg, ls, Stored(t));
    CompletionsApplied(cfg, ls, Applied(t));
    CompletionsApplied(cfg, ls, Abandoned(t));
    BracketsBalance(s.sh.core.history, t);
    forall i | 0 <= i < |s.threads|
      ensures Weight(AtApplying(t), s.threads[i]) == 0
    {
      assert ThreadOk(s.sh, i, s.threads[i]);
    }
    SumWitness(AtApplying(t), s.threads);
  }

  // --- Wake-ups of a blocked component ---

  /** A thread that will still poll the future, unless the component has no open future by then. */
  predicate Polls(pc: Pc) {
    pc.Entry? || pc.WaitLock? || (pc.Inside? && (pc.at.Gate? || pc.at.Take? || pc.at.Arm?))
  }

  predicate IsOpen(sh: Shared) { Open(sh.core.history).Some? }

  predicate TurnsAway(sh: Shared, pc: Pc) {
    pc.Entry? && (sh.word.flag == Destroyed || sh.word.flag == Faulty)
  }

  predicate IsTaking(pc: Pc) { pc.Inside? && pc.at.Take? }

  /** One step passes the duty to poll on. */
  predicate PassesPoll(sh: Shared, pc: Pc, sh': Shared, pc': Pc) {
    && (Polls(pc) && IsOpen(sh') && !IsTaking(pc) && !TurnsAway(sh, pc) ==> Polls(pc'))
    && (!IsOpen(sh) && IsOpen(sh') ==> Polls(pc'))
    && (sh'.sched.tasks >= sh.sched.tasks)
    && (sh.sched.unpark && !sh'.sched.unpark ==> Polls(pc'))
    && (pc.Exited? ==> pc'.Exited?)
  }

  lemma OutsidePolls(cfg: Config, me: nat, sh: Shared, pc: Pc, ch: Choice)
    requires SharedOk(sh) && ThreadOk(sh, me, pc) && !pc.Inside?
    requires Step(cfg, me, sh, pc, ch).To?
    ensures var r := Step(cfg, me, sh, pc, ch); PassesPoll(sh, pc, r.sh, r.pc)
  {
  }

  lemma InsideKeepsSched(cfg: Config, sh: Shared, ded: bool, p: Point, ch: Choice)
    requires StepInside(cfg, sh, ded, p, ch).To?
    ensures StepInside(cfg, sh, ded, p, ch).sh.sched == sh.sched
  {
  }

  lemma PollPolls(me: nat, sh: Shared, ded: bool, p: Point, ch: Choice)
    requires SharedOk(sh) && ThreadOk(sh, me, Inside(ded, p))
    requires p.Gate? || p.Arm?
    ensures StepPoll(sh, ded, p, ch).To?
    ensures var r := StepPoll(sh, ded, p, ch); IsOpen(r.sh) ==> Polls(r.pc)
  {
  }

  lemma HandlerPolls(me: nat, sh: Shared, ded: bool, p: Point, ch: Choice)
    requires SharedOk(sh) && ThreadOk(sh, me, Inside(ded, p)) && Blocks(Inside(ded, p), ch)
    ensures StepHandler(sh, ded, p, ch).To? && Polls(StepHandler(sh, ded, p, ch).pc)
  {
  }

  lemma StepPolls(cfg: Config, me: nat, sh: Shared, pc: Pc, ch: Choice)
    requires SharedOk(sh) && ThreadOk(sh, me, pc)
    requires Step(cfg, me, sh, pc, ch).To?
    ensures var r := Step(cfg, me, sh, pc, ch); PassesPoll(sh, pc, r.sh, r.pc)
  {
    if !pc.Inside? {
      OutsidePolls(cfg, me, sh, pc, ch);
    } else {
      InsideKeepsSched(cfg, sh, pc.ded, pc.at, ch);
      StepTrace(cfg, me, sh, pc, ch);
      if pc.at.Gate? || pc.at.Arm? {
        PollPolls(me, sh, pc.ded, pc.at, ch);
      } else if Blocks(pc, ch) {
        HandlerPolls(me, sh, pc.ded, pc.at, ch);
      }
    }
  }

  /** Something will still poll: a pool task, a thread on its way, or the dedicated thread once unparked. */
  ghost predicate WillPoll(s: State) {
    || s.sh.sched.tasks > 0
    || s.sh.sched.unpark
    || (exists i :: 0 <= i < |s.threads| && Polls(s.threads[i]))
    || (exists i :: 0 <= i < |s.threads| && s.threads[i].Exited?)
  }

  /** A waker fired since the future was last taken for polling. */
  predicate Woken(cfg: Config, ls: seq<Label>) {
    if ls == [] then false
    else
      var us, l := ls[..|ls| - 1], ls[|ls| - 1];
      var before := Exec(cfg, us);
      || l.Wake?
      || (Woken(cfg, us) && !(before.Next? && l.Thread? && l.i < |before.s.threads| && IsTaking(before.s.threads[l.i])))
  }

  /** A thread that is turned away at the entry of a component with an open future leaves the thread that stored it. */
  lemma TurnedAwayByArm(s: State, i: nat)
    requires Structure(s) && i < |s.threads| && TurnsAway(s.sh, s.threads[i]) && IsOpen(s.sh)
    ensures s.sh.core.lock.Some? && s.sh.core.lock.value < |s.threads| && s.sh.core.lock.value != i
    ensures Polls(s.threads[s.sh.core.lock.value])
  {
    var j := s.sh.core.lock.value;
    assert ThreadOk(s.sh, i, s.threads[i]);
    assert ThreadOk(s.sh, j, s.threads[j]);
  }

  lemma ThreadKeepsWillPoll(s: State, i: nat, ch: Choice)
    requires Inv(s) && i < |s.threads| && Step(s.cfg, i, s.sh, s.threads[i], ch).To?
    requires !IsTaking(s.threads[i]) && (IsOpen(s.sh) ==> WillPoll(s))
    ensures var s' := SystemStep(s, Thread(i, ch)).s; IsOpen(s'.sh) ==> WillPoll(s')
  {
    var pc := s.threads[i];
    var r := Step(s.cfg, i, s.sh, pc, ch);
    var s' := SystemStep(s, Thread(i, ch)).s;
    assert ThreadOk(s.sh, i, pc);
    StepPolls(s.cfg, i, s.sh, pc, ch);
    assert s'.threads[i] == r.pc;
    assert forall j :: 0 <= j < |s.threads| && j != i ==> s'.threads[j] == s.threads[j];
    if IsOpen(s.sh) && TurnsAway(s.sh, pc) {
      TurnedAwayByArm(s, i);
      var j := s.sh.core.lock.value;
      assert s'.threads[j] == s.threads[j];
    } else if IsOpen(s'.sh) && IsOpen(s.sh) && exists j :: 0 <= j < |s.threads| && Polls(s.threads[j]) {
      var j :| 0 <= j < |s.threads| && Polls(s.threads[j]);
      assert Polls(s'.threads[j]);
    } else if IsOpen(s'.sh) && IsOpen(s.sh) && exists j :: 0 <= j < |s.threads| && s.threads[j].Exited? {
      var j :| 0 <= j < |s.threads| && s.threads[j].Exited?;
      assert s'.threads[j].Exited?;
    }
  }

  lemma EnvironmentKeepsWillPoll(s: State, l: Label)
    requires !l.Thread? && SystemStep(s, l).Next?
    ensures var s' := SystemStep(s, l).s; l.Wake? || WillPoll(s) ==> WillPoll(s')
    ensures IsOpen(SystemStep(s, l).s.sh) == IsOpen(s.sh)
  {
    var s' := SystemStep(s, l).s;
    assert forall j :: 0 <= j < |s.threads| ==> s'.threads[j] == s.threads[j];
    if l.RunTask? {
      assert Polls(s'.threads[|s.threads|]);
    }
  }

  lemma {:induction false} WokenWillPoll(cfg: Config, ls: seq<Label>)
    requires Exec(cfg, ls).Next? && Woken(cfg, ls) && IsOpen(Exec(cfg, ls).s.sh)
    ensures WillPoll(Exec(cfg, ls).s)
  {
    var us, l := ls[..|ls| - 1], ls[|ls| - 1];
    var s := Exec(cfg, us).s;
    RunsKeepInv(cfg, us);
    if l.Thread? {
      if IsOpen(s.sh) {
        WokenWillPoll(cfg, us);
      }
      ThreadKeepsWillPoll(s, l.i, l.ch);
    } else {
      if !l.Wake? {
        EnvironmentKeepsWillPoll(s, l);
        WokenWillPoll(cfg, us);
      }
      EnvironmentKeepsWillPoll(s, l);
    }
  }

  /**
   No wake-up of a blocked component is lost: whenever a waker has fired since the stored future was
   last polled, there is a pool task, a thread that is on its way to poll it, or, with a dedicated
   thread, a pending unpark or its exit.
   */
  lemma BlockedWakeupNotLost(cfg: Config, ls: seq<Label>)
    requires Exec(cfg, ls).Next? && Woken(cfg, ls) && Exec(cfg, ls).s.sh.core.blocking.Some?
    ensures var s := Exec(cfg, ls).s;
            && (cfg.dedicated ==> |s.threads| > 0)
            && (|| s.sh.sched.tasks > 0
                || (exists i :: 0 <= i < |s.threads| && Polls(s.threads[i]))
                || (cfg.dedicated && (s.sh.sched.unpark || s.threads[0].Exited?)))
  {
    RunsKeepInv(cfg, ls);
    RunsKeepConfig(cfg, ls);
    var s := Exec(cfg, ls).s;
    StoredIsOpen(s);
    WokenWillPoll(cfg, ls);
    if exists i :: 0 <= i < |s.threads| && s.threads[i].Exited? {
      var i :| 0 <= i < |s.threads| && s.threads[i].Exited?;
      assert OnDedicated(s.threads[i]);
    }
  }

  lemma StoredIsOpen(s: State)
    requires Structure(s) && s.sh.core.blocking.Some?
    ensures IsOpen(s.sh)
  {
    if s.sh.core.lock.Some? {
      var j := s.sh.core.lock.value;
      assert ThreadOk(s.sh, j, s.threads[j]);
    }
  }
}
