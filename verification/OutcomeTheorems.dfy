/** The flag in which a blocking future or a failing handler leaves the component. */
module OutcomeTheorems {
  import opened Options
  import opened Lifecycle
  import opened ComponentProtocol
  import opened ComponentInvariants
  import opened ComponentTheorems
  import opened ExecutionTheorems

  // --- Blocking futures give the flag back ---

  /**
   The flag under which the handler that blocked last was running; a polled non-blocking future
   counts as running under Active.
   */
  function BlockedUnder(cfg: Config, ls: seq<Label>): Flag {
    if ls == [] then Active
    else
      var us, l := ls[..|ls| - 1], ls[|ls| - 1];
      if IsStep(cfg, us, l) && Blocks(Exec(cfg, us).s.threads[l.i], l.ch) then
        var s := Exec(cfg, us).s;
        if s.threads[l.i].at.CtrlRun? && s.threads[l.i].at.event.Poll? then Active else s.sh.word.flag
      else BlockedUnder(cfg, us)
  }

  lemma BlockerRemembers(p: Point, f: Flag, c: Core)
    requires (p.Run? || p.CtrlRun?) && At(p, f, c)
    ensures FlagOf(BlockingTransition(p)) == if p.CtrlRun? && p.event.Poll? then Active else f
  {
  }

  lemma OpenAfter(h: seq<BlockEvent>, e: BlockEvent)
    ensures Open(h + [e]) == if e.Stored? then Some(e.t) else None
  {
  }

  /** The open future will restore the flag under which its handler ran. */
  lemma {:induction false} OpenRemembers(cfg: Config, ls: seq<Label>)
    requires Exec(cfg, ls).Next?
    ensures var open := Open(Exec(cfg, ls).s.sh.core.history); open.Some? ==> FlagOf(open.value) == BlockedUnder(cfg, ls)
  {
    if ls != [] {
      var us, l := ls[..|ls| - 1], ls[|ls| - 1];
      var s := Exec(cfg, us).s;
      OpenRemembers(cfg, us);
      if l.Thread? {
        RunsKeepInv(cfg, us);
        RunsKeepConfig(cfg, us);
        StepRemembers(cfg, s, l.i, l.ch, BlockedUnder(cfg, us));
      }
    }
  }

  lemma StepRemembers(cfg: Config, s: State, i: nat, ch: Choice, under: Flag)
    requires Inv(s) && i < |s.threads| && Step(cfg, i, s.sh, s.threads[i], ch).To?
    requires Open(s.sh.core.history).Some? ==> FlagOf(Open(s.sh.core.history).value) == under
    ensures var pc, h' := s.threads[i], Step(cfg, i, s.sh, s.threads[i], ch).sh.core.history;
            Open(h').Some? ==>
              FlagOf(Open(h').value) == if !Blocks(pc, ch) then under
                                        else if pc.at.CtrlRun? && pc.at.event.Poll? then Active else s.sh.word.flag
  {
    var pc, h := s.threads[i], s.sh.core.history;
    assert ThreadOk(s.sh, i, pc);
    StepTrace(cfg, i, s.sh, pc, ch);
    if Blocks(pc, ch) {
      OpenAfter(h, Stored(BlockingTransition(pc.at)));
      BlockerRemembers(pc.at, s.sh.word.flag, s.sh.core);
    } else if IsApplying(pc) {
      OpenAfter(h, Applied(pc.at.t));
    } else if Abandons(pc, ch) {
      OpenAfter(h, Abandoned(pc.at.t));
    }
  }

  /**
   In every run, applying a finished blocking future leaves the flag under which the handler that
   blocked was running: Active after a timer action, message, port event, start handler or polled
   future, Passive after a stop handler, Destroyed after a kill handler.
   */
  lemma AppliedRestoresFlag(cfg: Config, ls: seq<Label>, i: nat, ch: Choice)
    requires Exec(cfg, ls).Next? && i < |Exec(cfg, ls).s.threads| && IsApplying(Exec(cfg, ls).s.threads[i])
    ensures var r := Step(cfg, i, Exec(cfg, ls).s.sh, Exec(cfg, ls).s.threads[i], ch);
            r.To? && r.sh.word.flag == BlockedUnder(cfg, ls)
  {
    var s := Exec(cfg, ls).s;
    RunsKeepInv(cfg, ls);
    OpenRemembers(cfg, ls);
    assert ThreadOk(s.sh, i, s.threads[i]);
    ApplyingStep(cfg, i, s.sh, s.threads[i].ded, s.threads[i].at.t, s.threads[i].at.mode, ch);
  }

  lemma ApplyingStep(cfg: Config, me: nat, sh: Shared, ded: bool, t: Transition, mode: PollMode, ch: Choice)
    ensures var r := Step(cfg, me, sh, Inside(ded, Applying(t, mode)), ch); r.To? && r.sh.word.flag == FlagOf(t)
  {
  }

  /** The flags under which handlers run, so that the above says which flag comes back. */
  lemma HandlersRunUnder(cfg: Config, ls: seq<Label>, i: nat)
    requires Exec(cfg, ls).Next? && i < |Exec(cfg, ls).s.threads| && InHandler(Exec(cfg, ls).s.threads[i])
    ensures var p, f := Exec(cfg, ls).s.threads[i].at, Exec(cfg, ls).s.sh.word.flag;
            && (p.Run? ==> f == Active)
            && (p.CtrlRun? && p.event.Start? ==> f == Active)
            && (p.CtrlRun? && p.event.Stop? ==> f == Passive)
            && (p.CtrlRun? && p.event.Kill? ==> f == Destroyed)
  {
    RunsKeepInv(cfg, ls);
    assert ThreadOk(Exec(cfg, ls).s.sh, i, Exec(cfg, ls).s.threads[i]);
  }

  // --- Faults and shutdown ---

  /** The result of a handler or poll, if the step is one. */
  function ResultOf(pc: Pc, ch: Choice): Option<HandlerResult> {
    if InHandler(pc) && ch.Outcome? then Some(ch.result)
    else if pc.Inside? && pc.at.Polling? && ch.PollReady? then Some(ch.result)
    else None
  }

  /** The last result of user code that thread `i` got in its present execution. */
  function LastResult(cfg: Config, ls: seq<Label>, i: nat): Option<HandlerResult> {
    if ls == [] then None
    else
      var us, l := ls[..|ls| - 1], ls[|ls| - 1];
      if !IsStep(cfg, us, l) || l.i != i then LastResult(cfg, us, i)
      else
        var pc := Exec(cfg, us).s.threads[i];
        if ResultOf(pc, l.ch).Some? then ResultOf(pc, l.ch)
        else if !pc.Inside? then None
        else LastResult(cfg, us, i)
  }

  /** The points between such a result and the end of the execution, and the flag at its end. */
  predicate EndsAs(p: Point, f: Flag, r: HandlerResult) {
    match r
    case Recoverable =>
      || (p.Polled? && p.end == Failed(true)) || (p.AfterSub? && p.end == Failed(true))
      || (p.Failing? && p.flag == Faulty) || (p.Recovering? && f == Faulty) || (p == Ret(NoWork) && f == Faulty)
    case Unrecoverable =>
      || (p.Polled? && p.end == Failed(false)) || (p.AfterSub? && p.end == Failed(false))
      || (p.Failing? && p.flag == Destroyed) || (p == Ret(NoWork) && f == Destroyed)
    case Shutdown =>
      || (p.Polled? && (p.end == WantsShutdown || (p.end == Completed && f == Destroyed)))
      || (p.AfterSub? && (p.end == WantsShutdown || (p.end == Completed && f == Destroyed)))
      || (p.Applying? && p.t == ToDestroyed) || (p.Failing? && p.flag == Destroyed)
      || p.KillSet? || (p.KillRun? && f == Destroyed) || (p.KillDone? && f == Destroyed) || (p.Ret? && f == Destroyed)
    case _ => true
  }

  predicate Fatal(r: HandlerResult) { r == Recoverable || r == Unrecoverable || r == Shutdown }

  lemma ResultStarts(cfg: Config, sh: Shared, ded: bool, p: Point, ch: Choice, r: HandlerResult)
    requires Fatal(r) && ResultOf(Inside(ded, p), ch) == Some(r)
    requires StepInside(cfg, sh, ded, p, ch).To? && StepInside(cfg, sh, ded, p, ch).pc.Inside?
    ensures EndsAs(StepInside(cfg, sh, ded, p, ch).pc.at, StepInside(cfg, sh, ded, p, ch).sh.word.flag, r)
  {
  }

  lemma ResultGoesOn(cfg: Config, sh: Shared, ded: bool, p: Point, ch: Choice, r: HandlerResult)
    requires Fatal(r) && EndsAs(p, sh.word.flag, r)
    requires StepInside(cfg, sh, ded, p, ch).To? && StepInside(cfg, sh, ded, p, ch).pc.Inside?
    ensures EndsAs(StepInside(cfg, sh, ded, p, ch).pc.at, StepInside(cfg, sh, ded, p, ch).sh.word.flag, r)
  {
  }

  ghost predicate OnTrack(cfg: Config, ls: seq<Label>, i: nat)
    requires Exec(cfg, ls).Next?
  {
    var s := Exec(cfg, ls).s;
    i < |s.threads| && s.threads[i].Inside? && LastResult(cfg, ls, i).Some? && Fatal(LastResult(cfg, ls, i).value) ==>
      EndsAs(s.threads[i].at, s.sh.word.flag, LastResult(cfg, ls, i).value)
  }

  lemma OwnStep(cfg: Config, us: seq<Label>, i: nat, ch: Choice)
    requires Exec(cfg, us).Next? && OnTrack(cfg, us, i) && SystemStep(Exec(cfg, us).s, Thread(i, ch)).Next?
    ensures OnTrack(cfg, us + [Thread(i, ch)], i)
  {
    var ls := us + [Thread(i, ch)];
    assert ls[..|ls| - 1] == us;
    var s := Exec(cfg, us).s;
    var pc := s.threads[i];
    RunsKeepConfig(cfg, us);
    if pc.Inside? && LastResult(cfg, ls, i).Some? && Fatal(LastResult(cfg, ls, i).value)
       && StepInside(cfg, s.sh, pc.ded, pc.at, ch).To? && StepInside(cfg, s.sh, pc.ded, pc.at, ch).pc.Inside? {
      var r := LastResult(cfg, ls, i).value;
      if ResultOf(pc, ch).Some? {
        ResultStarts(cfg, s.sh, pc.ded, pc.at, ch, r);
      } else {
        ResultGoesOn(cfg, s.sh, pc.ded, pc.at, ch, r);
      }
    }
  }

  lemma OtherMove(cfg: Config, us: seq<Label>, i: nat, l: Label)
    requires Exec(cfg, us).Next? && OnTrack(cfg, us, i) && SystemStep(Exec(cfg, us).s, l).Next?
    requires l.Thread? ==> l.i != i
    ensures OnTrack(cfg, us + [l], i)
  {
    var ls := us + [l];
    assert ls[..|ls| - 1] == us;
    var s, s' := Exec(cfg, us).s, SystemStep(Exec(cfg, us).s, l).s;
    RunsKeepInv(cfg, us);
    RunsKeepConfig(cfg, us);
    if i < |s'.threads| && s'.threads[i].Inside? {
      assert s'.threads[i] == s.threads[i] && ThreadOk(s.sh, i, s.threads[i]);
      if l.Thread? {
        assert ThreadOk(s.sh, l.i, s.threads[l.i]);
        StepStructure(cfg, l.i, s.sh, s.threads[l.i], l.ch);
      }
    }
  }

  lemma {:induction false} RunsStayOnTrack(cfg: Config, ls: seq<Label>, i: nat)
    requires Exec(cfg, ls).Next?
    ensures OnTrack(cfg, ls, i)
  {
    if ls != [] {
      var us, l := ls[..|ls| - 1], ls[|ls| - 1];
      assert us + [l] == ls;
      RunsStayOnTrack(cfg, us, i);
      if l.Thread? && l.i == i {
        OwnStep(cfg, us, i, l.ch);
      } else {
        OtherMove(cfg, us, i, l);
      }
    }
  }

  /**
   In every run, an execution whose last handler or poll reported a recoverable fault ends Faulty, an
   unrecoverable one Destroyed, and a request to shut down Destroyed; after a fault it reports no work.
   */
  lemma ExecutionEndsIn(cfg: Config, ls: seq<Label>, i: nat)
    requires Exec(cfg, ls).Next? && i < |Exec(cfg, ls).s.threads|
    requires var pc := Exec(cfg, ls).s.threads[i]; pc.Inside? && pc.at.Ret?
    ensures var s, r := Exec(cfg, ls).s, LastResult(cfg, ls, i);
            && (r == Some(Recoverable) ==> s.sh.word.flag == Faulty && s.threads[i].at.decision == NoWork)
            && (r == Some(Unrecoverable) ==> s.sh.word.flag == Destroyed && s.threads[i].at.decision == NoWork)
            && (r == Some(Shutdown) ==> s.sh.word.flag == Destroyed)
  {
    RunsStayOnTrack(cfg, ls, i);
  }

  // --- Panics ---

  /** The mutex after a step: poisoned exactly by what unwinds out of it, and then the thread has panicked. */
  predicate PoisonsIff(sh: Shared, pc: Pc, ch: Choice, sh': Shared, pc': Pc) {
    var unwinds := pc.Inside? && Unwinds(sh, pc.at, ch);
    && (sh'.core.poisoned <==> sh.core.poisoned || unwinds)
    && (pc.Inside? ==> (pc'.Panicked? <==> unwinds))
  }

  lemma HandlerPoisons(sh: Shared, ded: bool, p: Point, ch: Choice)
    requires (p.Run? || p.CtrlRun?) && StepHandler(sh, ded, p, ch).To?
    ensures var r := StepHandler(sh, ded, p, ch); PoisonsIff(sh, Inside(ded, p), ch, r.sh, r.pc)
  {
  }

  lemma PollPoisons(sh: Shared, ded: bool, p: Point, ch: Choice)
    requires (p.Gate? || p.Take? || p.Polling? || p.Applying? || p.Arm?) && StepPoll(sh, ded, p, ch).To?
    ensures var r := StepPoll(sh, ded, p, ch); PoisonsIff(sh, Inside(ded, p), ch, r.sh, r.pc)
  {
  }

  lemma EndPoisons(sh: Shared, ded: bool, p: Point, ch: Choice)
    requires p.Sub? || p.Failing? || p.Recovering? || p.KillSet? || p.KillRun? || p.KillDone? || p.Ret?
    requires StepEnd(sh, ded, p, ch).To?
    ensures var r := StepEnd(sh, ded, p, ch); PoisonsIff(sh, Inside(ded, p), ch, r.sh, r.pc)
  {
  }

  lemma OthersNeverPoison(cfg: Config, me: nat, sh: Shared, pc: Pc, ch: Choice)
    requires pc.Inside? ==> Looks(pc.at) || pc.at.CtrlSet? || pc.at.CtrlDone? || pc.at.Polled? || pc.at.AfterSub?
    requires Step(cfg, me, sh, pc, ch).To?
    ensures var r := Step(cfg, me, sh, pc, ch); PoisonsIff(sh, pc, ch, r.sh, r.pc)
  {
  }

  /** From any state, a step poisons the mutex exactly when user code panics under it or blocks where it must not. */
  lemma StepPoisons(cfg: Config, me: nat, sh: Shared, pc: Pc, ch: Choice)
    requires Step(cfg, me, sh, pc, ch).To?
    ensures var r := Step(cfg, me, sh, pc, ch); PoisonsIff(sh, pc, ch, r.sh, r.pc)
  {
    if InHandler(pc) {
      HandlerPoisons(sh, pc.ded, pc.at, ch);
    } else if pc.Inside? && (pc.at.Gate? || pc.at.Take? || pc.at.Polling? || pc.at.Applying? || pc.at.Arm?) {
      PollPoisons(sh, pc.ded, pc.at, ch);
    } else if pc.Inside? && !Looks(pc.at) && !pc.at.CtrlSet? && !pc.at.CtrlDone? && !pc.at.Polled? && !pc.at.AfterSub? {
      EndPoisons(sh, pc.ded, pc.at, ch);
    } else {
      OthersNeverPoison(cfg, me, sh, pc, ch);
    }
  }

  // --- Shutting down from a handler ---

  /** The point runs the kill handler, now or in the next step of its thread. */
  predicate RunsKill(p: Point) { p.KillSet? || p.KillRun? }

  /**
   A handler that asks for shutdown is followed by the kill handler exactly when it is not the kill
   handler itself; the same for a blocking future, unless it belongs to the kill handler.
   */
  lemma ShutdownRunsKill(cfg: Config, me: nat, sh: Shared, ded: bool, p: Point, h: map<nat, TimerHandle>)
    ensures (p.Run? || p.CtrlRun?) ==>
            var r := Step(cfg, me, sh, Inside(ded, p), Outcome(Shutdown, h));
            r.To? && r.pc.Inside? && (RunsKill(r.pc.at) <==> !(p.CtrlRun? && p.event.Kill?))
    ensures (p.Polled? && p.mode == Resumed) || p.AfterSub? ==>
            var r := Step(cfg, me, sh, Inside(ded, p), Go);
            r.To? && r.pc.Inside? && (RunsKill(r.pc.at) <==> p.end == WantsShutdown)
    ensures p.Polling? ==>
            var r := Step(cfg, me, sh, Inside(ded, p), PollReady(Shutdown, h));
            r.To? && r.pc.Inside? && (r.pc.at == Polled(p.mode, WantsShutdown) <==> p.t != ToDestroyed)
  {
  }
}
