/** Concrete runs that reach the states in which an expected law fails. */
module WitnessRuns {
  import opened Options
  import opened Lifecycle
  import opened ComponentProtocol

  /** A run can be continued by any step that its last state allows. */
  lemma ExecAppend(cfg: Config, ls: seq<Label>, l: Label)
    requires Exec(cfg, ls).Next?
    ensures Exec(cfg, ls + [l]) == SystemStep(Exec(cfg, ls).s, l)
  {
    assert (ls + [l])[..|ls|] == ls;
  }

  const POOL := Config(false, 1, 1)

  /** The last thread of a run takes one more step. */
  lemma WorkerStep(ls: seq<Label>, ch: Choice, sh: Shared, others: seq<Pc>, pc: Pc) returns (ls': seq<Label>)
    requires Exec(POOL, ls) == Next(State(POOL, sh, others + [pc]))
    requires Step(POOL, |others|, sh, pc, ch).To?
    ensures var r := Step(POOL, |others|, sh, pc, ch);
      Exec(POOL, ls') == Next(State(POOL, r.sh, others + [r.pc]))
    ensures ls <= ls'
  {
    ls' := ls + [Thread(|others|, ch)];
    ExecAppend(POOL, ls, Thread(|others|, ch));
    var r := Step(POOL, |others|, sh, pc, ch);
    assert (others + [pc])[|others| := r.pc] == others + [r.pc];
  }

  /** Shared state with some control events announced, pushed, and scheduled for once. */
  function Waiting(events: seq<ControlEvent>): Shared {
    InitShared().WithCount(|events|).WithQueues(InitShared().q.(ctrl := events)).(sched := Sched(if events == [] then 0 else 1, false, false))
  }

  /** The first control event is announced, pushed and scheduled for. */
  lemma FirstEvent(e: ControlEvent) returns (ls: seq<Label>)
    ensures Exec(POOL, ls) == Next(State(POOL, Waiting([e]), [Finished]))
  {
    var item := ControlItem(e);
    ls := [Enqueue(item)];
    ExecAppend(POOL, [], Enqueue(item));
    assert [] + [Enqueue(item)] == ls;
    var sh := InitShared();
    assert [] + [EnqStart(item)] == [EnqStart(item)];
    ls := WorkerStep(ls, Go, sh, [], EnqStart(item));
    sh := sh.WithCount(1);
    ls := WorkerStep(ls, Go, sh, [], EnqPush(item, Schedule));
    sh := PushItem(sh, item);
    ls := WorkerStep(ls, Go, sh, [], EnqSchedule(item));
    assert sh.q.ctrl == [e];
    assert [] + [Finished] == [Finished];
  }

  /** A second one is announced and pushed; the component is already scheduled. */
  lemma SecondEvent(ls: seq<Label>, d: ControlEvent, e: ControlEvent) returns (ls': seq<Label>)
    requires Exec(POOL, ls) == Next(State(POOL, Waiting([d]), [Finished]))
    ensures Exec(POOL, ls') == Next(State(POOL, Waiting([d, e]), [Finished, Finished]))
  {
    var item := ControlItem(e);
    ExecAppend(POOL, ls, Enqueue(item));
    ls' := ls + [Enqueue(item)];
    var sh := Waiting([d]);
    ls' := WorkerStep(ls', Go, sh, [Finished], EnqStart(item));
    sh := sh.WithCount(2);
    ls' := WorkerStep(ls', Go, sh, [Finished], EnqPush(item, AlreadyScheduled));
    assert [d] + [e] == [d, e];
    assert PushItem(sh, item) == Waiting([d, e]);
    assert [Finished] + [Finished] == [Finished, Finished];
  }

  /** A pool worker picks the component up and locks the mutex. */
  lemma WorkerLocks(ls: seq<Label>, events: seq<ControlEvent>, others: seq<Pc>) returns (ls': seq<Label>, sh: Shared)
    requires events != [] && Exec(POOL, ls) == Next(State(POOL, Waiting(events), others))
    ensures Exec(POOL, ls') == Next(State(POOL, sh, others + [Inside(false, Gate)]))
    ensures sh.word == Pair(Passive, |events|) && sh.q.ctrl == events && sh.core == Core(Some(|others|), false, None, [], false)
  {
    ExecAppend(POOL, ls, RunTask);
    ls' := ls + [RunTask];
    sh := Waiting(events).(sched := Sched(0, false, false));
    ls' := WorkerStep(ls', Go, sh, others, Entry(false));
    ls' := WorkerStep(ls', Go, sh, others, WaitLock(false));
    sh := sh.WithCore(sh.core.(lock := Some(|others|)));
  }

  /** ... and pops the first control event. */
  lemma WorkerStarts(ls: seq<Label>, events: seq<ControlEvent>, others: seq<Pc>) returns (ls': seq<Label>, sh: Shared)
    requires events != [] && Exec(POOL, ls) == Next(State(POOL, Waiting(events), others))
    ensures Exec(POOL, ls') == Next(State(POOL, sh, others + [Inside(false, CtrlSet(0, events[0]))]))
    ensures sh.word == Pair(Passive, |events|) && sh.q.ctrl == events[1..] && sh.core == Core(Some(|others|), false, None, [], false)
  {
    ls', sh := WorkerLocks(ls, events, others);
    ls' := WorkerStep(ls', Go, sh, others, Inside(false, Gate));
    ls' := WorkerStep(ls', Go, sh, others, Inside(false, Ctrl(0)));
    sh := sh.WithQueues(sh.q.(ctrl := events[1..]));
  }

  // --- The window after a panic ---

  lemma StartHandlerBlocks() returns (ls: seq<Label>, sh: Shared)
    ensures Exec(POOL, ls) == Next(State(POOL, sh, [Finished] + [Inside(false, Arm(1, ToStarted))]))
    ensures sh.core.lock == Some(1) && sh.core.blocking == Some(ToStarted)
  {
    ls := FirstEvent(Start);
    ls, sh := WorkerStarts(ls, [Start], [Finished]);
    ls := WorkerStep(ls, Go, sh, [Finished], Inside(false, CtrlSet(0, Start)));
    sh := sh.WithFlag(Active);
    ls := WorkerStep(ls, Outcome(BlockOn, map[]), sh, [Finished], Inside(false, CtrlRun(0, Start)));
    sh := StepHandler(sh, false, CtrlRun(0, Start), Outcome(BlockOn, map[])).sh;
  }

  lemma FutureIsPolled() returns (ls: seq<Label>, sh: Shared)
    ensures Exec(POOL, ls) == Next(State(POOL, sh, [Finished] + [Inside(false, Polling(ToStarted, Fresh(1)))]))
    ensures sh.core.lock == Some(1) && sh.core.blocking.None? && sh.word.flag == Blocking
  {
    ls, sh := StartHandlerBlocks();
    ls := WorkerStep(ls, Go, sh, [Finished], Inside(false, Arm(1, ToStarted)));
    sh := sh.WithFlag(Blocking);
    ls := WorkerStep(ls, Go, sh, [Finished], Inside(false, Take(Fresh(1))));
    sh := sh.WithCore(sh.core.(blocking := None, polled := true));
  }

  /**
   The exception of BlockingFlagIffFuture is real: a start handler blocks and the first poll of its
   future panics. The mutex is free, the flag says Blocking, and no future is stored.
   */
  lemma PanicWindowIsReached() returns (ls: seq<Label>)
    ensures Exec(POOL, ls).Next?
    ensures var sh := Exec(POOL, ls).s.sh;
      sh.core.lock.None? && sh.core.poisoned && sh.word.flag == Blocking && sh.core.blocking.None?
  {
    var sh;
    ls, sh := FutureIsPolled();
    ls := WorkerStep(ls, PollReady(Panics, map[]), sh, [Finished], Inside(false, Polling(ToStarted, Fresh(1))));
  }

  // --- Destroyed, and active again ---

  const OTHERS := [Finished, Finished]

  /** A kill event is handled to its end; a start event still waits. */
  lemma KillIsHandled() returns (ls: seq<Label>, sh: Shared)
    ensures Exec(POOL, ls) == Next(State(POOL, sh, OTHERS + [Inside(false, Ctrl(1))]))
    ensures sh.word == Pair(Destroyed, 2) && sh.q.ctrl == [Start] && sh.core == Core(Some(2), false, None, [], false)
  {
    ls := FirstEvent(Kill);
    ls := SecondEvent(ls, Kill, Start);
    ls, sh := WorkerStarts(ls, [Kill, Start], OTHERS);
    ls := WorkerStep(ls, Go, sh, OTHERS, Inside(false, CtrlSet(0, Kill)));
    sh := sh.WithFlag(Destroyed);
    ls := WorkerStep(ls, Outcome(Handled, map[]), sh, OTHERS, Inside(false, CtrlRun(0, Kill)));
    sh := sh.WithHandles(map[]);
    ls := WorkerStep(ls, Go, sh, OTHERS, Inside(false, CtrlDone(1, Kill)));
  }

  /** The start event of the same drain is handled too. */
  lemma StartFollows(ls: seq<Label>, sh: Shared) returns (ls': seq<Label>, sh': Shared)
    requires Exec(POOL, ls) == Next(State(POOL, sh, OTHERS + [Inside(false, Ctrl(1))]))
    requires sh.word == Pair(Destroyed, 2) && sh.q.ctrl == [Start] && sh.core == Core(Some(2), false, None, [], false)
    ensures Exec(POOL, ls') == Next(State(POOL, sh', OTHERS + [Inside(false, Ctrl(2))])) && ls <= ls'
    ensures sh'.word == Pair(Active, 2) && sh'.q.ctrl == [] && sh'.core == sh.core
  {
    ls' := WorkerStep(ls, Go, sh, OTHERS, Inside(false, Ctrl(1)));
    sh' := sh.WithQueues(sh.q.(ctrl := [Start][1..]));
    ls' := WorkerStep(ls', Go, sh', OTHERS, Inside(false, CtrlSet(1, Start)));
    sh' := sh'.WithFlag(Active);
    ls' := WorkerStep(ls', Outcome(Handled, map[]), sh', OTHERS, Inside(false, CtrlRun(1, Start)));
    sh' := sh'.WithHandles(map[]);
    ls' := WorkerStep(ls', Go, sh', OTHERS, Inside(false, CtrlDone(2, Start)));
  }

  /** The throughput is used up, so the loops are left at once. */
  lemma LoopsAreLeft(ls: seq<Label>, sh: Shared) returns (ls': seq<Label>)
    requires Exec(POOL, ls) == Next(State(POOL, sh, OTHERS + [Inside(false, Ctrl(2))]))
    requires sh.word == Pair(Active, 2) && sh.q.ctrl == []
    ensures Exec(POOL, ls') == Next(State(POOL, sh, OTHERS + [Inside(false, Messages(2))])) && ls <= ls'
  {
    ls' := WorkerStep(ls, Go, sh, OTHERS, Inside(false, Ctrl(2)));
    ls' := WorkerStep(ls', Go, sh, OTHERS, Inside(false, CheckActive(2)));
    ls' := WorkerStep(ls', Go, sh, OTHERS, Inside(false, Timers(2)));
  }

  /** The execution ends in order: everything subtracted, the mutex free. */
  lemma ExecutionEnds(ls: seq<Label>, sh: Shared) returns (ls': seq<Label>)
    requires Exec(POOL, ls) == Next(State(POOL, sh, OTHERS + [Inside(false, Messages(2))]))
    requires sh.word == Pair(Active, 2)
    ensures Exec(POOL, ls') == Next(State(POOL, sh.WithCount(0).WithCore(sh.core.(lock := None)), OTHERS + [Returned(false, NoWork)]))
    ensures ls <= ls'
  {
    ls' := WorkerStep(ls, Go, sh, OTHERS, Inside(false, Messages(2)));
    ls' := WorkerStep(ls', Go, sh, OTHERS, Inside(false, Sub(2)));
    ls' := WorkerStep(ls', Go, sh.WithCount(0), OTHERS, Inside(false, Ret(NoWork)));
  }

  /**
   Destroyed is not final: when a kill and a start event are drained together, the kill handler
   completes, and yet the execution ends with the component Active, its work done and the mutex free.
   */
  lemma KilledComponentRestarts() returns (killed: seq<Label>, ls: seq<Label>)
    ensures killed <= ls && Exec(POOL, killed).Next? && Exec(POOL, ls).Next?
    ensures Exec(POOL, killed).s.sh.word.flag == Destroyed
    ensures Exec(POOL, ls).s.sh.word == Pair(Active, 0) && Exec(POOL, ls).s.sh.core.lock.None?
  {
    var sh, sh';
    killed, sh := KillIsHandled();
    ls, sh' := StartFollows(killed, sh);
    ls := LoopsAreLeft(ls, sh');
    ls := ExecutionEnds(ls, sh');
  }
}
