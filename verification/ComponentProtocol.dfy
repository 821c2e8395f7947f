/**
 The interleaved step relation of one Kompact component: any number of enqueuing threads, any
 number of pool workers, and optionally one dedicated thread, all acting on the same lifecycle
 word, queues and mutex.

 Every thread has its own program counter; one step of one thread performs at most one access
 to the lifecycle word. Work that only the owner of the mutex can see is grouped with the
 access that follows it.
 */
module ComponentProtocol {
  import opened Options
  import opened Lifecycle

  datatype ControlEvent = Start | Stop | Kill | Poll(tag: nat)

  /** The flag change a blocking future applies when it completes. */
  datatype Transition = ToActive | ToStarted | ToPassive | ToDestroyed

  datatype TimerHandle = OneShot | Periodic

  /** What an enqueuer adds; only control events and timeouts have a content the protocol reads. */
  datatype Item = ControlItem(event: ControlEvent) | TimeoutItem(id: nat) | MessageItem | PortItem

  /** What user code can do: the handler results, or a panic. */
  datatype HandlerResult = Handled | BlockOn | Shutdown | Benign | Recoverable | Unrecoverable | Panics

  /** History of blocking futures: stored, then either applied or abandoned. */
  datatype BlockEvent = Stored(t: Transition) | Applied(t: Transition) | Abandoned(t: Transition)

  datatype Config = Config(dedicated: bool, maxEvents: nat, maxMessages: nat)

  /** Whether a poll happens right after blocking (with `n` uncounted items) or on a later execution. */
  datatype PollMode = Fresh(n: nat) | Resumed

  /** The relevant results of polling a blocking future. */
  datatype PollEnd = Pending | Completed | WantsShutdown | Failed(recoverable: bool)

  datatype Phase = InTimers | InMessages | InPorts(rem: nat) | InMoreMessages

  /** Program points of a thread that owns the mutex; `n` is the local `count` of `inner_execute`. */
  datatype Point =
    | Gate
    | Take(mode: PollMode)
    | Polling(t: Transition, mode: PollMode)
    | Applying(t: Transition, mode: PollMode)
    | Polled(mode: PollMode, end: PollEnd)
    | AfterSub(end: PollEnd, decision: Decision)
    | Ctrl(n: nat)
    | CtrlSet(n: nat, event: ControlEvent)
    | CtrlRun(n: nat, event: ControlEvent)
    | CtrlDone(n: nat, event: ControlEvent)
    | CheckActive(n: nat)
    | Timers(n: nat)
    | Messages(n: nat)
    | Ports(n: nat, rem: nat)
    | MoreMessages(n: nat)
    | Run(n: nat, phase: Phase)
    | Arm(n: nat, t: Transition)
    | Failing(n: nat, flag: Flag)
    | Recovering(n: nat)
    | KillSet(n: nat)
    | KillRun(n: nat)
    | KillDone(n: nat)
    | Sub(n: nat)
    | Ret(decision: Decision)

  datatype Pc =
    | EnqStart(item: Item)
    | EnqPush(item: Item, decision: Decision)
    | EnqSchedule(item: Item)
    | Entry(ded: bool)
    | WaitLock(ded: bool)
    | Inside(ded: bool, at: Point)
    | Panicked(ded: bool)
    | Returned(ded: bool, decision: Decision)
    | Idle
    | Parked
    | Exited
    | Finished

  datatype Queues = Queues(ctrl: seq<ControlEvent>, timeouts: seq<nat>, messages: nat, ports: nat,
                           handles: map<nat, TimerHandle>)

  /**
   The mutex, the blocking future it protects, and two history variables: the life of all
   blocking futures, and whether any waker exists.
   */
  datatype Core = Core(lock: Option<nat>, poisoned: bool, blocking: Option<Transition>,
                       history: seq<BlockEvent>, polled: bool)

  /** Pool tasks, the park token of the dedicated thread, and its stop flag. */
  datatype Sched = Sched(tasks: nat, unpark: bool, stop: bool)

  /**
   History variables for work that will never be subtracted: stale timeouts, and items whose
   execution ended by fault or shutdown.
   */
  datatype Gone = Gone(stale: nat, lost: nat)

  datatype Shared = Shared(word: Pair, q: Queues, core: Core, sched: Sched, gone: Gone) {
    function WithFlag(f: Flag): Shared { this.(word := word.(flag := f)) }
    function WithCount(c: nat): Shared { this.(word := word.(count := c)) }
    function WithQueues(q': Queues): Shared { this.(q := q') }
    function WithHandles(h: map<nat, TimerHandle>): Shared { this.(q := q.(handles := h)) }
    function WithCore(c: Core): Shared { this.(core := c) }
    function MoreTasks(): Shared { this.(sched := sched.(tasks := sched.tasks + 1)) }
    function Lose(n: nat): Shared { this.(gone := gone.(lost := gone.lost + n)) }
  }

  function Log(c: Core, e: BlockEvent): Core { c.(history := c.history + [e]) }

  /** The nondeterminism of a step: user code, futures, the port order and the back-off. */
  datatype Choice =
    | Go
    | Outcome(result: HandlerResult, handles: map<nat, TimerHandle>)
    | PollNotReady(handles: map<nat, TimerHandle>)
    | PollReady(result: HandlerResult, handles: map<nat, TimerHandle>)
    | LeavePorts
    | Snooze

  datatype AbortReason = Overflow | Underflow

  datatype StepResult = Disabled | Abort(reason: AbortReason) | To(sh: Shared, pc: Pc)

  function FlagOf(t: Transition): Flag {
    match t
    case ToActive => Active
    case ToStarted => Active
    case ToPassive => Passive
    case ToDestroyed => Destroyed
  }

  /** `schedule` of a component: unpark the dedicated thread if there is one, otherwise a pool task. */
  function ScheduleComponent(cfg: Config, sh: Shared): Shared {
    if cfg.dedicated then sh.(sched := sh.sched.(unpark := true)) else sh.MoreTasks()
  }

  /** Ports and timers always go to the system scheduler, everything else to `schedule`. */
  function ScheduleFor(cfg: Config, sh: Shared, item: Item): Shared {
    if item.TimeoutItem? || item.PortItem? then sh.MoreTasks()
    else ScheduleComponent(cfg, sh)
  }

  function PushItem(sh: Shared, item: Item): Shared {
    match item
    case ControlItem(e) => sh.WithQueues(sh.q.(ctrl := sh.q.ctrl + [e]))
    case TimeoutItem(id) => sh.WithQueues(sh.q.(timeouts := sh.q.timeouts + [id]))
    case MessageItem => sh.WithQueues(sh.q.(messages := sh.q.messages + 1))
    case PortItem => sh.WithQueues(sh.q.(ports := sh.q.ports + 1))
  }

  /** Unwinding out of the mutex: the guard is dropped, which poisons the mutex; `n` items are lost. */
  function Unwind(sh: Shared, ded: bool, n: nat): StepResult {
    To(sh.WithCore(sh.core.(lock := None, poisoned := true)).Lose(n), Panicked(ded))
  }

  /** `set_blocking_with_state` up to the flag change; storing over a stored future panics. */
  function Store(sh: Shared, ded: bool, n: nat, t: Transition): StepResult {
    if sh.core.blocking.Some? then Unwind(sh, ded, n)
    else To(sh.WithCore(Log(sh.core, Stored(t)).(blocking := Some(t))), Inside(ded, Arm(n, t)))
  }

  // --- Threads that do not own the mutex ---

  function StepEnqueuer(cfg: Config, sh: Shared, pc: Pc): StepResult
    requires pc.EnqStart? || pc.EnqPush? || pc.EnqSchedule?
  {
    match pc
    case EnqStart(item) =>
      if sh.word.count >= MAX_COUNT then Abort(Overflow)
      else To(sh.WithCount(sh.word.count + 1), EnqPush(item, IntoDecision(sh.word.flag, sh.word.count)))
    case EnqPush(item, d) =>
      To(PushItem(sh, item), if d == Schedule then EnqSchedule(item) else Finished)
    case EnqSchedule(item) =>
      To(ScheduleFor(cfg, sh, item), Finished)
  }

  function StepOutside(cfg: Config, me: nat, sh: Shared, pc: Pc, ch: Choice): StepResult
    requires !pc.Inside? && !pc.EnqStart? && !pc.EnqPush? && !pc.EnqSchedule?
  {
    match pc
    case Entry(ded) =>
      if sh.word.flag == Destroyed || sh.word.flag == Faulty then To(sh, Returned(ded, NoWork)) else To(sh, WaitLock(ded))
    case WaitLock(ded) =>
      if sh.core.lock.Some? then Disabled
      else if sh.core.poisoned then To(sh, Panicked(ded))
      else To(sh.WithCore(sh.core.(lock := Some(me))), Inside(ded, Gate))
    case Panicked(ded) =>
      To(sh.WithFlag(Faulty), Returned(ded, NoWork))
    case Returned(ded, d) =>
      if ded then
        if sh.word.flag == Destroyed || sh.sched.stop then To(sh, Exited)
        else if d == NoWork || d == Blocked then To(sh, Idle)
        else if d == AlreadyScheduled then Disabled // the loop panics: see DedicatedLoopNeverPanics
        else To(sh, Entry(true))
      else if d == Schedule then To(sh.MoreTasks(), Finished)
      else if d == Resume then To(sh, Entry(false))
      else To(sh, Finished)
    case Idle => To(sh, if ch == Snooze then Entry(true) else Parked)
    case Parked => if sh.sched.unpark then To(sh.(sched := sh.sched.(unpark := false)), Entry(true)) else Disabled
    case _ => Disabled
  }

  // --- The owner of the mutex ---

  /** Entry of `inner_execute`, and polling the blocking future. */
  function StepPoll(sh: Shared, ded: bool, p: Point, ch: Choice): StepResult
    requires p.Gate? || p.Take? || p.Polling? || p.Applying? || p.Arm?
  {
    match p
    case Gate => To(sh, Inside(ded, if sh.core.blocking.Some? then Take(Resumed) else Ctrl(0)))
    case Arm(n, _) => To(sh.WithFlag(Blocking), Inside(ded, Take(Fresh(n))))
    case Take(mode) =>
      if sh.core.blocking.None? then Unwind(sh, ded, ModeCount(mode))
      else To(sh.WithCore(sh.core.(blocking := None, polled := true)), Inside(ded, Polling(sh.core.blocking.value, mode)))
    case Polling(t, mode) => StepPolling(sh, ded, t, mode, ch)
    case Applying(t, mode) =>
      To(sh.WithFlag(FlagOf(t)).WithCore(Log(sh.core, Applied(t))), Inside(ded, Polled(mode, Completed)))
  }

  /** After the poll: subtract if this execution popped items, then decide. */
  function StepConclude(sh: Shared, ded: bool, p: Point): StepResult
    requires p.Polled? || p.AfterSub?
  {
    match p
    case Polled(Fresh(n), end) =>
      if n > sh.word.count then Abort(Underflow)
      else To(sh.WithCount(sh.word.count - n), Inside(ded, AfterSub(end, DecrementDecision(sh.word.count - n))))
    case Polled(Resumed, end) =>
      Conclude(sh, ded, end, IntoDecision(sh.word.flag, sh.word.count))
    case AfterSub(end, d) => Conclude(sh, ded, end, d)
  }

  function ModeCount(mode: PollMode): nat {
    if mode.Fresh? then mode.n else 0
  }

  /** The result of a poll; like a handler, the future may have scheduled or cancelled timers. */
  function StepPolling(sh: Shared, ded: bool, t: Transition, mode: PollMode, ch: Choice): StepResult {
    match ch
    case PollNotReady(handles) =>
      To(sh.WithHandles(handles).WithCore(sh.core.(blocking := Some(t))), Inside(ded, Polled(mode, Pending)))
    case PollReady(r, handles) => PollResult(sh.WithHandles(handles), ded, t, mode, r)
    case _ => Disabled
  }

  function PollResult(sh: Shared, ded: bool, t: Transition, mode: PollMode, r: HandlerResult): StepResult {
    match r
    case BlockOn => To(sh.WithCore(sh.core.(blocking := Some(t))), Inside(ded, Polled(mode, Pending)))
    case Handled => To(sh, Inside(ded, Applying(t, mode)))
    case Benign => To(sh, Inside(ded, Applying(t, mode)))
    case Shutdown =>
      if t == ToDestroyed then To(sh, Inside(ded, Applying(t, mode)))
      else To(sh.WithCore(Log(sh.core, Abandoned(t))), Inside(ded, Polled(mode, WantsShutdown)))
    case Recoverable => To(sh.WithCore(Log(sh.core, Abandoned(t))), Inside(ded, Polled(mode, Failed(true))))
    case Unrecoverable => To(sh.WithCore(Log(sh.core, Abandoned(t))), Inside(ded, Polled(mode, Failed(false))))
    case Panics => Unwind(sh.WithCore(Log(sh.core, Abandoned(t))), ded, ModeCount(mode))
  }

  /** What follows a poll once the scheduling decision is known. */
  function Conclude(sh: Shared, ded: bool, end: PollEnd, d: Decision): StepResult {
    match end
    case Pending => To(sh, Inside(ded, Ret(Blocked)))
    case Completed => To(sh, Inside(ded, Ret(OrUse(NoWork, d))))
    case WantsShutdown => To(sh, Inside(ded, KillSet(0)))
    case Failed(r) => To(sh, Inside(ded, Failing(0, if r then Faulty else Destroyed)))
  }

  /** The control loop, which ignores the event limit. */
  function StepControl(sh: Shared, ded: bool, p: Point): StepResult
    requires p.Ctrl? || p.CtrlSet? || p.CtrlDone? || p.CheckActive?
  {
    match p
    case Ctrl(n) =>
      if sh.q.ctrl == [] then To(sh, Inside(ded, CheckActive(n)))
      else To(sh.WithQueues(sh.q.(ctrl := sh.q.ctrl[1..])), Inside(ded, CtrlSet(n, sh.q.ctrl[0])))
    case CtrlSet(n, e) =>
      To(SetFor(sh, e), Inside(ded, CtrlRun(n, e)))
    case CtrlDone(n, e) =>
      To(if e.Start? then sh else SetFor(sh, e), Inside(ded, Ctrl(n)))
    case CheckActive(n) =>
      To(sh, Inside(ded, if sh.word.flag == Active then Timers(n) else Sub(n)))
  }

  function SetFor(sh: Shared, e: ControlEvent): Shared {
    match e
    case Start => sh.WithFlag(Active)
    case Stop => sh.WithFlag(Passive)
    case Kill => sh.WithFlag(Destroyed)
    case Poll(_) => sh
  }

  function TransitionFor(e: ControlEvent): Transition {
    match e
    case Start => ToStarted
    case Stop => ToPassive
    case Kill => ToDestroyed
    case Poll(_) => ToActive
  }

  /** Timers, messages, port events, more messages. */
  function StepLoops(cfg: Config, sh: Shared, ded: bool, p: Point, ch: Choice): StepResult
    requires p.Timers? || p.Messages? || p.Ports? || p.MoreMessages?
  {
    match p
    case Timers(n) =>
      if n >= cfg.maxEvents || sh.q.timeouts == [] then To(sh, Inside(ded, Messages(n)))
      else TryAction(sh, ded, n)
    case Messages(n) =>
      if n < cfg.maxMessages && sh.q.messages > 0
      then To(sh.WithQueues(sh.q.(messages := sh.q.messages - 1)), Inside(ded, Run(n, InMessages)))
      else To(sh, Inside(ded, if n < cfg.maxEvents then Ports(n, cfg.maxEvents - n) else Sub(n)))
    case Ports(n, rem) =>
      if ch == LeavePorts || rem == 0 || sh.q.ports == 0 then To(sh, Inside(ded, MoreMessages(n)))
      else To(sh.WithQueues(sh.q.(ports := sh.q.ports - 1)), Inside(ded, Run(n, InPorts(rem))))
    case MoreMessages(n) =>
      if n < cfg.maxEvents && sh.q.messages > 0
      then To(sh.WithQueues(sh.q.(messages := sh.q.messages - 1)), Inside(ded, Run(n, InMoreMessages)))
      else To(sh, Inside(ded, Sub(n)))
  }

  /** `try_action`: a timeout whose handle is gone is discarded and ends the timer loop. */
  function TryAction(sh: Shared, ded: bool, n: nat): StepResult
    requires sh.q.timeouts != []
  {
    var id := sh.q.timeouts[0];
    var rest := sh.WithQueues(sh.q.(timeouts := sh.q.timeouts[1..]));
    if id !in sh.q.handles then To(rest.(gone := sh.gone.(stale := sh.gone.stale + 1)), Inside(ded, Messages(n)))
    else if sh.q.handles[id].OneShot? then To(rest.WithHandles(sh.q.handles - {id}), Inside(ded, Run(n, InTimers)))
    else To(rest, Inside(ded, Run(n, InTimers)))
  }

  function NextPoint(n: nat, phase: Phase, benign: bool): Point {
    match phase
    case InTimers => Timers(n)
    case InMessages => Messages(n)
    case InPorts(rem) => if benign || rem == 0 then MoreMessages(n) else Ports(n, rem - 1)
    case InMoreMessages => MoreMessages(n)
  }

  /** The result of a handler, which may have scheduled or cancelled timers. */
  function StepHandler(sh: Shared, ded: bool, p: Point, ch: Choice): StepResult
    requires p.CtrlRun? || p.Run?
  {
    if !ch.Outcome? then Disabled
    else
      var n := p.n + 1;
      var sh := sh.WithHandles(ch.handles);
      match ch.result
      case Handled => To(sh, Inside(ded, Resumption(n, p, false)))
      case Benign => To(sh, Inside(ded, Resumption(n, p, true)))
      case BlockOn => Store(sh, ded, n, if p.CtrlRun? then TransitionFor(p.event) else ToActive)
      case Shutdown =>
        To(sh, Inside(ded, if p.CtrlRun? && p.event.Kill? then Failing(n, Destroyed) else KillSet(n)))
      case Recoverable => To(sh, Inside(ded, Failing(n, Faulty)))
      case Unrecoverable => To(sh, Inside(ded, Failing(n, Destroyed)))
      case Panics => Unwind(sh, ded, n)
  }

  /** Where the loop goes on after a handler that neither blocked nor ended the execution. */
  function Resumption(n: nat, p: Point, benign: bool): Point
    requires p.CtrlRun? || p.Run?
  {
    match p
    case CtrlRun(_, e) => CtrlDone(n, e)
    case Run(_, phase) => NextPoint(n, phase, benign)
  }

  /** Ends of an execution: subtraction, faults, shutdown, and releasing the mutex. */
  function StepEnd(sh: Shared, ded: bool, p: Point, ch: Choice): StepResult
    requires p.Sub? || p.Failing? || p.Recovering? || p.KillSet? || p.KillRun? || p.KillDone? || p.Ret?
  {
    match p
    case Sub(n) =>
      if n > sh.word.count then Abort(Underflow)
      else To(sh.WithCount(sh.word.count - n), Inside(ded, Ret(DecrementDecision(sh.word.count - n))))
    case Failing(n, f) =>
      if f == Faulty then To(sh.WithFlag(f), Inside(ded, Recovering(n)))
      else To(sh.WithFlag(f).Lose(n), Inside(ded, Ret(NoWork)))
    case Recovering(_) => StepLastWords(sh, ded, p, ch)
    case KillSet(n) => To(sh.WithFlag(Destroyed), Inside(ded, KillRun(n)))
    case KillRun(_) => StepLastWords(sh, ded, p, ch)
    case KillDone(n) => To(sh.WithFlag(Destroyed).Lose(n), Inside(ded, Ret(NoWork)))
    case Ret(d) => To(sh.WithCore(sh.core.(lock := None)), Returned(ded, d))
  }

  /** User code that runs under the mutex while an execution ends: the recovery function, or `on_kill` once more. */
  function StepLastWords(sh: Shared, ded: bool, p: Point, ch: Choice): StepResult
    requires p.Recovering? || p.KillRun?
  {
    match p
    case Recovering(n) =>
      if ch.Outcome? && ch.result == Panics then Unwind(sh, ded, n)
      else To(sh.Lose(n), Inside(ded, Ret(NoWork)))
    case KillRun(n) =>
      if !ch.Outcome? then Disabled
      else if ch.result == Panics || ch.result == BlockOn then Unwind(sh.WithHandles(ch.handles), ded, n)
      else To(sh.WithHandles(ch.handles), Inside(ded, KillDone(n)))
  }

  function StepInside(cfg: Config, sh: Shared, ded: bool, p: Point, ch: Choice): StepResult {
    if p.Ctrl? || p.CtrlSet? || p.CtrlDone? || p.CheckActive? then StepControl(sh, ded, p)
    else if p.CtrlRun? || p.Run? then StepHandler(sh, ded, p, ch)
    else if p.Timers? || p.Messages? || p.Ports? || p.MoreMessages? then StepLoops(cfg, sh, ded, p, ch)
    else if p.Gate? || p.Take? || p.Polling? || p.Applying? || p.Arm? then StepPoll(sh, ded, p, ch)
    else if p.Polled? || p.AfterSub? then StepConclude(sh, ded, p)
    else StepEnd(sh, ded, p, ch)
  }

  /** One step of the thread `me` at `pc`. */
  function Step(cfg: Config, me: nat, sh: Shared, pc: Pc, ch: Choice): StepResult {
    match pc
    case Inside(ded, p) => StepInside(cfg, sh, ded, p, ch)
    case EnqStart(_) => StepEnqueuer(cfg, sh, pc)
    case EnqPush(_, _) => StepEnqueuer(cfg, sh, pc)
    case EnqSchedule(_) => StepEnqueuer(cfg, sh, pc)
    case _ => StepOutside(cfg, me, sh, pc, ch)
  }

  // --- The whole system ---

  datatype State = State(cfg: Config, sh: Shared, threads: seq<Pc>)

  /** Environment moves, or one step of thread `i`. */
  datatype Label =
    | Enqueue(item: Item)
    | RunTask
    | Wake
    | RequestStop
    | Thread(i: nat, ch: Choice)

  datatype SystemResult = Stuck | Aborted(why: AbortReason) | Next(s: State)

  function SystemStep(s: State, l: Label): SystemResult {
    match l
    case Enqueue(item) => Next(s.(threads := s.threads + [EnqStart(item)]))
    case RunTask =>
      if s.sh.sched.tasks == 0 then Stuck
      else Next(s.(sh := s.sh.(sched := s.sh.sched.(tasks := s.sh.sched.tasks - 1)), threads := s.threads + [Entry(false)]))
    case Wake =>
      if !s.sh.core.polled then Stuck else Next(s.(sh := ScheduleComponent(s.cfg, s.sh)))
    case RequestStop => Next(s.(sh := s.sh.(sched := s.sh.sched.(stop := true))))
    case Thread(i, ch) =>
      if i >= |s.threads| then Stuck
      else
        match Step(s.cfg, i, s.sh, s.threads[i], ch)
        case Disabled => Stuck
        case Abort(r) => Aborted(r)
        case To(sh', pc') => Next(s.(sh := sh', threads := s.threads[i := pc']))
  }

  function InitShared(): Shared {
    Shared(Pair(Passive, 0), Queues([], [], 0, 0, map[]), Core(None, false, None, [], false),
           Sched(0, false, false), Gone(0, 0))
  }

  function Init(cfg: Config): State {
    State(cfg, InitShared(), if cfg.dedicated then [Entry(true)] else [])
  }

  /** The result of taking the steps `ls` from the initial state. */
  function Exec(cfg: Config, ls: seq<Label>): SystemResult {
    if ls == [] then Next(Init(cfg))
    else
      var before := Exec(cfg, ls[..|ls| - 1]);
      if before.Next? then SystemStep(before.s, ls[|ls| - 1]) else before
  }
}
