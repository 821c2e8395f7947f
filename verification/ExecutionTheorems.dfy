/** What one execution does: which events it takes, how long it goes on, and how it is scheduled. */
module ExecutionTheorems {
  import opened Options
  import opened Lifecycle
  import opened ComponentProtocol
  import opened ComponentInvariants
  import opened ComponentTheorems

  // --- Limits of one execution ---

  /** What the local count of an execution is while an event other than a control event is handled. */
  predicate WithinLimits(cfg: Config, pc: Pc) {
    pc.Inside? ==>
      match pc.at
      case Ports(n, rem) => n + rem == cfg.maxEvents
      case Run(n, InTimers) => n < cfg.maxEvents
      case Run(n, InMessages) => n < cfg.maxMessages
      case Run(n, InPorts(rem)) => rem > 0 && n + rem == cfg.maxEvents
      case Run(n, InMoreMessages) => n < cfg.maxEvents
      case _ => true
  }

  lemma StepLimits(cfg: Config, me: nat, sh: Shared, pc: Pc, ch: Choice)
    requires WithinLimits(cfg, pc) && Step(cfg, me, sh, pc, ch).To?
    ensures WithinLimits(cfg, Step(cfg, me, sh, pc, ch).pc)
  {
    if pc.Inside? {
      var p := pc.at;
      if p.Run? || p.CtrlRun? {
        HandlerLimits(cfg, sh, pc.ded, p, ch);
      } else if p.Timers? || p.Messages? || p.Ports? || p.MoreMessages? {
        LoopsLimits(cfg, sh, pc.ded, p, ch);
      } else {
        OtherLimits(cfg, sh, pc.ded, p, ch);
      }
    }
  }

  lemma LoopsLimits(cfg: Config, sh: Shared, ded: bool, p: Point, ch: Choice)
    requires p.Timers? || p.Messages? || p.Ports? || p.MoreMessages?
    requires WithinLimits(cfg, Inside(ded, p)) && StepLoops(cfg, sh, ded, p, ch).To?
    ensures WithinLimits(cfg, StepLoops(cfg, sh, ded, p, ch).pc)
  {
  }

  lemma OtherLimits(cfg: Config, sh: Shared, ded: bool, p: Point, ch: Choice)
    requires !p.Run? && !p.CtrlRun? && !p.Timers? && !p.Messages? && !p.Ports? && !p.MoreMessages?
    requires StepInside(cfg, sh, ded, p, ch).To?
    ensures WithinLimits(cfg, StepInside(cfg, sh, ded, p, ch).pc)
  {
  }

  lemma HandlerLimits(cfg: Config, sh: Shared, ded: bool, p: Point, ch: Choice)
    requires (p.Run? || p.CtrlRun?) && WithinLimits(cfg, Inside(ded, p)) && StepHandler(sh, ded, p, ch).To?
    ensures WithinLimits(cfg, StepHandler(sh, ded, p, ch).pc)
  {
  }

  lemma {:induction false} RunsKeepLimits(cfg: Config, ls: seq<Label>)
    requires Exec(cfg, ls).Next?
    ensures forall i :: 0 <= i < |Exec(cfg, ls).s.threads| ==> WithinLimits(cfg, Exec(cfg, ls).s.threads[i])
  {
    if ls != [] {
      var us, l := ls[..|ls| - 1], ls[|ls| - 1];
      var s := Exec(cfg, us).s;
      RunsKeepLimits(cfg, us);
      RunsKeepConfig(cfg, us);
      if l.Thread? {
        StepLimits(cfg, l.i, s.sh, s.threads[l.i], l.ch);
      }
    }
  }

  /** The thread at `pc` is about to take a control event, a timeout, a message or a port event. */
  predicate TakesControl(sh: Shared, pc: Pc) { pc.Inside? && pc.at.Ctrl? && sh.q.ctrl != [] }

  predicate TakesTimeout(cfg: Config, sh: Shared, pc: Pc) {
    pc.Inside? && pc.at.Timers? && pc.at.n < cfg.maxEvents && sh.q.timeouts != []
  }

  predicate TakesMessage(cfg: Config, sh: Shared, pc: Pc) {
    && pc.Inside? && sh.q.messages > 0
    && ((pc.at.Messages? && pc.at.n < cfg.maxMessages) || (pc.at.MoreMessages? && pc.at.n < cfg.maxEvents))
  }

  predicate TakesPort(cfg: Config, sh: Shared, pc: Pc, ch: Choice) {
    pc.Inside? && pc.at.Ports? && pc.at.n < cfg.maxEvents && sh.q.ports > 0 && ch != LeavePorts
  }

  /** What the step pushes. */
  function PushedControl(pc: Pc): seq<ControlEvent> {
    if pc.EnqPush? && pc.item.ControlItem? then [pc.item.event] else []
  }

  function PushedTimeout(pc: Pc): seq<nat> {
    if pc.EnqPush? && pc.item.TimeoutItem? then [pc.item.id] else []
  }

  function PushedMessages(pc: Pc): nat { ToNat(pc.EnqPush? && pc.item.MessageItem?) }

  function PushedPorts(pc: Pc): nat { ToNat(pc.EnqPush? && pc.item.PortItem?) }

  /** What the step takes. */
  function TakenControl(sh: Shared, pc: Pc): seq<ControlEvent> {
    if TakesControl(sh, pc) then [sh.q.ctrl[0]] else []
  }

  function TakenTimeout(cfg: Config, sh: Shared, pc: Pc): seq<nat> {
    if TakesTimeout(cfg, sh, pc) then [sh.q.timeouts[0]] else []
  }

  /** The ordered queues change at their ends only: what is taken leaves at the front, what is pushed joins at the back. */
  predicate SeqsMove(cfg: Config, sh: Shared, pc: Pc, sh': Shared) {
    && TakenControl(sh, pc) + sh'.q.ctrl == sh.q.ctrl + PushedControl(pc)
    && TakenTimeout(cfg, sh, pc) + sh'.q.timeouts == sh.q.timeouts + PushedTimeout(pc)
  }

  predicate CountsMove(cfg: Config, sh: Shared, pc: Pc, ch: Choice, sh': Shared) {
    && ToNat(TakesMessage(cfg, sh, pc)) + sh'.q.messages == sh.q.messages + PushedMessages(pc)
    && ToNat(TakesPort(cfg, sh, pc, ch)) + sh'.q.ports == sh.q.ports + PushedPorts(pc)
  }

  predicate QueuesMove(cfg: Config, sh: Shared, pc: Pc, ch: Choice, sh': Shared) {
    SeqsMove(cfg, sh, pc, sh') && CountsMove(cfg, sh, pc, ch, sh')
  }

  /** What was taken is handled next. */
  predicate HandlesTaken(cfg: Config, sh: Shared, pc: Pc, ch: Choice, sh': Shared, pc': Pc) {
    && (TakesControl(sh, pc) ==> pc' == Inside(pc.ded, CtrlSet(pc.at.n, sh.q.ctrl[0])))
    && (TakesTimeout(cfg, sh, pc) ==> FiresIff(sh, pc, sh', pc'))
    && (TakesMessage(cfg, sh, pc) ==> pc' == Inside(pc.ded, Run(pc.at.n, if pc.at.Messages? then InMessages else InMoreMessages)))
    && (TakesPort(cfg, sh, pc, ch) ==> pc' == Inside(pc.ded, Run(pc.at.n, InPorts(pc.at.rem))))
  }

  /** Each queue loses an item exactly in its loop, within the limit, from the front, for a handler that runs next. */
  predicate TakesExactly(cfg: Config, sh: Shared, pc: Pc, ch: Choice, sh': Shared, pc': Pc) {
    QueuesMove(cfg, sh, pc, ch, sh') && HandlesTaken(cfg, sh, pc, ch, sh', pc')
  }

  /** A timer action runs exactly if the handle is there, and that of a one-shot timer is gone then. */
  predicate FiresIff(sh: Shared, pc: Pc, sh': Shared, pc': Pc)
    requires pc.Inside? && pc.at.Timers? && sh.q.timeouts != []
  {
    var id := sh.q.timeouts[0];
    if id in sh.q.handles then pc' == Inside(pc.ded, Run(pc.at.n, InTimers)) && (id in sh'.q.handles <==> sh.q.handles[id].Periodic?)
    else pc' == Inside(pc.ded, Messages(pc.at.n))
  }

  /** Ordered queues that nobody touches. */
  lemma SeqsKept(cfg: Config, sh: Shared, pc: Pc, sh': Shared)
    requires !pc.EnqPush? && !TakesControl(sh, pc) && !TakesTimeout(cfg, sh, pc)
    requires sh'.q.ctrl == sh.q.ctrl && sh'.q.timeouts == sh.q.timeouts
    ensures SeqsMove(cfg, sh, pc, sh')
  {
    NothingPushed(sh.q);
  }

  lemma TimeoutTaken(cfg: Config, sh: Shared, pc: Pc, sh': Shared)
    requires TakesTimeout(cfg, sh, pc) && sh'.q.ctrl == sh.q.ctrl && sh'.q.timeouts == sh.q.timeouts[1..]
    ensures SeqsMove(cfg, sh, pc, sh')
  {
    NothingPushed(sh.q);
  }

  lemma TimersTake(cfg: Config, sh: Shared, ded: bool, n: nat, ch: Choice)
    requires StepLoops(cfg, sh, ded, Timers(n), ch).To?
    ensures var r := StepLoops(cfg, sh, ded, Timers(n), ch); TakesExactly(cfg, sh, Inside(ded, Timers(n)), ch, r.sh, r.pc)
  {
    var r, pc := StepLoops(cfg, sh, ded, Timers(n), ch), Inside(ded, Timers(n));
    if TakesTimeout(cfg, sh, pc) {
      TimeoutTaken(cfg, sh, pc, r.sh);
    } else {
      SeqsKept(cfg, sh, pc, r.sh);
    }
  }

  lemma MessagesTake(cfg: Config, sh: Shared, ded: bool, p: Point, ch: Choice)
    requires (p.Messages? || p.MoreMessages?) && StepLoops(cfg, sh, ded, p, ch).To?
    ensures var r := StepLoops(cfg, sh, ded, p, ch); TakesExactly(cfg, sh, Inside(ded, p), ch, r.sh, r.pc)
  {
    SeqsKept(cfg, sh, Inside(ded, p), StepLoops(cfg, sh, ded, p, ch).sh);
  }

  lemma PortsTake(cfg: Config, sh: Shared, ded: bool, p: Point, ch: Choice)
    requires p.Ports? && WithinLimits(cfg, Inside(ded, p)) && StepLoops(cfg, sh, ded, p, ch).To?
    ensures var r := StepLoops(cfg, sh, ded, p, ch); TakesExactly(cfg, sh, Inside(ded, p), ch, r.sh, r.pc)
  {
    SeqsKept(cfg, sh, Inside(ded, p), StepLoops(cfg, sh, ded, p, ch).sh);
  }

  lemma LoopsTake(cfg: Config, sh: Shared, ded: bool, p: Point, ch: Choice)
    requires p.Timers? || p.Messages? || p.Ports? || p.MoreMessages?
    requires WithinLimits(cfg, Inside(ded, p)) && StepLoops(cfg, sh, ded, p, ch).To?
    ensures var r := StepLoops(cfg, sh, ded, p, ch); TakesExactly(cfg, sh, Inside(ded, p), ch, r.sh, r.pc)
  {
    if p.Timers? {
      TimersTake(cfg, sh, ded, p.n, ch);
    } else if p.Ports? {
      PortsTake(cfg, sh, ded, p, ch);
    } else {
      MessagesTake(cfg, sh, ded, p, ch);
    }
  }

  lemma NothingPushed(q: Queues)
    ensures q.ctrl + [] == q.ctrl == [] + q.ctrl && q.timeouts + [] == q.timeouts == [] + q.timeouts
    ensures q.ctrl != [] ==> [q.ctrl[0]] + q.ctrl[1..] == q.ctrl
    ensures q.timeouts != [] ==> [q.timeouts[0]] + q.timeouts[1..] == q.timeouts
  {
  }

  lemma ControlTaken(cfg: Config, sh: Shared, pc: Pc, sh': Shared)
    requires TakesControl(sh, pc) && sh'.q.ctrl == sh.q.ctrl[1..] && sh'.q.timeouts == sh.q.timeouts
    ensures SeqsMove(cfg, sh, pc, sh')
  {
    NothingPushed(sh.q);
  }

  lemma ControlTakes(cfg: Config, sh: Shared, ded: bool, p: Point, ch: Choice)
    requires p.Ctrl? || p.CtrlSet? || p.CtrlDone? || p.CheckActive?
    requires StepControl(sh, ded, p).To?
    ensures var r := StepControl(sh, ded, p); TakesExactly(cfg, sh, Inside(ded, p), ch, r.sh, r.pc)
  {
    var r, pc := StepControl(sh, ded, p), Inside(ded, p);
    if TakesControl(sh, pc) {
      ControlTaken(cfg, sh, pc, r.sh);
    } else {
      SeqsKept(cfg, sh, pc, r.sh);
    }
  }

  /** Nothing is taken or pushed. */
  predicate SameQueues(q: Queues, q': Queues) {
    q.ctrl == q'.ctrl && q.timeouts == q'.timeouts && q.messages == q'.messages && q.ports == q'.ports
  }

  lemma HandlerTakesNothing(sh: Shared, ded: bool, p: Point, ch: Choice)
    requires (p.Run? || p.CtrlRun?) && StepHandler(sh, ded, p, ch).To?
    ensures SameQueues(sh.q, StepHandler(sh, ded, p, ch).sh.q)
  {
  }

  lemma PollTakesNothing(sh: Shared, ded: bool, p: Point, ch: Choice)
    requires (p.Gate? || p.Take? || p.Polling? || p.Applying? || p.Arm?) && StepPoll(sh, ded, p, ch).To?
    ensures SameQueues(sh.q, StepPoll(sh, ded, p, ch).sh.q)
  {
  }

  lemma EndTakesNothing(sh: Shared, ded: bool, p: Point, ch: Choice)
    requires p.Sub? || p.Failing? || p.Recovering? || p.KillSet? || p.KillRun? || p.KillDone? || p.Ret?
    requires StepEnd(sh, ded, p, ch).To?
    ensures SameQueues(sh.q, StepEnd(sh, ded, p, ch).sh.q)
  {
  }

  lemma OutsideTakesNothing(cfg: Config, me: nat, sh: Shared, pc: Pc, ch: Choice)
    requires !pc.Inside? && !pc.EnqPush? && Step(cfg, me, sh, pc, ch).To?
    ensures SameQueues(sh.q, Step(cfg, me, sh, pc, ch).sh.q)
  {
  }

  lemma OthersTakeNothing(cfg: Config, me: nat, sh: Shared, pc: Pc, ch: Choice)
    requires !pc.EnqPush? && (pc.Inside? ==> !pc.at.Timers? && !pc.at.Messages? && !pc.at.Ports? && !pc.at.MoreMessages?)
    requires pc.Inside? ==> !pc.at.Ctrl? && !pc.at.CtrlSet? && !pc.at.CtrlDone? && !pc.at.CheckActive?
    requires Step(cfg, me, sh, pc, ch).To?
    ensures SameQueues(sh.q, Step(cfg, me, sh, pc, ch).sh.q)
  {
    if !pc.Inside? {
      OutsideTakesNothing(cfg, me, sh, pc, ch);
    } else {
      var ded, p := pc.ded, pc.at;
      if p.CtrlRun? || p.Run? {
        HandlerTakesNothing(sh, ded, p, ch);
      } else if p.Gate? || p.Take? || p.Polling? || p.Applying? || p.Arm? {
        PollTakesNothing(sh, ded, p, ch);
      } else if !p.Polled? && !p.AfterSub? {
        EndTakesNothing(sh, ded, p, ch);
      }
    }
  }

  lemma PushedWhere(sh: Shared, item: Item)
    ensures PushItem(sh, item).q.ctrl == if item.ControlItem? then sh.q.ctrl + [item.event] else sh.q.ctrl
    ensures PushItem(sh, item).q.timeouts == if item.TimeoutItem? then sh.q.timeouts + [item.id] else sh.q.timeouts
  {
  }

  lemma EmptyEnds<T>(s: seq<T>, t: seq<T>, x: seq<T>)
    requires t == s + x
    ensures [] + t == s + x
  {
  }

  lemma SeqsPushed(cfg: Config, sh: Shared, pc: Pc)
    requires pc.EnqPush?
    ensures SeqsMove(cfg, sh, pc, PushItem(sh, pc.item))
  {
    PushedWhere(sh, pc.item);
    NothingPushed(sh.q);
    EmptyEnds(sh.q.ctrl, PushItem(sh, pc.item).q.ctrl, PushedControl(pc));
    EmptyEnds(sh.q.timeouts, PushItem(sh, pc.item).q.timeouts, PushedTimeout(pc));
  }

  lemma CountsPushed(cfg: Config, sh: Shared, pc: Pc, ch: Choice)
    requires pc.EnqPush?
    ensures CountsMove(cfg, sh, pc, ch, PushItem(sh, pc.item))
  {
  }

  lemma PushMoves(cfg: Config, sh: Shared, pc: Pc, ch: Choice)
    requires pc.EnqPush?
    ensures QueuesMove(cfg, sh, pc, ch, PushItem(sh, pc.item))
  {
    SeqsPushed(cfg, sh, pc);
    CountsPushed(cfg, sh, pc, ch);
  }

  lemma NothingMoves(cfg: Config, sh: Shared, pc: Pc, ch: Choice, sh': Shared, pc': Pc)
    requires !pc.EnqPush? && !TakesControl(sh, pc) && !TakesTimeout(cfg, sh, pc) && !TakesMessage(cfg, sh, pc) && !TakesPort(cfg, sh, pc, ch)
    requires SameQueues(sh.q, sh'.q)
    ensures TakesExactly(cfg, sh, pc, ch, sh', pc')
  {
    SeqsKept(cfg, sh, pc, sh');
    CountsKept(cfg, sh, pc, ch, sh');
  }

  lemma CountsKept(cfg: Config, sh: Shared, pc: Pc, ch: Choice, sh': Shared)
    requires !pc.EnqPush? && !TakesMessage(cfg, sh, pc) && !TakesPort(cfg, sh, pc, ch)
    requires sh'.q.messages == sh.q.messages && sh'.q.ports == sh.q.ports
    ensures CountsMove(cfg, sh, pc, ch, sh')
  {
  }

  lemma StepTakes(cfg: Config, me: nat, sh: Shared, pc: Pc, ch: Choice)
    requires WithinLimits(cfg, pc) && Step(cfg, me, sh, pc, ch).To?
    ensures var r := Step(cfg, me, sh, pc, ch); TakesExactly(cfg, sh, pc, ch, r.sh, r.pc)
  {
    if pc.EnqPush? {
      PushMoves(cfg, sh, pc, ch);
    } else if pc.Inside? && (pc.at.Timers? || pc.at.Messages? || pc.at.Ports? || pc.at.MoreMessages?) {
      LoopsTake(cfg, sh, pc.ded, pc.at, ch);
    } else if pc.Inside? && (pc.at.Ctrl? || pc.at.CtrlSet? || pc.at.CtrlDone? || pc.at.CheckActive?) {
      ControlTakes(cfg, sh, pc.ded, pc.at, ch);
    } else {
      OthersTakeNothing(cfg, me, sh, pc, ch);
      var r := Step(cfg, me, sh, pc, ch);
      NothingMoves(cfg, sh, pc, ch, r.sh, r.pc);
    }
  }

  /**
   Throughput: in every run an execution takes a timeout, message or port event exactly while its loop
   finds one and it has handled fewer than `maxEvents` items, or `maxMessages` in the first message
   loop; control events are taken without limit. Queues change at their ends only, and what was taken
   is handled next.
   */
  lemma ThroughputBound(cfg: Config, ls: seq<Label>, l: Label)
    requires Exec(cfg, ls).Next? && SystemStep(Exec(cfg, ls).s, l).Next?
    ensures var s, s' := Exec(cfg, ls).s, SystemStep(Exec(cfg, ls).s, l).s;
            if l.Thread? then TakesExactly(cfg, s.sh, s.threads[l.i], l.ch, s'.sh, s'.threads[l.i]) else s'.sh.q == s.sh.q
  {
    RunsKeepConfig(cfg, ls);
    RunsKeepLimits(cfg, ls);
    var s := Exec(cfg, ls).s;
    if l.Thread? {
      StepTakes(cfg, l.i, s.sh, s.threads[l.i], l.ch);
    }
  }

  // --- First in, first out ---

  /** The thread of a label and its state before, if the label is a step that can happen. */
  predicate IsStep(cfg: Config, us: seq<Label>, l: Label) {
    Exec(cfg, us).Next? && l.Thread? && l.i < |Exec(cfg, us).s.threads|
  }

  /** The control events and timeouts that the steps of a run pushed, and those they took, in order. */
  function AllPushed(cfg: Config, ls: seq<Label>): (seq<ControlEvent>, seq<nat>) {
    if ls == [] then ([], [])
    else
      var us, l := ls[..|ls| - 1], ls[|ls| - 1];
      var p := AllPushed(cfg, us);
      if !IsStep(cfg, us, l) then p
      else
        var pc := Exec(cfg, us).s.threads[l.i];
        (p.0 + PushedControl(pc), p.1 + PushedTimeout(pc))
  }

  function AllTaken(cfg: Config, ls: seq<Label>): (seq<ControlEvent>, seq<nat>) {
    if ls == [] then ([], [])
    else
      var us, l := ls[..|ls| - 1], ls[|ls| - 1];
      var p := AllTaken(cfg, us);
      if !IsStep(cfg, us, l) then p
      else
        var s := Exec(cfg, us).s;
        (p.0 + TakenControl(s.sh, s.threads[l.i]), p.1 + TakenTimeout(cfg, s.sh, s.threads[l.i]))
  }

  lemma Carry<T>(taken: seq<T>, q: seq<T>, pushed: seq<T>, t: seq<T>, q': seq<T>, p: seq<T>)
    requires taken + q == pushed && t + q' == q + p
    ensures (taken + t) + q' == pushed + p
  {
    assert (taken + t) + q' == taken + (t + q') == taken + (q + p) == (taken + q) + p;
  }

  /** In every run the control events and timeouts that wait are, in order, those pushed without those taken. */
  lemma {:induction false} QueuesAreFifo(cfg: Config, ls: seq<Label>)
    requires Exec(cfg, ls).Next?
    ensures AllTaken(cfg, ls).0 + Exec(cfg, ls).s.sh.q.ctrl == AllPushed(cfg, ls).0
    ensures AllTaken(cfg, ls).1 + Exec(cfg, ls).s.sh.q.timeouts == AllPushed(cfg, ls).1
  {
    if ls != [] {
      var us, l := ls[..|ls| - 1], ls[|ls| - 1];
      var s, s' := Exec(cfg, us).s, Exec(cfg, ls).s;
      QueuesAreFifo(cfg, us);
      ThroughputBound(cfg, us, l);
      if l.Thread? {
        var pc := s.threads[l.i];
        Carry(AllTaken(cfg, us).0, s.sh.q.ctrl, AllPushed(cfg, us).0, TakenControl(s.sh, pc), s'.sh.q.ctrl, PushedControl(pc));
        Carry(AllTaken(cfg, us).1, s.sh.q.timeouts, AllPushed(cfg, us).1, TakenTimeout(cfg, s.sh, pc), s'.sh.q.timeouts, PushedTimeout(pc));
      }
    }
  }

  // --- The order of the loops ---

  /** The parts of an execution, in their order. */
  datatype Stage = Control | Check | TimerLoop | MessageLoop | PortLoop | LastLoop | Subtracting

  function StageOf(pc: Pc): Option<Stage> {
    if !pc.Inside? then None
    else
      match pc.at
      case Ctrl(_) => Some(Control)
      case CtrlSet(_, _) => Some(Control)
      case CtrlRun(_, _) => Some(Control)
      case CtrlDone(_, _) => Some(Control)
      case CheckActive(_) => Some(Check)
      case Timers(_) => Some(TimerLoop)
      case Run(_, InTimers) => Some(TimerLoop)
      case Messages(_) => Some(MessageLoop)
      case Run(_, InMessages) => Some(MessageLoop)
      case Ports(_, _) => Some(PortLoop)
      case Run(_, InPorts(_)) => Some(PortLoop)
      case MoreMessages(_) => Some(LastLoop)
      case Run(_, InMoreMessages) => Some(LastLoop)
      case Sub(_) => Some(Subtracting)
      case _ => None
  }

  /** The stage is exhausted: `n` is the local count. */
  predicate Exhausted(cfg: Config, sh: Shared, stage: Stage, n: nat, ch: Choice) {
    match stage
    case Control => sh.q.ctrl == []
    case Check => true
    case TimerLoop => n >= cfg.maxEvents || sh.q.timeouts == [] || sh.q.timeouts[0] !in sh.q.handles
    case MessageLoop => n >= cfg.maxMessages || sh.q.messages == 0
    case PortLoop => n >= cfg.maxEvents || sh.q.ports == 0 || ch == LeavePorts
    case LastLoop => n >= cfg.maxEvents || sh.q.messages == 0
    case Subtracting => true
  }

  /** The stage after an exhausted one: an inactive component leaves at once, a used up throughput after the messages. */
  function Following(cfg: Config, flag: Flag, stage: Stage, n: nat): Stage {
    match stage
    case Control => Check
    case Check => if flag == Active then TimerLoop else Subtracting
    case TimerLoop => MessageLoop
    case MessageLoop => if n < cfg.maxEvents then PortLoop else Subtracting
    case PortLoop => LastLoop
    case LastLoop => Subtracting
    case Subtracting => Subtracting
  }

  predicate Looks(p: Point) {
    p.Ctrl? || p.CheckActive? || p.Timers? || p.Messages? || p.Ports? || p.MoreMessages?
  }

  predicate InHandler(pc: Pc) { pc.Inside? && (pc.at.Run? || pc.at.CtrlRun?) }

  /** Where a step leads: a loop goes on exactly while it is not exhausted, and handlers return to their loop. */
  predicate StageMoves(cfg: Config, sh: Shared, pc: Pc, ch: Choice, pc': Pc) {
    var stage := StageOf(pc);
    stage.Some? ==>
      if Looks(pc.at) then
        StageOf(pc') == Some(if Exhausted(cfg, sh, stage.value, pc.at.n, ch)
                             then Following(cfg, sh.word.flag, stage.value, pc.at.n) else stage.value)
      else if InHandler(pc) then
        StageOf(pc') == if !ch.Outcome? || (ch.result != Handled && ch.result != Benign) then None
                        else if ch.result == Benign && stage == Some(PortLoop) then Some(LastLoop)
                        else stage
      else StageOf(pc') == if pc.at.Sub? then None else stage
  }

  lemma ControlLooks(cfg: Config, sh: Shared, ded: bool, p: Point, ch: Choice)
    requires (p.Ctrl? || p.CheckActive?) && StepControl(sh, ded, p).To?
    ensures StageMoves(cfg, sh, Inside(ded, p), ch, StepControl(sh, ded, p).pc)
  {
  }

  lemma TimersLook(cfg: Config, sh: Shared, ded: bool, n: nat, ch: Choice)
    requires StepLoops(cfg, sh, ded, Timers(n), ch).To?
    ensures StageMoves(cfg, sh, Inside(ded, Timers(n)), ch, StepLoops(cfg, sh, ded, Timers(n), ch).pc)
  {
  }

  lemma LoopsLook(cfg: Config, sh: Shared, ded: bool, p: Point, ch: Choice)
    requires (p.Messages? || p.Ports? || p.MoreMessages?) && WithinLimits(cfg, Inside(ded, p))
    requires StepLoops(cfg, sh, ded, p, ch).To?
    ensures StageMoves(cfg, sh, Inside(ded, p), ch, StepLoops(cfg, sh, ded, p, ch).pc)
  {
  }

  lemma LooksMove(cfg: Config, sh: Shared, ded: bool, p: Point, ch: Choice)
    requires Looks(p) && WithinLimits(cfg, Inside(ded, p)) && StepInside(cfg, sh, ded, p, ch).To?
    ensures StageMoves(cfg, sh, Inside(ded, p), ch, StepInside(cfg, sh, ded, p, ch).pc)
  {
    if p.Ctrl? || p.CheckActive? {
      ControlLooks(cfg, sh, ded, p, ch);
    } else if p.Timers? {
      TimersLook(cfg, sh, ded, p.n, ch);
    } else {
      LoopsLook(cfg, sh, ded, p, ch);
    }
  }

  lemma HandlerMoves(cfg: Config, sh: Shared, ded: bool, p: Point, ch: Choice)
    requires (p.Run? || p.CtrlRun?) && WithinLimits(cfg, Inside(ded, p)) && StepHandler(sh, ded, p, ch).To?
    ensures StageMoves(cfg, sh, Inside(ded, p), ch, StepHandler(sh, ded, p, ch).pc)
  {
  }

  lemma StepStages(cfg: Config, me: nat, sh: Shared, pc: Pc, ch: Choice)
    requires WithinLimits(cfg, pc) && Step(cfg, me, sh, pc, ch).To?
    ensures StageMoves(cfg, sh, pc, ch, Step(cfg, me, sh, pc, ch).pc)
  {
    if pc.Inside? {
      if Looks(pc.at) {
        LooksMove(cfg, sh, pc.ded, pc.at, ch);
      } else if pc.at.Run? || pc.at.CtrlRun? {
        HandlerMoves(cfg, sh, pc.ded, pc.at, ch);
      }
    }
  }

  /** Every step of every run moves through the stages in this order. */
  lemma RunsFollowStages(cfg: Config, ls: seq<Label>, i: nat, ch: Choice)
    requires Exec(cfg, ls).Next? && i < |Exec(cfg, ls).s.threads|
    requires Step(cfg, i, Exec(cfg, ls).s.sh, Exec(cfg, ls).s.threads[i], ch).To?
    ensures var s := Exec(cfg, ls).s;
            StageMoves(cfg, s.sh, s.threads[i], ch, Step(cfg, i, s.sh, s.threads[i], ch).pc)
  {
    RunsKeepLimits(cfg, ls);
    StepStages(cfg, i, Exec(cfg, ls).s.sh, Exec(cfg, ls).s.threads[i], ch);
  }

  /**
   In every run, an execution of an Active component that goes on to subtract has used up its
   throughput or found no message left; in particular, one that handled nothing found no message.
   */
  lemma ActiveLeavesExhausted(cfg: Config, ls: seq<Label>, i: nat, ch: Choice)
    requires Exec(cfg, ls).Next? && i < |Exec(cfg, ls).s.threads|
    requires Step(cfg, i, Exec(cfg, ls).s.sh, Exec(cfg, ls).s.threads[i], ch).To?
    requires var pc' := Step(cfg, i, Exec(cfg, ls).s.sh, Exec(cfg, ls).s.threads[i], ch).pc; pc'.Inside? && pc'.at.Sub?
    requires Exec(cfg, ls).s.sh.word.flag == Active
    ensures var s := Exec(cfg, ls).s;
            var n := Step(cfg, i, s.sh, s.threads[i], ch).pc.at.n;
            && (n >= cfg.maxEvents || s.sh.q.messages == 0)
            && (n == 0 && cfg.maxEvents > 0 ==> s.sh.q.messages == 0)
  {
    var s := Exec(cfg, ls).s;
    RunsFollowStages(cfg, ls, i, ch);
    SubKeepsCount(cfg, i, s.sh, s.threads[i], ch);
  }

  /** Only the end of a loop leads to the subtraction, and with the same local count. */
  lemma SubKeepsCount(cfg: Config, me: nat, sh: Shared, pc: Pc, ch: Choice)
    requires Step(cfg, me, sh, pc, ch).To?
    requires var pc' := Step(cfg, me, sh, pc, ch).pc; pc'.Inside? && pc'.at.Sub?
    ensures pc.Inside? && Looks(pc.at) && pc.at.n == Step(cfg, me, sh, pc, ch).pc.at.n
  {
    if pc.Inside? && (pc.at.Run? || pc.at.CtrlRun?) {
      HandlersNeverSubtract(sh, pc.ded, pc.at, ch);
    }
  }

  lemma HandlersNeverSubtract(sh: Shared, ded: bool, p: Point, ch: Choice)
    requires (p.Run? || p.CtrlRun?) && StepHandler(sh, ded, p, ch).To?
    ensures var pc' := StepHandler(sh, ded, p, ch).pc; pc'.Inside? ==> !pc'.at.Sub?
  {
  }

  // --- Entering, scheduling, leaving ---

  /** A thread enters exactly a component that is neither Destroyed nor Faulty, and panics on a poisoned mutex. */
  lemma EntryIff(cfg: Config, me: nat, sh: Shared, ded: bool, ch: Choice)
    ensures var r := Step(cfg, me, sh, Entry(ded), ch);
            r == To(sh, if sh.word.flag == Destroyed || sh.word.flag == Faulty then Returned(ded, NoWork) else WaitLock(ded))
    ensures var r := Step(cfg, me, sh, WaitLock(ded), ch);
            && (r.To? <==> sh.core.lock.None?)
            && (r.To? ==> r.pc == (if sh.core.poisoned then Panicked(ded) else Inside(ded, Gate)))
            && (r.To? && !sh.core.poisoned ==> r.sh.core == sh.core.(lock := Some(me)))
  {
  }

  /** What a step does to pool tasks and to the park token of the dedicated thread. */
  function SchedAfter(cfg: Config, sched: Sched, pc: Pc): Sched {
    match pc
    case EnqSchedule(item) =>
      // timeouts and port events go to the pool even if the component has its own thread
      if cfg.dedicated && (item.ControlItem? || item.MessageItem?) then sched.(unpark := true)
      else sched.(tasks := sched.tasks + 1)
    case Returned(false, Schedule) => sched.(tasks := sched.tasks + 1)
    case Parked => sched.(unpark := false)
    case _ => sched
  }

  lemma StepSchedules(cfg: Config, me: nat, sh: Shared, pc: Pc, ch: Choice)
    requires Step(cfg, me, sh, pc, ch).To?
    ensures Step(cfg, me, sh, pc, ch).sh.sched == SchedAfter(cfg, sh.sched, pc)
  {
    if pc.Inside? {
      InsideSchedulesNothing(cfg, sh, pc.ded, pc.at, ch);
    }
  }

  lemma InsideSchedulesNothing(cfg: Config, sh: Shared, ded: bool, p: Point, ch: Choice)
    requires StepInside(cfg, sh, ded, p, ch).To?
    ensures StepInside(cfg, sh, ded, p, ch).sh.sched == sh.sched
  {
    if p.Run? || p.CtrlRun? {
      HandlerSchedulesNothing(sh, ded, p, ch);
    }
  }

  lemma HandlerSchedulesNothing(sh: Shared, ded: bool, p: Point, ch: Choice)
    requires (p.Run? || p.CtrlRun?) && StepHandler(sh, ded, p, ch).To?
    ensures StepHandler(sh, ded, p, ch).sh.sched == sh.sched
  {
  }

  /** Where a thread goes when its execution has returned: the dedicated loop goes on until stopped, a pool worker only to resume. */
  function AfterReturn(sh: Shared, ded: bool, d: Decision): Pc
    requires d != AlreadyScheduled
  {
    if ded then
      if sh.sched.stop || sh.word.flag == Destroyed then Exited
      else if d == Schedule || d == Resume then Entry(true) else Idle
    else if d == Resume then Entry(false) else Finished
  }

  lemma ReturnLeadsOn(cfg: Config, me: nat, sh: Shared, ded: bool, d: Decision, ch: Choice)
    requires d != AlreadyScheduled
    ensures var r := Step(cfg, me, sh, Returned(ded, d), ch); r.To? && r.pc == AfterReturn(sh, ded, d)
  {
  }

  /** An idle dedicated thread backs off and looks again, or parks; parked, it goes on exactly when it has been unparked. */
  lemma ParkedWakesIff(cfg: Config, me: nat, sh: Shared, ch: Choice)
    ensures var r := Step(cfg, me, sh, Idle, ch); r == To(sh, if ch == Snooze then Entry(true) else Parked)
    ensures var r := Step(cfg, me, sh, Parked, ch); (r.To? <==> sh.sched.unpark) && (r.To? ==> r.pc == Entry(true))
  {
  }

  /** A finished blocking future is followed by a resumption, never by a detour over the pool, exactly if work may be left. */
  lemma CompletedResumes(cfg: Config, me: nat, sh: Shared, ded: bool, p: Point, ch: Choice)
    requires (p.Polled? && p.mode == Resumed && p.end == Completed) || (p.AfterSub? && p.end == Completed && (p.decision == Schedule || p.decision == NoWork))
    ensures Step(cfg, me, sh, Inside(ded, p), ch)
      == To(sh, Inside(ded, Ret(if (if p.AfterSub? then p.decision == Schedule else Schedulable(sh.word.flag)) then Resume else NoWork)))
  {
  }
}
