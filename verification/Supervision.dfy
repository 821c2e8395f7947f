/** The component supervisor: children, listeners, and the shutdown it coordinates. */
module Supervision {
  import opened Options

  type Id = nat
  type Promise = nat

  datatype Kind = OnStarted | OnStopped | OnDestroyed

  datatype Listener = Listener(kind: Kind, promise: Promise)

  /** `unique` says whether the promise is the only reference, so that it can be unwrapped. */
  datatype Message =
    | Started(id: Id)
    | Stopped(id: Id)
    | Killed(id: Id)
    | Faulted(id: Id)
    | Listen(id: Id, l: Listener, unique: bool)
    | Shutdown(p: Promise, unique: bool)

  /** History of the listeners for one component. */
  datatype DeskLog = DeskLog(registered: seq<Listener>, completed: seq<Listener>, dropped: seq<Listener>)

  /** The listeners for one component: waiting, and what became of the others. */
  datatype Desk = Desk(pending: seq<Listener>, log: DeskLog)

  const EmptyDesk := Desk([], DeskLog([], [], []))

  /**
   `killed` are the components that were sent Kill since the pending shutdown was requested.
   `requested`, `done`, `replaced` and `recovered` are logs: shutdown promises taken, completed, and
   overwritten by a later request, and components whose recovery handler ran.
   */
  datatype State = State(children: set<Id>, desks: map<Id, Desk>, shutdown: Option<Promise>, killed: set<Id>,
                         requested: seq<Promise>, done: seq<Promise>, replaced: seq<Promise>, recovered: seq<Id>)

  const InitialState := State({}, map[], None, {}, [], [], [], [])

  function DeskOf(s: State, id: Id): Desk {
    if id in s.desks then s.desks[id] else EmptyDesk
  }

  function Select(ls: seq<Listener>, k: Kind, wanted: bool): seq<Listener> {
    if ls == [] then []
    else Select(ls[..|ls| - 1], k, wanted)
         + if (ls[|ls| - 1].kind == k) == wanted then [ls[|ls| - 1]] else []
  }

  function Notify(d: Desk, k: Kind): Desk {
    Desk(Select(d.pending, k, false), d.log.(completed := d.log.completed + Select(d.pending, k, true)))
  }

  function DropListeners(d: Desk): Desk {
    Desk([], d.log.(dropped := d.log.dropped + d.pending))
  }

  function Subscribe(d: Desk, l: Listener): Desk {
    Desk(d.pending + [l], d.log.(registered := d.log.registered + [l]))
  }

  function OnDesk(s: State, id: Id, d: Desk): State {
    s.(desks := s.desks[id := d])
  }

  function ClearListeners(s: State): State {
    s.(desks := map id | id in s.desks :: DropListeners(s.desks[id]))
  }

  /** `shutdown_if_no_more_children`. */
  function ShutdownIfNoMoreChildren(s: State): State {
    if s.shutdown.Some? && s.children == {}
    then ClearListeners(s.(shutdown := None, done := s.done + [s.shutdown.value]))
    else s
  }

  function Handle(s: State, m: Message): State {
    match m
    case Started(id) =>
      var s1 := OnDesk(s.(children := s.children + {id}), id, Notify(DeskOf(s, id), OnStarted));
      if s.shutdown.Some? then s1.(killed := s.killed + {id}) else s1
    case Stopped(id) => OnDesk(s, id, Notify(DeskOf(s, id), OnStopped))
    case Killed(id) =>
      ShutdownIfNoMoreChildren(
        if id in s.children
        then OnDesk(s.(children := s.children - {id}), id, DropListeners(Notify(DeskOf(s, id), OnDestroyed)))
        else s)
    case Faulted(id) =>
      var s1 := OnDesk(s.(children := s.children - {id}), id, DropListeners(DeskOf(s, id)));
      ShutdownIfNoMoreChildren(if s.shutdown.None? then s1.(recovered := s.recovered + [id]) else s1)
    case Listen(id, l, unique) => if unique then OnDesk(s, id, Subscribe(DeskOf(s, id), l)) else s
    case Shutdown(p, unique) =>
      if !unique then s
      else if s.children == {} then ClearListeners(s.(requested := s.requested + [p], done := s.done + [p]))
      else s.(shutdown := Some(p), killed := s.children, requested := s.requested + [p],
              replaced := s.replaced + if s.shutdown.Some? then [s.shutdown.value] else [])
  }

  function Run(ms: seq<Message>): State {
    if ms == [] then InitialState else Handle(Run(ms[..|ms| - 1]), ms[|ms| - 1])
  }

  // --- Shutdown ---

  predicate ShutdownOk(s: State) {
    && (s.shutdown.Some? ==> s.children != {} && s.children <= s.killed)
    && RequestsAccounted(s)
  }

  /** Every request is completed, replaced or pending. */
  predicate RequestsAccounted(s: State) {
    multiset(s.requested) == multiset(s.done) + multiset(s.replaced)
                             + if s.shutdown.Some? then multiset{s.shutdown.value} else multiset{}
  }

  lemma FinishShutdownOk(s: State)
    requires RequestsAccounted(s) && (s.shutdown.Some? ==> s.children <= s.killed)
    ensures ShutdownOk(ShutdownIfNoMoreChildren(s))
  {
    if s.shutdown.Some? && s.children == {} {
      assert multiset(s.done + [s.shutdown.value]) == multiset(s.done) + multiset{s.shutdown.value};
    }
  }

  lemma RequestShutdownOk(s: State, p: Promise)
    requires ShutdownOk(s)
    ensures ShutdownOk(Handle(s, Shutdown(p, true)))
  {
    assert multiset(s.requested + [p]) == multiset(s.requested) + multiset{p};
    if s.children == {} {
      assert multiset(s.done + [p]) == multiset(s.done) + multiset{p};
    } else if s.shutdown.Some? {
      assert multiset(s.replaced + [s.shutdown.value]) == multiset(s.replaced) + multiset{s.shutdown.value};
    }
  }

  lemma StepShutdownOk(s: State, m: Message)
    requires ShutdownOk(s)
    ensures ShutdownOk(Handle(s, m))
  {
    match m
    case Shutdown(p, unique) =>
      if unique {
        RequestShutdownOk(s, p);
      }
    case Killed(id) =>
      FinishShutdownOk(
        if id in s.children
        then OnDesk(s.(children := s.children - {id}), id, DropListeners(Notify(DeskOf(s, id), OnDestroyed)))
        else s);
    case Faulted(id) =>
      var s1 := OnDesk(s.(children := s.children - {id}), id, DropListeners(DeskOf(s, id)));
      FinishShutdownOk(if s.shutdown.None? then s1.(recovered := s.recovered + [id]) else s1);
    case _ =>
  }

  /** In every run: a pending shutdown has live children, all of them sent Kill; no request is lost or completed twice. */
  lemma {:induction false} ShutdownInvariant(ms: seq<Message>)
    ensures ShutdownOk(Run(ms))
  {
    if ms != [] {
      ShutdownInvariant(ms[..|ms| - 1]);
      StepShutdownOk(Run(ms[..|ms| - 1]), ms[|ms| - 1]);
    }
  }

  /** A shutdown promise completes only in a step that leaves no child, and one at a time. */
  lemma CompletesOnlyWithoutChildren(s: State, m: Message)
    requires ShutdownOk(s)
    ensures var s' := Handle(s, m);
            || s'.done == s.done
            || (s'.children == {} && s'.shutdown.None? && |s'.done| == |s.done| + 1
                && s'.done == s.done + [if m.Shutdown? then m.p else s.shutdown.value])
  {
  }

  /** While a shutdown is pending no recovery handler runs. */
  lemma NoRecoveryDuringShutdown(s: State, m: Message)
    requires s.shutdown.Some?
    ensures Handle(s, m).recovered == s.recovered
  {
  }

  /** The recovery handler of a faulted component runs exactly when no shutdown is pending. */
  lemma RecoveryIff(s: State, m: Message)
    ensures Handle(s, m).recovered == s.recovered + if m.Faulted? && s.shutdown.None? then [m.id] else []
  {
    assert s.recovered + [] == s.recovered;
  }

  predicate Requests(m: Message) { m.Shutdown? && m.unique }

  function CountRequests(ms: seq<Message>): nat {
    if ms == [] then 0 else CountRequests(ms[..|ms| - 1]) + if Requests(ms[|ms| - 1]) then 1 else 0
  }

  lemma {:induction false} RequestsCounted(ms: seq<Message>)
    ensures |Run(ms).requested| == CountRequests(ms)
  {
    if ms != [] {
      RequestsCounted(ms[..|ms| - 1]);
    }
  }

  /** With a single request: the promise is pending with children left, or completed exactly once, never lost. */
  lemma SingleShutdown(ms: seq<Message>, p: Promise)
    requires CountRequests(ms) == 1 && Run(ms).requested == [p]
    ensures var s := Run(ms);
            && (s.shutdown == Some(p) <==> s.done == [])
            && (s.shutdown.None? <==> s.done == [p])
            && (s.shutdown.Some? ==> s.children != {} && s.children <= s.killed)
  {
    ShutdownInvariant(ms);
    var s := Run(ms);
    assert multiset(s.requested) == multiset{p};
    assert |multiset(s.done)| == |s.done| && |multiset(s.replaced)| == |s.replaced|;
    assert |multiset{p}| == |s.done| + |s.replaced| + if s.shutdown.Some? then 1 else 0;
    SingleRequestReplacesNothing(ms);
    if s.done != [] {
      assert s.done[0] in multiset(s.done);
      assert s.done == [s.done[0]];
    }
  }

  lemma {:induction false} SingleRequestReplacesNothing(ms: seq<Message>)
    requires CountRequests(ms) <= 1
    ensures Run(ms).replaced == []
    ensures CountRequests(ms) == 0 ==> Run(ms).shutdown.None?
  {
    if ms != [] {
      SingleRequestReplacesNothing(ms[..|ms| - 1]);
    }
  }

  // --- Which components are children ---

  predicate Speaks(m: Message, id: Id) { (m.Started? || m.Killed? || m.Faulted?) && m.id == id }

  /** The last of the started, killed and faulted messages about `id` says that it started. */
  predicate Alive(ms: seq<Message>, id: Id) {
    ms != [] &&
    var m := ms[|ms| - 1];
    if Speaks(m, id) then m.Started? else Alive(ms[..|ms| - 1], id)
  }

  ghost predicate NoneAlive(ms: seq<Message>) { forall id :: !Alive(ms, id) }

  lemma StepChildren(s: State, m: Message, id: Id)
    ensures id in Handle(s, m).children <==> if Speaks(m, id) then m.Started? else id in s.children
  {
  }

  /** In every run the tracked children are exactly the components that are alive. */
  lemma {:induction false} ChildrenAreAlive(ms: seq<Message>, id: Id)
    ensures id in Run(ms).children <==> Alive(ms, id)
  {
    if ms != [] {
      ChildrenAreAlive(ms[..|ms| - 1], id);
      StepChildren(Run(ms[..|ms| - 1]), ms[|ms| - 1], id);
    }
  }

  lemma NoChildrenIff(ms: seq<Message>)
    ensures Run(ms).children == {} <==> NoneAlive(ms)
  {
    forall id
      ensures id in Run(ms).children <==> Alive(ms, id)
    {
      ChildrenAreAlive(ms, id);
    }
    if NoneAlive(ms) {
      assert forall id :: id !in Run(ms).children;
    } else {
      var id :| Alive(ms, id);
      assert id in Run(ms).children;
    }
  }

  /** A shutdown was requested within the first `n` messages, and after them nothing is alive. */
  ghost predicate QuietAt(ms: seq<Message>, n: nat)
    requires n <= |ms|
  {
    CountRequests(ms[..n]) > 0 && NoneAlive(ms[..n])
  }

  lemma {:induction false} DoneStays(ms: seq<Message>, n: nat)
    requires n <= |ms| && Run(ms[..n]).done != []
    ensures Run(ms).done != []
    decreases |ms|
  {
    if n == |ms| {
      assert ms[..n] == ms;
    } else {
      assert ms[..|ms| - 1][..n] == ms[..n];
      DoneStays(ms[..|ms| - 1], n);
      StepDoneStays(Run(ms[..|ms| - 1]), ms[|ms| - 1]);
    }
  }

  lemma StepDoneStays(s: State, m: Message)
    ensures s.done <= Handle(s, m).done
  {
  }

  lemma {:induction false} PrefixRequests(ms: seq<Message>, n: nat)
    requires n <= |ms|
    ensures CountRequests(ms[..n]) <= CountRequests(ms)
    decreases |ms|
  {
    if n == |ms| {
      assert ms[..n] == ms;
    } else {
      assert ms[..|ms| - 1][..n] == ms[..n];
      PrefixRequests(ms[..|ms| - 1], n);
    }
  }

  /** Without a request nothing completes. */
  lemma {:induction false} NoRequestNothingDone(ms: seq<Message>)
    requires CountRequests(ms) == 0
    ensures Run(ms).done == []
  {
    if ms != [] {
      NoRequestNothingDone(ms[..|ms| - 1]);
      SingleRequestReplacesNothing(ms[..|ms| - 1]);
    }
  }

  /** If the promise is done, it was done at a point where nothing was alive. */
  lemma {:induction false} DoneWhenQuiet(ms: seq<Message>) returns (n: nat)
    requires Run(ms).done != []
    ensures n <= |ms| && QuietAt(ms, n)
  {
    var us := ms[..|ms| - 1];
    ShutdownInvariant(us);
    if Run(us).done != [] {
      n := DoneWhenQuiet(us);
      assert us[..n] == ms[..n];
    } else {
      n := |ms|;
      assert ms[..n] == ms;
      CompletesOnlyWithoutChildren(Run(us), ms[|ms| - 1]);
      NoChildrenIff(ms);
      if CountRequests(ms) == 0 {
        NoRequestNothingDone(ms);
      }
    }
  }

  lemma QuietMeansDone(ms: seq<Message>, n: nat)
    requires n <= |ms| && CountRequests(ms) == 1 && QuietAt(ms, n)
    ensures Run(ms).done != []
  {
    var us := ms[..n];
    PrefixRequests(ms, n);
    RequestsCounted(us);
    NoChildrenIff(us);
    SingleShutdown(us, Run(us).requested[0]);
    DoneStays(ms, n);
  }

  /**
   With a single request the promise is completed exactly when, at some point from the request on,
   every component that ever started has been reported killed or faulty since.
   */
  lemma ShutdownCompletesIff(ms: seq<Message>)
    requires CountRequests(ms) == 1
    ensures Run(ms).done != [] <==> exists n :: 0 <= n <= |ms| && QuietAt(ms, n)
  {
    if Run(ms).done != [] {
      var n := DoneWhenQuiet(ms);
    }
    if exists n :: 0 <= n <= |ms| && QuietAt(ms, n) {
      var n :| 0 <= n <= |ms| && QuietAt(ms, n);
      QuietMeansDone(ms, n);
    }
  }

  /** While a shutdown is pending some component is alive, and every component that is alive was sent Kill since the request. */
  lemma PendingShutdownHasAlive(ms: seq<Message>)
    requires Run(ms).shutdown.Some?
    ensures !NoneAlive(ms) && forall id :: Alive(ms, id) ==> id in Run(ms).killed
  {
    ShutdownInvariant(ms);
    NoChildrenIff(ms);
    forall id | Alive(ms, id)
      ensures id in Run(ms).killed
    {
      ChildrenAreAlive(ms, id);
    }
  }

  // --- Who is sent Kill ---

  /** A shutdown is pending after these messages: some component was alive at the last request and at every point since. */
  ghost predicate Pending(ms: seq<Message>) {
    if ms == [] then false
    else
      var us, m := ms[..|ms| - 1], ms[|ms| - 1];
      if Requests(m) then !NoneAlive(us) else Pending(us) && !NoneAlive(ms)
  }

  /** The component was alive at the last request, or was reported started while a shutdown was pending. */
  ghost predicate Told(ms: seq<Message>, id: Id) {
    if ms == [] then false
    else
      var us, m := ms[..|ms| - 1], ms[|ms| - 1];
      if Requests(m) then Alive(us, id)
      else Told(us, id) || (m == Started(id) && Pending(us))
  }

  lemma StepPending(s: State, m: Message)
    requires ShutdownOk(s)
    ensures Handle(s, m).shutdown.Some?
            <==> if Requests(m) then s.children != {} else s.shutdown.Some? && Handle(s, m).children != {}
  {
  }

  /** In every run a shutdown is pending exactly when the messages say so. */
  lemma {:induction false} PendingIff(ms: seq<Message>)
    ensures Run(ms).shutdown.Some? <==> Pending(ms)
  {
    if ms != [] {
      var us := ms[..|ms| - 1];
      PendingIff(us);
      ShutdownInvariant(us);
      StepPending(Run(us), ms[|ms| - 1]);
      NoChildrenIff(us);
      NoChildrenIff(ms);
    }
  }

  /** Kill goes to the children at a request, and to a component that starts while a shutdown is pending; to nobody else. */
  lemma StepKills(s: State, m: Message)
    ensures Handle(s, m).killed
            == if Requests(m) && s.children != {} then s.children
               else if m.Started? && s.shutdown.Some? then s.killed + {m.id} else s.killed
    ensures Handle(s, m).killed != s.killed ==> Handle(s, m).shutdown.Some?
  {
  }

  /** While a shutdown is pending, exactly the components alive at the request or started since were sent Kill. */
  lemma {:induction false} KilledAreTold(ms: seq<Message>, id: Id)
    requires Run(ms).shutdown.Some?
    ensures id in Run(ms).killed <==> Told(ms, id)
  {
    var us, m := ms[..|ms| - 1], ms[|ms| - 1];
    ShutdownInvariant(us);
    StepPending(Run(us), m);
    StepKills(Run(us), m);
    PendingIff(us);
    if Requests(m) {
      ChildrenAreAlive(us, id);
    } else {
      KilledAreTold(us, id);
    }
  }

  /** Without a request nobody is sent Kill. */
  lemma {:induction false} NoRequestNoKill(ms: seq<Message>)
    requires CountRequests(ms) == 0
    ensures Run(ms).killed == {} && Run(ms).shutdown.None?
  {
    if ms != [] {
      NoRequestNoKill(ms[..|ms| - 1]);
      StepKills(Run(ms[..|ms| - 1]), ms[|ms| - 1]);
      SingleRequestReplacesNothing(ms);
    }
  }

  /** The promises that the messages ask to complete on shutdown, in order. */
  function Promises(ms: seq<Message>): seq<Promise> {
    if ms == [] then []
    else Promises(ms[..|ms| - 1]) + if Requests(ms[|ms| - 1]) then [ms[|ms| - 1].p] else []
  }

  lemma StepRequests(s: State, m: Message)
    ensures Handle(s, m).requested == s.requested + if Requests(m) then [m.p] else []
    ensures Handle(s, m).replaced
            == s.replaced + if Requests(m) && s.children != {} && s.shutdown.Some? then [s.shutdown.value] else []
    ensures Handle(s, m).shutdown.Some? ==>
              Handle(s, m).shutdown == if Requests(m) && s.children != {} then Some(m.p) else s.shutdown
  {
    assert s.requested + [] == s.requested && s.replaced + [] == s.replaced;
  }

  /** In every run exactly the promises of the requests are taken, and a pending one is the last of them. */
  lemma {:induction false} RequestedArePromises(ms: seq<Message>)
    ensures Run(ms).requested == Promises(ms)
    ensures Run(ms).shutdown.Some? ==> Promises(ms) != [] && Run(ms).shutdown.value == Promises(ms)[|Promises(ms)| - 1]
  {
    if ms != [] {
      RequestedArePromises(ms[..|ms| - 1]);
      StepRequests(Run(ms[..|ms| - 1]), ms[|ms| - 1]);
      ShutdownInvariant(ms[..|ms| - 1]);
      StepPending(Run(ms[..|ms| - 1]), ms[|ms| - 1]);
    }
  }

  // --- Listeners ---

  predicate Accounted(d: Desk) {
    multiset(d.log.registered) == multiset(d.pending) + multiset(d.log.completed) + multiset(d.log.dropped)
  }

  lemma {:induction false} SelectedKinds(ls: seq<Listener>, k: Kind, wanted: bool)
    ensures forall l :: l in Select(ls, k, wanted) ==> (l.kind == k) == wanted
  {
    if ls != [] {
      SelectedKinds(ls[..|ls| - 1], k, wanted);
    }
  }

  lemma Appended(ls: seq<Listener>, l: Listener)
    ensures multiset(ls + [l]) == multiset(ls) + multiset{l}
  {
  }

  lemma OneJoins(a: multiset<Listener>, b: multiset<Listener>, l: multiset<Listener>)
    ensures (a + l) + b == a + (b + l) == (a + b) + l
  {
  }

  lemma SelectGrows(ls: seq<Listener>, k: Kind, wanted: bool)
    requires ls != []
    ensures var front, last := ls[..|ls| - 1], ls[|ls| - 1];
            multiset(Select(ls, k, wanted))
            == multiset(Select(front, k, wanted)) + if (last.kind == k) == wanted then multiset{last} else multiset{}
  {
    Appended(Select(ls[..|ls| - 1], k, wanted), ls[|ls| - 1]);
  }

  lemma {:induction false} SelectSplits(ls: seq<Listener>, k: Kind)
    ensures multiset(Select(ls, k, true)) + multiset(Select(ls, k, false)) == multiset(ls)
  {
    if ls != [] {
      var front, last := ls[..|ls| - 1], ls[|ls| - 1];
      SelectSplits(front, k);
      assert ls == front + [last];
      Appended(front, last);
      SelectGrows(ls, k, true);
      SelectGrows(ls, k, false);
      OneJoins(multiset(Select(front, k, true)), multiset(Select(front, k, false)), multiset{last});
    }
  }

  lemma NotifyAccounted(d: Desk, k: Kind)
    requires Accounted(d)
    ensures Accounted(Notify(d, k))
  {
    SelectSplits(d.pending, k);
  }

  lemma DropAccounted(d: Desk)
    requires Accounted(d)
    ensures Accounted(DropListeners(d))
  {
  }

  lemma SubscribeAccounted(d: Desk, l: Listener)
    requires Accounted(d)
    ensures Accounted(Subscribe(d, l))
  {
  }

  ghost predicate AllAccounted(s: State) {
    forall id :: Accounted(DeskOf(s, id))
  }

  /** What a message does to the listeners of one component. */
  function DeskStep(d: Desk, id: Id, m: Message, tracked: bool): Desk {
    match m
    case Started(i) => if i == id then Notify(d, OnStarted) else d
    case Stopped(i) => if i == id then Notify(d, OnStopped) else d
    case Killed(i) => if i == id && tracked then DropListeners(Notify(d, OnDestroyed)) else d
    case Faulted(i) => if i == id then DropListeners(d) else d
    case Listen(i, l, unique) => if i == id && unique then Subscribe(d, l) else d
    case Shutdown(_, _) => d
  }

  /** Components do not interfere, except that completing a shutdown drops all listeners. */
  lemma HandleActsOnDesks(s: State, m: Message, id: Id)
    ensures var d := DeskStep(DeskOf(s, id), id, m, id in s.children);
            DeskOf(Handle(s, m), id) == if Handle(s, m).done != s.done then DropListeners(d) else d
  {
    assert DropListeners(EmptyDesk) == EmptyDesk;
  }

  lemma DeskStepAccounted(d: Desk, id: Id, m: Message, tracked: bool)
    requires Accounted(d)
    ensures Accounted(DeskStep(d, id, m, tracked))
  {
    match m
    case Started(_) => NotifyAccounted(d, OnStarted);
    case Stopped(_) => NotifyAccounted(d, OnStopped);
    case Killed(_) =>
      NotifyAccounted(d, OnDestroyed);
      DropAccounted(Notify(d, OnDestroyed));
    case Faulted(_) => DropAccounted(d);
    case Listen(_, l, _) => SubscribeAccounted(d, l);
    case Shutdown(_, _) =>
  }

  lemma StepAccounted(s: State, m: Message)
    requires AllAccounted(s)
    ensures AllAccounted(Handle(s, m))
  {
    forall id
      ensures Accounted(DeskOf(Handle(s, m), id))
    {
      var d := DeskOf(s, id);
      HandleActsOnDesks(s, m, id);
      DeskStepAccounted(d, id, m, id in s.children);
      DropAccounted(DeskStep(d, id, m, id in s.children));
    }
  }

  lemma {:induction false} ListenersAccounted(ms: seq<Message>)
    ensures AllAccounted(Run(ms))
  {
    if ms != [] {
      ListenersAccounted(ms[..|ms| - 1]);
      StepAccounted(Run(ms[..|ms| - 1]), ms[|ms| - 1]);
    }
  }

  /** The listeners that the messages subscribe for `id`, in order. */
  function Listened(ms: seq<Message>, id: Id): seq<Listener> {
    if ms == [] then []
    else
      var m := ms[|ms| - 1];
      Listened(ms[..|ms| - 1], id) + if m.Listen? && m.unique && m.id == id then [m.l] else []
  }

  lemma StepRegisters(s: State, m: Message, id: Id)
    ensures DeskOf(Handle(s, m), id).log.registered
            == DeskOf(s, id).log.registered + if m.Listen? && m.unique && m.id == id then [m.l] else []
  {
    HandleActsOnDesks(s, m, id);
    assert DeskOf(s, id).log.registered + [] == DeskOf(s, id).log.registered;
  }

  /** In every run exactly the listeners that were subscribed are registered. */
  lemma {:induction false} RegisteredAreListened(ms: seq<Message>, id: Id)
    ensures DeskOf(Run(ms), id).log.registered == Listened(ms, id)
  {
    if ms != [] {
      RegisteredAreListened(ms[..|ms| - 1], id);
      StepRegisters(Run(ms[..|ms| - 1]), ms[|ms| - 1], id);
    }
  }

  /** A listener registered once is in exactly one place: still pending, completed, or dropped. */
  lemma ListenerInExactlyOnePlace(ms: seq<Message>, id: Id, l: Listener)
    requires multiset(DeskOf(Run(ms), id).log.registered)[l] == 1
    ensures var d := DeskOf(Run(ms), id);
            && (l in d.pending || l in d.log.completed || l in d.log.dropped)
            && !(l in d.pending && l in d.log.completed)
            && !(l in d.pending && l in d.log.dropped)
            && !(l in d.log.completed && l in d.log.dropped)
  {
    ListenersAccounted(ms);
    var d := DeskOf(Run(ms), id);
    assert Accounted(d);
    assert multiset(d.pending)[l] + multiset(d.log.completed)[l] + multiset(d.log.dropped)[l] == 1;
  }

  /** The event that a message reports about a component. */
  predicate Reports(m: Message, id: Id, k: Kind) {
    match m
    case Started(i) => i == id && k == OnStarted
    case Stopped(i) => i == id && k == OnStopped
    case Killed(i) => i == id && k == OnDestroyed
    case _ => false
  }

  lemma SelectedCount(ls: seq<Listener>, k: Kind, l: Listener)
    ensures multiset(Select(ls, k, true))[l] == if l.kind == k then multiset(ls)[l] else 0
  {
    SelectSplits(ls, k);
    SelectedKinds(ls, k, true);
    SelectedKinds(ls, k, false);
    assert multiset(Select(ls, k, true))[l] + multiset(Select(ls, k, false))[l] == multiset(ls)[l];
    if l.kind == k {
      assert l !in Select(ls, k, false);
    } else {
      assert l !in Select(ls, k, true);
    }
  }

  /** The message completes the listeners of `id` that wait for `k`: it reports that, and a killed component was tracked. */
  predicate Fulfils(m: Message, id: Id, k: Kind, tracked: bool) {
    Reports(m, id, k) && (m.Killed? ==> tracked)
  }

  /** The listeners that were completed between two states of a desk. */
  function NewlyCompleted(d: Desk, d': Desk): seq<Listener>
    requires |d.log.completed| <= |d'.log.completed|
  {
    d'.log.completed[|d.log.completed|..]
  }

  lemma NotifyCompletes(d: Desk, k: Kind, l: Listener)
    ensures d.log.completed <= Notify(d, k).log.completed
    ensures multiset(NewlyCompleted(d, Notify(d, k)))[l] == if l.kind == k then multiset(d.pending)[l] else 0
  {
    assert NewlyCompleted(d, Notify(d, k)) == Select(d.pending, k, true);
    SelectedCount(d.pending, k, l);
  }

  lemma DeskStepCompletes(d: Desk, id: Id, m: Message, tracked: bool, l: Listener)
    ensures var d' := DeskStep(d, id, m, tracked);
            && d.log.completed <= d'.log.completed
            && multiset(NewlyCompleted(d, d'))[l] == if Fulfils(m, id, l.kind, tracked) then multiset(d.pending)[l] else 0
  {
    match m
    case Started(_) => NotifyCompletes(d, OnStarted, l);
    case Stopped(_) => NotifyCompletes(d, OnStopped, l);
    case Killed(_) => NotifyCompletes(d, OnDestroyed, l);
    case _ =>
  }

  /**
   A message completes exactly the pending listeners that wait for what it reports about their
   component: all of them, as often as they were registered, and no others.
   */
  lemma CompletedByMatchingEvent(s: State, m: Message, id: Id, l: Listener)
    ensures var d, d' := DeskOf(s, id), DeskOf(Handle(s, m), id);
            && d.log.completed <= d'.log.completed
            && multiset(NewlyCompleted(d, d'))[l]
               == if Fulfils(m, id, l.kind, id in s.children) then multiset(d.pending)[l] else 0
  {
    HandleActsOnDesks(s, m, id);
    DeskStepCompletes(DeskOf(s, id), id, m, id in s.children, l);
  }

  lemma UnselectedCount(ls: seq<Listener>, k: Kind, l: Listener)
    ensures multiset(Select(ls, k, false))[l] == if l.kind == k then 0 else multiset(ls)[l]
  {
    SelectSplits(ls, k);
    SelectedCount(ls, k, l);
    assert multiset(Select(ls, k, true))[l] + multiset(Select(ls, k, false))[l] == multiset(ls)[l];
  }

  /** The message ends all waiting for `id`: it died, or the shutdown that it completes drops everybody. */
  predicate Clears(s: State, m: Message, id: Id) {
    m == Faulted(id) || (m == Killed(id) && id in s.children) || Handle(s, m).done != s.done
  }

  lemma DeskStepLeaves(d: Desk, id: Id, m: Message, tracked: bool, l: Listener)
    ensures multiset(DeskStep(d, id, m, tracked).pending)[l]
            == if m == Faulted(id) || (m == Killed(id) && tracked) || Fulfils(m, id, l.kind, tracked) then 0
               else multiset(d.pending)[l] + if m.Listen? && m.unique && m.id == id && m.l == l then 1 else 0
  {
    match m
    case Started(_) => UnselectedCount(d.pending, OnStarted, l);
    case Stopped(_) => UnselectedCount(d.pending, OnStopped, l);
    case Listen(_, x, _) => Appended(d.pending, x);
    case _ =>
  }

  /** Which listeners wait after a message: nobody where waiting ends, otherwise those not served, and the new one. */
  lemma StillPending(s: State, m: Message, id: Id, l: Listener)
    ensures multiset(DeskOf(Handle(s, m), id).pending)[l]
            == if Clears(s, m, id) || Fulfils(m, id, l.kind, id in s.children) then 0
               else multiset(DeskOf(s, id).pending)[l] + if m.Listen? && m.unique && m.id == id && m.l == l then 1 else 0
  {
    HandleActsOnDesks(s, m, id);
    DeskStepLeaves(DeskOf(s, id), id, m, id in s.children, l);
  }

  // --- The supervisor as an object ---

  class ComponentSupervisor {
    var children: set<Id>
    var listeners: map<Id, seq<Listener>>
    var shutdown: Option<Promise>

    ghost var logs: map<Id, DeskLog>
    ghost var killed: set<Id>
    ghost var requested: seq<Promise>
    ghost var done: seq<Promise>
    ghost var replaced: seq<Promise>
    ghost var recovered: seq<Id>

    ghost function LogOf(id: Id): DeskLog
      reads this`logs
    {
      if id in logs then logs[id] else EmptyDesk.log
    }

    ghost function View(id: Id): Desk
      reads this`listeners, this`logs
    {
      Desk(if id in listeners then listeners[id] else [], LogOf(id))
    }

    /** This object is in the state `s`, as far as any message can tell. */
    ghost predicate Shows(s: State)
      reads this
    {
      && s == State(children, s.desks, shutdown, killed, requested, done, replaced, recovered)
      && forall id :: View(id) == DeskOf(s, id)
    }

    constructor ()
      ensures Shows(InitialState)
    {
      children, listeners, shutdown := {}, map[], None;
      logs, killed, requested, done, replaced, recovered := map[], {}, [], [], [], [];
    }

    /** Partition the listeners of `id`, keep the unselected ones, complete the selected ones. */
    method NotifyListeners(id: Id, k: Kind)
      modifies this`listeners, this`logs
      ensures View(id) == Notify(old(View(id)), k)
      ensures forall i :: i != id ==> View(i) == old(View(i))
    {
      if id !in listeners {
        assert View(id).log.completed + [] == View(id).log.completed;
        return;
      }
      var l := listeners[id];
      var selected: seq<Listener>, unselected: seq<Listener> := [], [];
      var i := 0;
      while i < |l|
        invariant i <= |l|
        invariant selected == Select(l[..i], k, true) && unselected == Select(l[..i], k, false)
      {
        assert l[..i + 1][..i] == l[..i];
        if l[i].kind == k {
          selected := selected + [l[i]];
        } else {
          unselected := unselected + [l[i]];
        }
        i := i + 1;
      }
      assert l[..i] == l;
      listeners := listeners[id := unselected];
      logs := logs[id := LogOf(id).(completed := LogOf(id).completed + selected)];
    }

    method AddListener(id: Id, l: Listener)
      modifies this`listeners, this`logs
      ensures View(id) == Subscribe(old(View(id)), l)
      ensures forall i :: i != id ==> View(i) == old(View(i))
    {
      listeners := listeners[id := (if id in listeners then listeners[id] else []) + [l]];
      logs := logs[id := LogOf(id).(registered := LogOf(id).registered + [l])];
    }

    method DropListenersOf(id: Id)
      modifies this`listeners, this`logs
      ensures View(id) == DropListeners(old(View(id)))
      ensures forall i :: i != id ==> View(i) == old(View(i))
    {
      logs := logs[id := LogOf(id).(dropped := LogOf(id).dropped + View(id).pending)];
      listeners := listeners - {id};
    }

    method ClearAll()
      modifies this`listeners, this`logs
      ensures forall i :: View(i) == DropListeners(old(View(i)))
    {
      logs := map i | i in logs.Keys + listeners.Keys :: LogOf(i).(dropped := LogOf(i).dropped + View(i).pending);
      listeners := map[];
      assert DropListeners(EmptyDesk) == EmptyDesk;
    }

    /** Completes the shutdown promise once no child is left. */
    method CompleteIfNoMoreChildren(ghost s: State)
      requires Shows(s)
      modifies this`listeners, this`logs, this`shutdown, this`done
      ensures Shows(ShutdownIfNoMoreChildren(s))
    {
      if shutdown.Some? && children == {} {
        done := done + [shutdown.value];
        shutdown := None;
        ClearAll();
        assert DropListeners(EmptyDesk) == EmptyDesk;
      }
    }

    /** Ask every child to stop, one after the other. */
    method KillChildren()
      modifies this`killed
      ensures killed == children
    {
      killed := {};
      var rest := children;
      while rest != {}
        invariant rest <= children && killed == children - rest
        decreases rest
      {
        var child :| child in rest;
        killed := killed + {child};
        rest := rest - {child};
      }
    }

    method OnKilled(id: Id, ghost s: State)
      requires Shows(s)
      modifies this`children, this`listeners, this`logs, this`shutdown, this`done
      ensures Shows(Handle(s, Killed(id)))
    {
      if id in children {
        children := children - {id};
        NotifyListeners(id, OnDestroyed);
        DropListenersOf(id);
        CompleteIfNoMoreChildren(
          OnDesk(s.(children := children), id, DropListeners(Notify(DeskOf(s, id), OnDestroyed))));
      } else {
        CompleteIfNoMoreChildren(s);
      }
    }

    method OnFaulted(id: Id, ghost s: State)
      requires Shows(s)
      modifies this`children, this`listeners, this`logs, this`shutdown, this`done, this`recovered
      ensures Shows(Handle(s, Faulted(id)))
    {
      DropListenersOf(id);
      children := children - {id};
      if shutdown.None? {
        recovered := recovered + [id];
      }
      CompleteIfNoMoreChildren(
        OnDesk(s.(children := children, recovered := recovered), id, DropListeners(DeskOf(s, id))));
    }

    method OnShutdown(p: Promise, ghost s: State)
      requires Shows(s)
      modifies this
      ensures Shows(Handle(s, Shutdown(p, true)))
    {
      requested := requested + [p];
      if children == {} {
        done := done + [p];
        ClearAll();
        assert DropListeners(EmptyDesk) == EmptyDesk;
      } else {
        replaced := replaced + if shutdown.Some? then [shutdown.value] else [];
        shutdown := Some(p);
        KillChildren();
      }
    }

    /** Simulation: if the object shows `s`, then after `m` it shows `Handle(s, m)`. */
    method HandleMessage(m: Message, ghost s: State)
      requires Shows(s)
      modifies this
      ensures Shows(Handle(s, m))
    {
      match m
      case Started(id) =>
        children := children + {id};
        NotifyListeners(id, OnStarted);
        if shutdown.Some? {
          killed := killed + {id};
        }
      case Stopped(id) => NotifyListeners(id, OnStopped);
      case Killed(id) => OnKilled(id, s);
      case Faulted(id) => OnFaulted(id, s);
      case Listen(id, l, unique) =>
        if unique {
          AddListener(id, l);
        }
      case Shutdown(p, unique) =>
        if unique {
          OnShutdown(p, s);
        }
    }
  }
}
