/** The queue manager and the connection machine of the network dispatcher, as the maps they keep. */
module NetworkDispatch {
  import opened Options
  import opened DispatcherLinks

  type Addr = nat

  function Get<T>(m: map<Addr, seq<T>>, a: Addr): seq<T> {
    if a in m then m[a] else []
  }

  function Find<T>(m: map<Addr, T>, a: Addr): Option<T> {
    if a in m then Some(m[a]) else None
  }

  /** Two maps of deques that act as one queue per address. */
  class QueueManager {
    var inner: map<Addr, seq<Frame>>
    var priority: map<Addr, seq<Frame>>

    ghost function High(a: Addr): seq<Frame> reads this { Get(priority, a) }
    ghost function Low(a: Addr): seq<Frame> reads this { Get(inner, a) }

    constructor ()
      ensures forall a :: High(a) == [] && Low(a) == []
    {
      inner, priority := map[], map[];
    }

    method EnqueueData(f: Frame, dst: Addr)
      modifies this
      ensures forall a :: High(a) == old(High(a)) && Low(a) == old(Low(a)) + if a == dst then [f] else []
    {
      inner := inner[dst := (if dst in inner then inner[dst] else []) + [f]];
    }

    method EnqueuePriorityData(f: Frame, dst: Addr)
      modifies this
      ensures forall a :: Low(a) == old(Low(a)) && High(a) == old(High(a)) + if a == dst then [f] else []
    {
      priority := priority[dst := (if dst in priority then priority[dst] else []) + [f]];
    }

    /** Pops the first frame of the priority queue, or else of the ordinary one; empty queues are removed. */
    method PopData(dst: Addr) returns (r: Option<Frame>)
      modifies this
      ensures r.None? <==> old(High(dst)) == [] && old(Low(dst)) == []
      ensures old(High(dst)) != [] ==> old(High(dst)) == [r.value] + High(dst) && Low(dst) == old(Low(dst))
      ensures old(High(dst)) == [] && r.Some? ==> old(Low(dst)) == [r.value] + Low(dst) && High(dst) == []
      ensures forall a :: a != dst || r.None? ==> High(a) == old(High(a)) && Low(a) == old(Low(a))
    {
      r := None;
      if dst in priority && priority[dst] != [] {
        r := Some(priority[dst][0]);
        priority := priority[dst := priority[dst][1..]];
        assert old(High(dst)) == [r.value] + High(dst);
      }
      if dst in priority && r.None? {
        priority := priority - {dst};
      }
      if r.None? {
        if dst in inner && inner[dst] != [] {
          r := Some(inner[dst][0]);
          inner := inner[dst := inner[dst][1..]];
          assert old(Low(dst)) == [r.value] + Low(dst);
        }
        if dst in inner && r.None? {
          inner := inner - {dst};
        }
      }
    }

    method DropQueue(addr: Addr)
      modifies this
      ensures forall a :: High(a) == (if a == addr then [] else old(High(a))) && Low(a) == if a == addr then [] else old(Low(a))
    {
      priority := priority - {addr};
      inner := inner - {addr};
    }

    method HasData(dst: Addr) returns (b: bool)
      ensures b <==> High(dst) + Low(dst) != []
    {
      b := (dst in priority && priority[dst] != []) || (dst in inner && inner[dst] != []);
    }
  }

  /** One frame leaves the queue, taken by the bridge or lost. */
  function PopOne(l: Link, taken: bool): Link
    requires Queue(l) != []
  {
    l.(high := if l.high != [] then l.high[1..] else [],
       low := if l.high != [] then l.low else l.low[1..],
       log := Handed(l.log, Queue(l)[0], taken))
  }

  lemma DrainNothing(l: Link, intake: Intake)
    ensures Drain(l, 0, intake) == l
  {
    assert l.log.sent + [] == l.log.sent && l.log.lost + [] == l.log.lost;
  }

  lemma PartOneMore(s: seq<Frame>, q: seq<Frame>, k: nat, intake: Intake, taken: bool)
    requires k < |q|
    ensures s + Part(q[..k + 1], intake, taken)
      == s + Part(q[..k], intake, taken) + if intake.Accepts(k) == taken then [q[k]] else []
  {
    assert q[..k + 1][..k] == q[..k] && q[..k + 1][k] == q[k];
    var part := Part(q[..k], intake, taken);
    assert s + (part + [q[k]]) == s + part + [q[k]] && s + (part + []) == s + part + [];
  }

  lemma LogOneMore(log: Log, q: seq<Frame>, k: nat, intake: Intake)
    requires k < |q|
    ensures Handed(log.Send(Part(q[..k], intake, true)).Lose(Part(q[..k], intake, false)), q[k], intake.Accepts(k))
      == log.Send(Part(q[..k + 1], intake, true)).Lose(Part(q[..k + 1], intake, false))
  {
    PartOneMore(log.sent, q, k, intake, true);
    PartOneMore(log.lost, q, k, intake, false);
  }

  lemma PopQueues(l: Link, k: nat, intake: Intake)
    requires k < |Queue(l)|
    ensures var d, d' := Drain(l, k, intake), Drain(l, k + 1, intake);
      && Queue(d) == Queue(l)[k..] && Queue(d)[0] == Queue(l)[k]
      && d'.high == (if d.high != [] then d.high[1..] else [])
      && d'.low == if d.high != [] then d.low else d.low[1..]
  {
    DrainQueue(l, k, intake);
  }

  /** Handing out `k` frames and then one more is handing out `k + 1`. */
  lemma DrainOneMore(l: Link, k: nat, intake: Intake)
    requires k < |Queue(l)|
    ensures var d := Drain(l, k, intake);
            Queue(d) == Queue(l)[k..] && PopOne(d, intake.Accepts(k)) == Drain(l, k + 1, intake)
  {
    PopQueues(l, k, intake);
    LogOneMore(l.log, Queue(l), k, intake);
  }

  /** A retry tick for `a`: it routes no frames, and its dial is refused or not. */
  function Dialling(a: Addr, refused: set<Addr>): Channel { Channel(Nothing, a !in refused) }

  class NetworkDispatcher {
    var connections: map<Addr, Connection>
    var retryMap: map<Addr, nat>
    const queues: QueueManager
    var hasBridge: bool
    const maxRetries: nat

    /** What was handed to or came back from the bridge, per address. */
    ghost var logs: map<Addr, Log>

    ghost function LogOf(a: Addr): Log
      reads this`logs
    {
      if a in logs then logs[a] else FreshLog
    }

    /** The link to one address. */
    ghost function View(a: Addr): Link
      reads this, queues
    {
      Link(Find(connections, a), Find(retryMap, a), queues.High(a), queues.Low(a), LogOf(a))
    }

    constructor (max: nat)
      ensures maxRetries == max && hasBridge && fresh(queues)
      ensures forall a :: View(a) == FreshLink
    {
      connections, retryMap := map[], map[];
      queues := new QueueManager();
      hasBridge, maxRetries := true, max;
      logs := map[];
    }

    /** `bridge.route`, which takes the frame or returns an error. */
    method Route(addr: Addr, f: Frame, taken: bool)
      modifies this`logs
      ensures View(addr) == old(View(addr)).(log := Handed(old(LogOf(addr)), f, taken))
      ensures forall b :: b != addr ==> View(b) == old(View(b))
    {
      logs := logs[addr := Handed(LogOf(addr), f, taken)];
    }

    /** One round of a drain loop. */
    method PopAndRoute(addr: Addr, taken: bool)
      requires Queue(View(addr)) != []
      modifies this`logs, queues
      ensures View(addr) == PopOne(old(View(addr)), taken)
      ensures forall b :: b != addr ==> View(b) == old(View(b))
    {
      ghost var l := View(addr);
      var frame := queues.PopData(addr);
      assert Queue(l)[0] == frame.value;
      Route(addr, frame.value, taken);
    }

    method Enqueue(addr: Addr, f: Frame)
      modifies this`logs, queues
      ensures View(addr) == Enqueued(old(View(addr)), f)
      ensures forall b :: b != addr ==> View(b) == old(View(b))
    {
      queues.EnqueueData(f, addr);
      logs := logs[addr := LogOf(addr).Accept(f)];
    }

    /** `bridge.connect`. */
    method Dial(addr: Addr, ch: Channel) returns (ok: bool)
      modifies this`logs
      ensures ok == ch.dials
      ensures View(addr) == old(View(addr)).(log := if ok then old(LogOf(addr)).Dial() else old(LogOf(addr)))
      ensures forall b :: b != addr ==> View(b) == old(View(b))
    {
      ok := ch.dials;
      if ok {
        logs := logs[addr := LogOf(addr).Dial()];
      }
    }

    method RouteRemoteTcp(addr: Addr, f: Frame, ch: Channel) returns (panicked: bool)
      modifies this`connections, this`retryMap, this`logs, queues
      ensures var r := RouteTcp(old(View(addr)), f, hasBridge, ch);
              (panicked <==> r.Panic?) && (r.Done? ==> View(addr) == r.link)
      ensures forall b :: b != addr ==> View(b) == old(View(b))
    {
      panicked := false;
      var state := if addr in connections then connections[addr] else New;
      match state
      case New => panicked := RouteNew(addr, f, ch);
      case Connected(_) => RouteConnected(addr, f, ch);
      case Initializing => Enqueue(addr, f);
      case Closed(_) => RouteClosed(addr, f, ch);
      case Lost(_) => Enqueue(addr, f);
      case Blocked =>
    }

    /** `route_remote_tcp` on an address without connection: the first dial. */
    method RouteNew(addr: Addr, f: Frame, ch: Channel) returns (panicked: bool)
      requires addr in connections ==> connections[addr].New?
      modifies this`connections, this`retryMap, this`logs, queues
      ensures var r := RouteTcp(old(View(addr)), f, hasBridge, ch);
              (panicked <==> r.Panic?) && (r.Done? ==> View(addr) == r.link)
      ensures forall b :: b != addr ==> View(b) == old(View(b))
    {
      panicked := false;
      Enqueue(addr, f);
      connections := connections[addr := New];
      if hasBridge {
        retryMap := retryMap[addr := 0];
        var ok := Dial(addr, ch);
        panicked := !ok;
        if ok {
          assert forall b :: b != addr ==> View(b) == old(View(b));
          connections := connections[addr := Initializing];
        }
      }
    }

    /** `route_remote_tcp` on a closed connection: dial again, keeping a running counter. */
    method RouteClosed(addr: Addr, f: Frame, ch: Channel)
      requires addr in connections && connections[addr].Closed?
      modifies this`connections, this`retryMap, this`logs, queues
      ensures RouteTcp(old(View(addr)), f, hasBridge, ch) == Done(View(addr))
      ensures forall b :: b != addr ==> View(b) == old(View(b))
    {
      Enqueue(addr, f);
      var ok := true;
      if hasBridge {
        retryMap := if addr in retryMap then retryMap else retryMap[addr := 0];
        ok := Dial(addr, ch);
      }
      if ok {
        assert forall b :: b != addr ==> View(b) == old(View(b));
        connections := connections[addr := Initializing];
      }
    }

    /** `route_remote_tcp` on a connected address: behind queued frames if there are any. */
    method RouteConnected(addr: Addr, f: Frame, ch: Channel)
      requires addr in connections && connections[addr].Connected?
      modifies this`logs, queues
      ensures RouteTcp(old(View(addr)), f, hasBridge, ch) == Done(View(addr))
      ensures forall b :: b != addr ==> View(b) == old(View(b))
    {
      var waiting := queues.HasData(addr);
      if waiting {
        Enqueue(addr, f);
        if hasBridge {
          RouteAllOrFail(addr, ch);
        }
      } else {
        logs := logs[addr := LogOf(addr).Accept(f)];
        Route(addr, f, hasBridge && ch.frames.Accepts(0));
      }
    }

    /** One round of a drain loop that has handed out `k` frames of the link `l`. */
    method DrainRound(addr: Addr, ghost l: Link, k: nat, intake: Intake) returns (more: bool)
      requires k < |Queue(l)| && View(addr) == Drain(l, k, intake)
      modifies this`logs, queues
      ensures View(addr) == Drain(l, k + 1, intake)
      ensures more <==> k + 1 < |Queue(l)|
      ensures forall b :: b != addr ==> View(b) == old(View(b))
    {
      DrainOneMore(l, k, intake);
      PopAndRoute(addr, intake.Accepts(k));
      DrainQueue(l, k + 1, intake);
      more := queues.HasData(addr);
    }

    /** The drain loop of `route_remote_tcp`: the first refused frame ends it, already popped. */
    method RouteAllOrFail(addr: Addr, ch: Channel)
      modifies this`logs, queues
      ensures var l := old(View(addr)); View(addr) == Drain(l, Attempts(|Queue(l)|, ch.frames), ch.frames)
      ensures forall b :: b != addr ==> View(b) == old(View(b))
    {
      ghost var l := View(addr);
      var k := 0;
      var more := queues.HasData(addr);
      DrainNothing(l, ch.frames);
      while more
        invariant k <= |Queue(l)| && AcceptsAll(ch.frames, k)
        invariant View(addr) == Drain(l, k, ch.frames)
        invariant more <==> k < |Queue(l)|
        invariant forall b :: b != addr ==> View(b) == old(View(b))
        decreases |Queue(l)| - k
      {
        more := DrainRound(addr, l, k, ch.frames);
        k := k + 1;
        if !ch.frames.Accepts(k - 1) {
          return;
        }
      }
    }

    /** The drain loops of `connection_established` and `close_channel`: refused frames are logged and dropped. */
    method RouteAll(addr: Addr, intake: Intake)
      modifies this`logs, queues
      ensures View(addr) == Drain(old(View(addr)), |Queue(old(View(addr)))|, intake)
      ensures forall b :: b != addr ==> View(b) == old(View(b))
    {
      ghost var l := View(addr);
      var k := 0;
      var more := queues.HasData(addr);
      DrainNothing(l, intake);
      while more
        invariant k <= |Queue(l)|
        invariant View(addr) == Drain(l, k, intake)
        invariant more <==> k < |Queue(l)|
        invariant forall b :: b != addr ==> View(b) == old(View(b))
        decreases |Queue(l)| - k
      {
        more := DrainRound(addr, l, k, intake);
        k := k + 1;
      }
    }

    method ConnectionEstablished(addr: Addr, id: Session, ch: Channel)
      modifies this`connections, this`retryMap, this`logs, queues
      ensures View(addr) == Establish(old(View(addr)), id, hasBridge, ch)
      ensures forall b :: b != addr ==> View(b) == old(View(b))
    {
      ghost var l := View(addr);
      retryMap := retryMap - {addr};
      assert Queue(View(addr)) == Queue(l);
      RouteAll(addr, if hasBridge then ch.frames else Nothing);
      assert forall b :: b != addr ==> View(b) == old(View(b));
      connections := connections[addr := Connected(id)];
    }

    method ConnectionClosed(addr: Addr, id: Session)
      modifies this`connections, this`retryMap
      ensures View(addr) == Close(old(View(addr)), id)
      ensures forall b :: b != addr ==> View(b) == old(View(b))
    {
      connections := connections[addr := Closed(id)];
      var waiting := queues.HasData(addr);
      if waiting {
        retryMap := retryMap[addr := 0];
      }
    }

    method ConnectionLost(addr: Addr, id: Session)
      modifies this`connections, this`retryMap
      ensures View(addr) == Lose(old(View(addr)), id)
      ensures forall b :: b != addr ==> View(b) == old(View(b))
    {
      if addr !in retryMap {
        retryMap := retryMap[addr := 0];
      }
      connections := connections[addr := Lost(id)];
    }

    /** The remaining events of `on_event`, each about one address. */
    method OnEvent(addr: Addr, e: Event)
      requires e.TransportDropped? || e.SystemBlocked? || e.SystemAllowed? || e.Rejected?
      modifies this`connections, this`retryMap, this`logs, queues
      ensures Step(old(View(addr)), e, hasBridge, maxRetries) == Done(View(addr))
      ensures forall b :: b != addr ==> View(b) == old(View(b))
    {
      match e
      case TransportDropped => retryMap := retryMap - {addr};
      case SystemBlocked => connections := connections[addr := Blocked];
      case SystemAllowed => connections := connections - {addr};
      case Rejected(f) =>
        queues.EnqueuePriorityData(f, addr);
        logs := logs[addr := LogOf(addr).Return(f)];
        retryMap := if addr in retryMap then retryMap else retryMap[addr := 0];
    }

    method CloseChannelTo(addr: Addr, ch: Channel)
      modifies this`logs, queues
      ensures View(addr) == Disconnect(old(View(addr)), hasBridge, ch)
      ensures forall b :: b != addr ==> View(b) == old(View(b))
    {
      if addr in connections && connections[addr].Connected? && hasBridge {
        RouteAll(addr, ch.frames);
      }
    }

    /** The body of the loop in `schedule_retries`, for an address whose counter was taken out of the map. */
    method RetryOne(addr: Addr, attempts: nat, ch: Channel) returns (panicked: bool)
      requires addr !in retryMap
      modifies this`connections, this`retryMap, this`logs, queues
      ensures var r := RetryTick(old(View(addr)).(retry := Some(attempts)), hasBridge, maxRetries, ch);
              (panicked <==> r.Panic?) && (r.Done? ==> View(addr) == r.link)
      ensures forall b :: b != addr ==> View(b) == old(View(b))
    {
      panicked := false;
      if attempts < maxRetries {
        retryMap := retryMap[addr := attempts + 1];
        if hasBridge {
          var ok := Dial(addr, ch);
          panicked := !ok;
        }
      } else {
        logs := logs[addr := LogOf(addr).Lose(queues.High(addr) + queues.Low(addr)).Drop()];
        queues.DropQueue(addr);
        connections := connections - {addr};
      }
    }

    /** `schedule_retries`: every address at once, whatever order the map is walked in; `refused` are the dials that fail. */
    method ScheduleRetries(refused: set<Addr>) returns (panicked: bool)
      modifies this`connections, this`retryMap, this`logs, queues
      ensures panicked <==> exists a :: RetryTick(old(View(a)), hasBridge, maxRetries, Dialling(a, refused)).Panic?
      ensures !panicked ==> forall a :: RetryTick(old(View(a)), hasBridge, maxRetries, Dialling(a, refused)) == Done(View(a))
    {
      var drain := retryMap;
      retryMap := map[];
      var rest := drain.Keys;
      while rest != {}
        invariant rest <= drain.Keys && drain == old(retryMap)
        invariant forall a :: a in rest ==> View(a) == old(View(a)).(retry := None)
        invariant forall a :: a !in rest ==> RetryTick(old(View(a)), hasBridge, maxRetries, Dialling(a, refused)) == Done(View(a))
        decreases rest
      {
        var addr :| addr in rest;
        assert View(addr) == old(View(addr)).(retry := None);
        panicked := RetryOne(addr, drain[addr], Dialling(addr, refused));
        if panicked {
          assert RetryTick(old(View(addr)), hasBridge, maxRetries, Dialling(addr, refused)).Panic?;
          return;
        }
        rest := rest - {addr};
      }
      panicked := false;
    }

    /** `handle_network_failure`: connected links become lost, then a new bridge is started. */
    method HandleNetworkFailure()
      modifies this`connections, this`retryMap, this`hasBridge
      ensures hasBridge
      ensures forall a :: View(a) == FailNetwork(old(View(a)))
    {
      hasBridge := false;
      var drained := connections;
      connections := map[];
      var rest := drained.Keys;
      while rest != {}
        invariant rest <= drained.Keys && drained == old(connections)
        invariant forall a :: a in rest ==> View(a) == old(View(a)).(conn := None)
        invariant forall a :: a !in rest ==> View(a) == FailNetwork(old(View(a)))
        decreases rest
      {
        var addr :| addr in rest;
        assert View(addr) == old(View(addr)).(conn := None);
        if drained[addr].Connected? {
          ConnectionLost(addr, drained[addr].id);
        } else {
          connections := connections[addr := drained[addr]];
        }
        rest := rest - {addr};
      }
      hasBridge := true;
    }

    /** The bridge is started or taken away. */
    method SetBridge(on: bool)
      modifies this`hasBridge
      ensures hasBridge == on
      ensures forall a :: View(a) == old(View(a))
    {
      hasBridge := on;
    }

    /** An event about one address. */
    method PerformOn(addr: Addr, e: Event) returns (panicked: bool)
      requires !e.Tick? && !e.NetworkFailure?
      modifies this`connections, this`retryMap, this`logs, queues
      ensures var r := Step(old(View(addr)), e, hasBridge, maxRetries);
              (panicked <==> r.Panic?) && (r.Done? ==> View(addr) == r.link)
      ensures forall b :: b != addr ==> View(b) == old(View(b))
    {
      panicked := false;
      match e
      case Submit(f, ch) => panicked := RouteRemoteTcp(addr, f, ch);
      case Established(id, ch) => ConnectionEstablished(addr, id, ch);
      case ConnLost(id) => ConnectionLost(addr, id);
      case ConnClosed(id) => ConnectionClosed(addr, id);
      case CloseChannel(ch) => CloseChannelTo(addr, ch);
      case TransportDropped => OnEvent(addr, e);
      case SystemBlocked => OnEvent(addr, e);
      case SystemAllowed => OnEvent(addr, e);
      case Rejected(_) => OnEvent(addr, e);
    }

    /** Any call of the dispatcher. */
    method Perform(c: Call) returns (panicked: bool)
      requires WellFormed(c)
      modifies this`connections, this`retryMap, this`logs, this`hasBridge, queues
      ensures hasBridge == BridgeAfter(old(hasBridge), c) || panicked
      ensures panicked <==> exists a :: LinkAfter(old(View(a)), c, a, old(hasBridge), maxRetries).Panic?
      ensures !panicked ==> forall a :: LinkAfter(old(View(a)), c, a, old(hasBridge), maxRetries) == Done(View(a))
    {
      panicked := false;
      match c
      case On(addr, e) =>
        panicked := PerformOn(addr, e);
        if panicked {
          assert LinkAfter(old(View(addr)), c, addr, old(hasBridge), maxRetries).Panic?;
        }
      case TickAll(refused) =>
        panicked := ScheduleRetries(refused);
        assert forall a ::
          LinkAfter(old(View(a)), c, a, old(hasBridge), maxRetries)
          == RetryTick(old(View(a)), old(hasBridge), maxRetries, Dialling(a, refused));
      case NetworkDown => HandleNetworkFailure();
      case Bridge(on) => SetBridge(on);
    }
  }

  // --- Whole runs of the dispatcher ---

  datatype Call = On(addr: Addr, e: Event) | TickAll(refused: set<Addr>) | NetworkDown | Bridge(on: bool)

  predicate WellFormed(c: Call) {
    c.On? ==> !c.e.Tick? && !c.e.NetworkFailure?
  }

  function BridgeAfter(bridge: bool, c: Call): bool {
    match c
    case NetworkDown => true
    case Bridge(on) => on
    case _ => bridge
  }

  /** What a call means for the link to `a`: at most one event. */
  function EventFor(c: Call, a: Addr): Option<Event> {
    match c
    case On(addr, e) => if a == addr then Some(e) else None
    case TickAll(refused) => Some(Tick(Dialling(a, refused)))
    case NetworkDown => Some(NetworkFailure)
    case Bridge(_) => None
  }

  function LinkAfter(l: Link, c: Call, a: Addr, bridge: bool, max: nat): Result {
    match EventFor(c, a)
    case None => Done(l)
    case Some(e) => Step(l, e, bridge, max)
  }

  function BridgeRun(cs: seq<Call>): bool {
    cs == [] || BridgeAfter(BridgeRun(cs[..|cs| - 1]), cs[|cs| - 1])
  }

  /** The events of one address in a run of the dispatcher, each with the bridge of its time. */
  function Projection(cs: seq<Call>, a: Addr): seq<Occurrence> {
    if cs == [] then []
    else
      var us, c := cs[..|cs| - 1], cs[|cs| - 1];
      Projection(us, a) + (match EventFor(c, a) case None => [] case Some(e) => [At(e, BridgeRun(us))])
  }

  function ThenCall(r: Result, c: Call, a: Addr, bridge: bool, max: nat): Result {
    if r.Panic? then Panic else LinkAfter(r.link, c, a, bridge, max)
  }

  lemma ProjectionAppend(cs: seq<Call>, c: Call, a: Addr, max: nat)
    ensures Run(Projection(cs + [c], a), max) == ThenCall(Run(Projection(cs, a), max), c, a, BridgeRun(cs), max)
  {
    assert (cs + [c])[..|cs|] == cs;
    var es := Projection(cs, a);
    match EventFor(c, a)
    case None => assert es + [] == es;
    case Some(e) => RunAppend(es, At(e, BridgeRun(cs)), max);
  }

  /** All links at the next call. */
  lemma NextCall(cs: seq<Call>, n: nat, max: nat)
    requires n < |cs|
    ensures BridgeRun(cs[..n + 1]) == BridgeAfter(BridgeRun(cs[..n]), cs[n])
    ensures forall a :: Run(Projection(cs[..n + 1], a), max)
                        == ThenCall(Run(Projection(cs[..n], a), max), cs[n], a, BridgeRun(cs[..n]), max)
  {
    assert cs[..n + 1] == cs[..n] + [cs[n]] && cs[..n + 1][..n] == cs[..n];
    forall a
      ensures Run(Projection(cs[..n + 1], a), max)
              == ThenCall(Run(Projection(cs[..n], a), max), cs[n], a, BridgeRun(cs[..n]), max)
    {
      ProjectionAppend(cs[..n], cs[n], a, max);
    }
  }

  /** A link that has panicked stays so. */
  lemma {:induction false} PanicStays(cs: seq<Call>, n: nat, a: Addr, max: nat)
    requires n <= |cs| && Run(Projection(cs[..n], a), max).Panic?
    ensures Run(Projection(cs, a), max).Panic?
    decreases |cs| - n
  {
    if n == |cs| {
      assert cs[..n] == cs;
    } else {
      assert cs[..n + 1] == cs[..n] + [cs[n]];
      ProjectionAppend(cs[..n], cs[n], a, max);
      PanicStays(cs, n + 1, a, max);
    }
  }

  /**
   After any sequence of calls every link of the dispatcher is what its own events, taken alone,
   make of it; and the dispatcher panics exactly when one of them does.
   */
  method PerformAll(cs: seq<Call>, max: nat) returns (d: NetworkDispatcher, panicked: bool)
    requires forall c :: c in cs ==> WellFormed(c)
    ensures d.maxRetries == max
    ensures panicked <==> exists a :: Run(Projection(cs, a), max).Panic?
    ensures !panicked ==> forall a :: Run(Projection(cs, a), max) == Done(d.View(a))
  {
    d := new NetworkDispatcher(max);
    panicked := false;
    for n := 0 to |cs|
      invariant fresh(d) && fresh(d.queues) && d.maxRetries == max && d.hasBridge == BridgeRun(cs[..n])
      invariant forall a :: Run(Projection(cs[..n], a), max) == Done(d.View(a))
    {
      NextCall(cs, n, max);
      panicked := d.Perform(cs[n]);
      if panicked {
        var a :| Run(Projection(cs[..n + 1], a), max).Panic?;
        PanicStays(cs, n + 1, a, max);
        return;
      }
    }
    assert cs[..|cs|] == cs;
  }
}
