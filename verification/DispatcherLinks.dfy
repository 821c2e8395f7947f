/**
 What the network dispatcher does for one remote address: connection state, retry counter, queued
 frames, and the log of what was handed to the bridge. The dispatcher treats addresses
 independently (see NetworkDispatch), so a dispatcher is a family of links.
 */
module DispatcherLinks {
  import opened Options

  type Frame = nat
  type Session = nat

  datatype Connection = New | Initializing | Connected(id: Session) | Closed(id: Session) | Lost(id: Session) | Blocked

  /**
   History: frames the bridge took, frames lost (refused by the bridge or discarded on giving up),
   frames accepted for sending, frames the transport gave back, dial requests, and ConnectionDropped
   indications after giving up.
   */
  datatype Log = Log(sent: seq<Frame>, lost: seq<Frame>, accepted: seq<Frame>, returned: seq<Frame>,
                     dials: nat, dropped: nat) {
    function Send(fs: seq<Frame>): Log { this.(sent := sent + fs) }
    function Lose(fs: seq<Frame>): Log { this.(lost := lost + fs) }
    function Accept(f: Frame): Log { this.(accepted := accepted + [f]) }
    function Return(f: Frame): Log { this.(returned := returned + [f]) }
    function Dial(): Log { this.(dials := dials + 1) }
    function Drop(): Log { this.(dropped := dropped + 1) }
  }

  /** `high` and `low` are the priority and the ordinary queue. */
  datatype Link = Link(conn: Option<Connection>, retry: Option<nat>, high: seq<Frame>, low: seq<Frame>, log: Log)

  /** Which of the frames handed out during one event are taken, by position. */
  datatype Intake = Nothing | AllBut(refused: set<nat>) {
    predicate Accepts(i: nat) { AllBut? && i !in refused }
  }

  /** What the bridge does during one event: any pattern of taken and refused frames, and dial requests or not. */
  datatype Channel = Channel(frames: Intake, dials: bool)

  datatype Event =
    | Submit(f: Frame, ch: Channel)
    | Tick(ch: Channel)
    | Established(id: Session, ch: Channel)
    | ConnLost(id: Session)
    | ConnClosed(id: Session)
    | TransportDropped
    | SystemBlocked
    | SystemAllowed
    | Rejected(f: Frame)
    | CloseChannel(ch: Channel)
    | NetworkFailure

  /** A panic is an unwrapped dial error. */
  datatype Result = Panic | Done(link: Link)

  function Queue(l: Link): seq<Frame> { l.high + l.low }

  /** The frames of `q` that are taken, or those that are not. */
  function Part(q: seq<Frame>, intake: Intake, taken: bool): seq<Frame> {
    if q == [] then []
    else Part(q[..|q| - 1], intake, taken) + if intake.Accepts(|q| - 1) == taken then [q[|q| - 1]] else []
  }

  /** Hand out the first `k` queued frames, priority frames first. */
  function Drain(l: Link, k: nat, intake: Intake): Link
    requires k <= |Queue(l)|
  {
    l.(high := if k <= |l.high| then l.high[k..] else [],
       low := if k <= |l.high| then l.low else l.low[k - |l.high|..],
       log := l.log.Send(Part(Queue(l)[..k], intake, true)).Lose(Part(Queue(l)[..k], intake, false)))
  }

  /** How many of `n` frames are handed out when the first refused one ends the loop. */
  function Attempts(n: nat, intake: Intake): (m: nat)
    ensures m <= n
    ensures forall i :: 0 <= i < m - 1 ==> intake.Accepts(i)
    ensures m < n ==> m > 0 && !intake.Accepts(m - 1)
  {
    if n == 0 then 0
    else
      var m := Attempts(n - 1, intake);
      if m == n - 1 && (m == 0 || intake.Accepts(m - 1)) then n else m
  }

  /** The frame was accepted and waits in the ordinary queue. */
  function Enqueued(l: Link, f: Frame): Link {
    l.(low := l.low + [f], log := l.log.Accept(f))
  }

  function Handed(log: Log, f: Frame, taken: bool): Log {
    if taken then log.Send([f]) else log.Lose([f])
  }

  /** `route_remote_tcp`. */
  function RouteTcp(l: Link, f: Frame, bridge: bool, ch: Channel): Result {
    var queued := Enqueued(l, f);
    match if l.conn.Some? then l.conn.value else New
    case New =>
      if !bridge then Done(queued.(conn := Some(New)))
      else if !ch.dials then Panic
      else Done(queued.(conn := Some(Initializing), retry := Some(0), log := queued.log.Dial()))
    case Connected(_) =>
      if Queue(l) != [] then
        // the first refused frame ends the drain with an error, after it was popped
        if bridge then Done(Drain(queued, Attempts(|Queue(queued)|, ch.frames), ch.frames)) else Done(queued)
      else
        Done(l.(log := Handed(l.log.Accept(f), f, bridge && ch.frames.Accepts(0))))
    case Initializing => Done(queued)
    case Closed(_) =>
      if !bridge then Done(queued.(conn := Some(Initializing)))
      else
        var asked := queued.(retry := if l.retry.Some? then l.retry else Some(0));
        if ch.dials then Done(asked.(conn := Some(Initializing), log := asked.log.Dial())) else Done(asked)
    case Lost(_) => Done(queued)
    case Blocked => Done(l)
  }

  /** One address in `schedule_retries`. */
  function RetryTick(l: Link, bridge: bool, max: nat, ch: Channel): Result {
    if l.retry.None? then Done(l)
    else if l.retry.value < max then
      var next := l.(retry := Some(l.retry.value + 1));
      if !bridge then Done(next) else if ch.dials then Done(next.(log := l.log.Dial())) else Panic
    else Done(l.(retry := None, high := [], low := [], conn := None, log := l.log.Lose(Queue(l)).Drop()))
  }

  /** `connection_established`: every queued frame is popped, whether or not the bridge takes it. */
  function Establish(l: Link, id: Session, bridge: bool, ch: Channel): Link {
    Drain(l, |Queue(l)|, if bridge then ch.frames else Nothing).(retry := None, conn := Some(Connected(id)))
  }

  /** `connection_lost`. */
  function Lose(l: Link, id: Session): Link {
    l.(retry := if l.retry.Some? then l.retry else Some(0), conn := Some(Lost(id)))
  }

  /** `connection_closed`. */
  function Close(l: Link, id: Session): Link {
    l.(conn := Some(Closed(id)), retry := if Queue(l) != [] then Some(0) else l.retry)
  }

  /** `close_channel`. */
  function Disconnect(l: Link, bridge: bool, ch: Channel): Link {
    if bridge && l.conn.Some? && l.conn.value.Connected? then Drain(l, |Queue(l)|, ch.frames) else l
  }

  /** One address in `handle_network_failure`; the bridge is replaced afterwards. */
  function FailNetwork(l: Link): Link {
    if l.conn.Some? && l.conn.value.Connected? then Lose(l, l.conn.value.id) else l
  }

  function Step(l: Link, e: Event, bridge: bool, max: nat): Result {
    match e
    case Submit(f, ch) => RouteTcp(l, f, bridge, ch)
    case Tick(ch) => RetryTick(l, bridge, max, ch)
    case Established(id, ch) => Done(Establish(l, id, bridge, ch))
    case ConnLost(id) => Done(Lose(l, id))
    case ConnClosed(id) => Done(Close(l, id))
    case TransportDropped => Done(l.(retry := None))
    case SystemBlocked => Done(l.(conn := Some(Blocked)))
    case SystemAllowed => Done(l.(conn := None))
    case Rejected(f) =>
      Done(l.(high := l.high + [f], log := l.log.Return(f), retry := if l.retry.Some? then l.retry else Some(0)))
    case CloseChannel(ch) => Done(Disconnect(l, bridge, ch))
    case NetworkFailure => Done(FailNetwork(l))
  }

  const FreshLog := Log([], [], [], [], 0, 0)

  const FreshLink := Link(None, None, [], [], FreshLog)

  /** An event, and whether the dispatcher had a bridge then. */
  datatype Occurrence = At(e: Event, bridge: bool)

  /** The result of the events `es` on a fresh link, while the bridge may come and go; a panic ends the run. */
  function Run(es: seq<Occurrence>, max: nat): Result {
    if es == [] then Done(FreshLink)
    else
      match Run(es[..|es| - 1], max)
      case Panic => Panic
      case Done(l) => Step(l, es[|es| - 1].e, es[|es| - 1].bridge, max)
  }

  // --- Nothing is stranded ---

  predicate NotStranded(l: Link) {
    (l.conn == Some(Initializing) || (l.conn.Some? && l.conn.value.Lost?) || Queue(l) != []) ==> l.retry.Some?
  }

  /** With a bridge, only a transport-reported ConnectionDropped can strand a link. */
  lemma StepNotStranded(l: Link, e: Event, max: nat)
    requires NotStranded(l) && Step(l, e, true, max).Done? && !e.TransportDropped?
    ensures NotStranded(Step(l, e, true, max).link)
  {
  }

  /** Nothing depends on the retry counter: no connection is awaited and no frame waits. */
  predicate AtRest(l: Link) {
    l.conn != Some(Initializing) && !(l.conn.Some? && l.conn.value.Lost?) && Queue(l) == []
  }

  /** ... and it does so exactly on a link that is not at rest. */
  lemma TransportDroppedStrands(l: Link, bridge: bool, max: nat)
    ensures NotStranded(Step(l, TransportDropped, bridge, max).link) <==> AtRest(l)
  {
  }

  /** A reachable stranded link: the first frame waits for its connection, the transport reports a drop, and no later tick helps. */
  lemma DropStrandsForGood(f: Frame, ch: Channel, max: nat)
    requires ch.dials
    ensures var r := Run([At(Submit(f, ch), true), At(TransportDropped, true)], max);
      && r.Done? && !NotStranded(r.link) && Queue(r.link) == [f]
      && forall bridge, later :: RetryTick(r.link, bridge, max, later) == r
  {
    var first, second := At(Submit(f, ch), true), At(TransportDropped, true);
    RunAppend([], first, max);
    RunAppend([first], second, max);
    assert [] + [first] == [first] && [first] + [second] == [first, second];
    assert Queue(Run([first, second], max).link) == [f];
  }

  lemma RunAppend(es: seq<Occurrence>, o: Occurrence, max: nat)
    ensures Run(es + [o], max) == if Run(es, max).Done? then Step(Run(es, max).link, o.e, o.bridge, max) else Panic
  {
    assert (es + [o])[..|es|] == es;
  }

  /** Without a bridge the first frame for a new address is stranded at once. */
  lemma NoBridgeStrands(f: Frame, ch: Channel, max: nat)
    ensures !NotStranded(Step(FreshLink, Submit(f, ch), false, max).link)
  {
    assert Queue(FreshLink.(low := [f])) == [f];
  }

  predicate Bridged(es: seq<Occurrence>) {
    forall o :: o in es ==> o.bridge
  }

  lemma {:induction false} NoStrandedQueue(es: seq<Occurrence>, max: nat)
    requires Run(es, max).Done? && Bridged(es) && forall o :: o in es ==> !o.e.TransportDropped?
    ensures NotStranded(Run(es, max).link)
  {
    if es != [] {
      var us, o := es[..|es| - 1], es[|es| - 1];
      assert o in es;
      NoStrandedQueue(us, max);
      StepNotStranded(Run(us, max).link, o.e, max);
    }
  }

  /** After the first `n` events the link is not stranded. */
  predicate FineAfter(es: seq<Occurrence>, n: nat, max: nat)
    requires n <= |es|
  {
    Run(es[..n], max).Done? && NotStranded(Run(es[..n], max).link)
  }

  /** Event `n` is not a drop reported about a link that is not at rest. */
  predicate HarmlessAt(es: seq<Occurrence>, n: nat, max: nat)
    requires n < |es|
  {
    es[n].e.TransportDropped? ==> Run(es[..n], max).Done? && AtRest(Run(es[..n], max).link)
  }

  lemma {:induction false} PrefixDone(es: seq<Occurrence>, n: nat, max: nat)
    requires n <= |es| && Run(es, max).Done?
    ensures Run(es[..n], max).Done?
    decreases |es|
  {
    if n == |es| {
      assert es[..n] == es;
    } else {
      PrefixDone(es[..|es| - 1], n, max);
      assert es[..|es| - 1][..n] == es[..n];
    }
  }

  lemma OneFurther(es: seq<Occurrence>, n: nat, max: nat)
    requires n < |es| && Run(es, max).Done? && Bridged(es) && FineAfter(es, n, max)
    ensures FineAfter(es, n + 1, max) <==> HarmlessAt(es, n, max)
  {
    PrefixDone(es, n + 1, max);
    assert es[..n + 1] == es[..n] + [es[n]] && es[n] in es;
    RunAppend(es[..n], es[n], max);
    var l := Run(es[..n], max).link;
    if es[n].e.TransportDropped? {
      TransportDroppedStrands(l, true, max);
    } else {
      StepNotStranded(l, es[n].e, max);
    }
  }

  lemma {:induction false} FineUpTo(es: seq<Occurrence>, n: nat, max: nat)
    requires n <= |es| && Run(es, max).Done? && Bridged(es)
    requires forall i :: 0 <= i < |es| ==> HarmlessAt(es, i, max)
    ensures FineAfter(es, n, max)
    decreases n
  {
    if n > 0 {
      FineUpTo(es, n - 1, max);
      OneFurther(es, n - 1, max);
    } else {
      assert es[..0] == [];
    }
  }

  /** With a bridge, a run is never stranded exactly when every reported drop finds the link at rest. */
  lemma NeverStrandedIff(es: seq<Occurrence>, max: nat)
    requires Run(es, max).Done? && Bridged(es)
    ensures (forall n :: 0 <= n <= |es| ==> FineAfter(es, n, max)) <==> (forall n :: 0 <= n < |es| ==> HarmlessAt(es, n, max))
  {
    if forall n :: 0 <= n <= |es| ==> FineAfter(es, n, max) {
      forall n | 0 <= n < |es|
        ensures HarmlessAt(es, n, max)
      {
        OneFurther(es, n, max);
      }
    }
    if forall n :: 0 <= n < |es| ==> HarmlessAt(es, n, max) {
      forall n | 0 <= n <= |es|
        ensures FineAfter(es, n, max)
      {
        FineUpTo(es, n, max);
      }
    }
  }

  // --- Order and conservation ---

  predicate IsSuffix(s: seq<Frame>, t: seq<Frame>) {
    |s| <= |t| && t[|t| - |s|..] == s
  }

  /** Whatever happens, the queue is the youngest rejected frames followed by the youngest accepted ones. */
  predicate Ordered(l: Link) {
    IsSuffix(l.high, l.log.returned) && IsSuffix(l.low, l.log.accepted)
  }

  lemma SuffixAppend(s: seq<Frame>, t: seq<Frame>, f: Frame)
    requires IsSuffix(s, t)
    ensures IsSuffix(s + [f], t + [f])
  {
  }

  lemma SuffixDrop(s: seq<Frame>, t: seq<Frame>, k: nat)
    requires IsSuffix(s, t) && k <= |s|
    ensures IsSuffix(s[k..], t)
  {
    assert t[|t| - |s|..][k..] == t[|t| - |s| + k..];
  }

  lemma DrainOrdered(l: Link, k: nat, intake: Intake)
    requires Ordered(l) && k <= |Queue(l)|
    ensures Ordered(Drain(l, k, intake))
  {
    if k <= |l.high| {
      SuffixDrop(l.high, l.log.returned, k);
    } else {
      SuffixDrop(l.low, l.log.accepted, k - |l.high|);
    }
  }

  lemma SubmitOrdered(l: Link, f: Frame, bridge: bool, ch: Channel)
    requires Ordered(l) && RouteTcp(l, f, bridge, ch).Done?
    ensures Ordered(RouteTcp(l, f, bridge, ch).link)
  {
    SuffixAppend(l.low, l.log.accepted, f);
    var queued := Enqueued(l, f);
    assert Ordered(queued);
    if l.conn.Some? && l.conn.value.Connected? {
      if Queue(l) == [] {
        assert IsSuffix([], l.log.accepted + [f]);
      } else {
        DrainOrdered(queued, Attempts(|Queue(queued)|, ch.frames), ch.frames);
      }
    }
  }

  lemma StepOrdered(l: Link, e: Event, bridge: bool, max: nat)
    requires Ordered(l) && Step(l, e, bridge, max).Done?
    ensures Ordered(Step(l, e, bridge, max).link)
  {
    match e
    case Submit(f, ch) => SubmitOrdered(l, f, bridge, ch);
    case Rejected(f) => SuffixAppend(l.high, l.log.returned, f);
    case Established(_, ch) => DrainOrdered(l, |Queue(l)|, if bridge then ch.frames else Nothing);
    case CloseChannel(ch) => DrainOrdered(l, |Queue(l)|, ch.frames);
    case _ =>
  }

  /**
   In every run, with or without a bridge, rejections, refused frames and give-ups: frames wait in
   the order in which they were rejected or accepted, rejected ones first.
   */
  lemma {:induction false} QueueOrder(es: seq<Occurrence>, max: nat)
    requires Run(es, max).Done?
    ensures Ordered(Run(es, max).link)
  {
    if es != [] {
      var us, o := es[..|es| - 1], es[|es| - 1];
      QueueOrder(us, max);
      StepOrdered(Run(us, max).link, o.e, o.bridge, max);
    }
  }

  /** The rejected frames that wait when the event hands frames out. */
  function Rejects(l: Link, e: Event): seq<Frame> {
    l.high + if e.Rejected? then [e.f] else []
  }

  /** The frames never handed out so far, a new one last; a blocked address accepts none. */
  function Fresh(l: Link, e: Event): seq<Frame> {
    l.low + if e.Submit? && l.conn != Some(Blocked) then [e.f] else []
  }

  function Offered(l: Link, e: Event): seq<Frame> { Rejects(l, e) + Fresh(l, e) }

  /** What the bridge takes of the frames that the event hands out; giving up hands them to nobody. */
  function IntakeOf(e: Event, bridge: bool): Intake {
    match e
    case Submit(_, ch) => if bridge then ch.frames else Nothing
    case Established(_, ch) => if bridge then ch.frames else Nothing
    case CloseChannel(ch) => if bridge then ch.frames else Nothing
    case _ => Nothing
  }

  /** The first `k` of the offered frames leave, to the bridge or lost, and the others stay queued. */
  predicate HandsOut(l: Link, e: Event, bridge: bool, l': Link, k: nat) {
    var q := Offered(l, e);
    && k <= |q| && Queue(l') == q[k..]
    && l'.log.sent == l.log.sent + Part(q[..k], IntakeOf(e, bridge), true)
    && l'.log.lost == l.log.lost + Part(q[..k], IntakeOf(e, bridge), false)
  }

  /** How many of the offered frames left. */
  function Left(l: Link, e: Event, l': Link): int { |Offered(l, e)| - |Queue(l')| }

  lemma HandsOutNothing(l: Link, e: Event, bridge: bool, l': Link)
    requires Queue(l') == Offered(l, e) && l'.log.sent == l.log.sent && l'.log.lost == l.log.lost
    ensures HandsOut(l, e, bridge, l', 0)
  {
    assert l.log.sent + [] == l.log.sent && l.log.lost + [] == l.log.lost;
  }

  lemma {:induction false} PartOfNothing(q: seq<Frame>)
    ensures Part(q, Nothing, true) == [] && Part(q, Nothing, false) == q
  {
    if q != [] {
      PartOfNothing(q[..|q| - 1]);
      assert q == q[..|q| - 1] + [q[|q| - 1]];
    }
  }

  lemma PartOfOne(f: Frame, intake: Intake, taken: bool)
    ensures Part([f], intake, taken) == if intake.Accepts(0) == taken then [f] else []
  {
    assert [f][..0] == [] && Part([f][..0], intake, taken) == [];
  }

  lemma DirectLog(log: Log, f: Frame, intake: Intake)
    ensures var log' := Handed(log.Accept(f), f, intake.Accepts(0));
      && log'.sent == log.sent + Part([f], intake, true)
      && log'.lost == log.lost + Part([f], intake, false)
  {
    PartOfOne(f, intake, true);
    PartOfOne(f, intake, false);
    assert log.sent + [] == log.sent && log.lost + [] == log.lost;
  }

  lemma OneOffered(l: Link, f: Frame, ch: Channel)
    requires Queue(l) == [] && l.conn != Some(Blocked)
    ensures var q := Offered(l, Submit(f, ch)); q == [f] && q[..1] == [f] && q[1..] == []
  {
    assert l.high == [] && l.low == [];
  }

  lemma DirectHandsOut(l: Link, f: Frame, bridge: bool, ch: Channel, l': Link)
    requires Queue(l) == [] && l.conn != Some(Blocked) && Queue(l') == []
    requires l'.log == Handed(l.log.Accept(f), f, bridge && ch.frames.Accepts(0))
    ensures HandsOut(l, Submit(f, ch), bridge, l', 1)
  {
    OneOffered(l, f, ch);
    DirectLog(l.log, f, IntakeOf(Submit(f, ch), bridge));
  }

  lemma DrainedHandsOut(l: Link, f: Frame, ch: Channel, k: nat)
    requires l.conn != Some(Blocked) && k <= |Queue(Enqueued(l, f))|
    ensures HandsOut(l, Submit(f, ch), true, Drain(Enqueued(l, f), k, ch.frames), k)
  {
    assert Offered(l, Submit(f, ch)) == Queue(Enqueued(l, f));
    DrainQueue(Enqueued(l, f), k, ch.frames);
  }

  /** The submitted frame goes out at once, alone or behind others. */
  predicate Flows(l: Link, bridge: bool) {
    l.conn.Some? && l.conn.value.Connected? && (bridge || Queue(l) == [])
  }

  lemma SubmitWaits(l: Link, f: Frame, bridge: bool, ch: Channel)
    requires !Flows(l, bridge) && RouteTcp(l, f, bridge, ch).Done?
    ensures var l' := RouteTcp(l, f, bridge, ch).link;
      l'.high == l.high && l'.low == Fresh(l, Submit(f, ch)) && l'.log.sent == l.log.sent && l'.log.lost == l.log.lost
  {
  }

  /**
   How many of the offered frames an event hands out: all of them on an established connection, when
   a channel is closed and when an address is given up; up to the first refused one when a frame is
   submitted to a connected address; otherwise none.
   */
  function Leaves(l: Link, e: Event, bridge: bool, max: nat): nat {
    match e
    case Submit(_, ch) =>
      if !Flows(l, bridge) then 0
      else if Queue(l) == [] then 1
      else Attempts(|Queue(l)| + 1, ch.frames)
    case Established(_, _) => |Queue(l)|
    case CloseChannel(_) => if bridge && l.conn.Some? && l.conn.value.Connected? then |Queue(l)| else 0
    case Tick(_) => if GivesUp(l, max) then |Queue(l)| else 0
    case _ => 0
  }

  lemma SubmitHandsOut(l: Link, f: Frame, bridge: bool, ch: Channel, max: nat)
    requires RouteTcp(l, f, bridge, ch).Done?
    ensures var l', k := RouteTcp(l, f, bridge, ch).link, Leaves(l, Submit(f, ch), bridge, max);
      HandsOut(l, Submit(f, ch), bridge, l', k)
  {
    var l' := RouteTcp(l, f, bridge, ch).link;
    if !Flows(l, bridge) {
      SubmitWaits(l, f, bridge, ch);
      HandsOutNothing(l, Submit(f, ch), bridge, l');
    } else if Queue(l) == [] {
      DirectHandsOut(l, f, bridge, ch, l');
    } else {
      assert |Queue(Enqueued(l, f))| == |Queue(l)| + 1;
      DrainedHandsOut(l, f, ch, Attempts(|Queue(Enqueued(l, f))|, ch.frames));
    }
  }

  lemma GiveUpHandsOut(l: Link, e: Event, bridge: bool, l': Link)
    requires Offered(l, e) == Queue(l) && IntakeOf(e, bridge) == Nothing && Queue(l') == []
    requires l'.log.sent == l.log.sent && l'.log.lost == l.log.lost + Queue(l)
    ensures HandsOut(l, e, bridge, l', |Queue(l)|)
  {
    var q := Queue(l);
    assert q[..|q|] == q && q[|q|..] == [];
    PartOfNothing(q);
    assert l.log.sent + [] == l.log.sent;
  }

  lemma DrainHandsOut(l: Link, e: Event, bridge: bool, l': Link)
    requires Offered(l, e) == Queue(l) && Queue(l') == [] && l'.log == Drain(l, |Queue(l)|, IntakeOf(e, bridge)).log
    ensures HandsOut(l, e, bridge, l', |Queue(l)|)
  {
  }

  /** Every event, from any state: the frames that leave are the first of rejected, waiting and new ones, in this order. */
  lemma StepHandsOut(l: Link, e: Event, bridge: bool, max: nat)
    requires Step(l, e, bridge, max).Done?
    ensures HandsOut(l, e, bridge, Step(l, e, bridge, max).link, Leaves(l, e, bridge, max))
    ensures Left(l, e, Step(l, e, bridge, max).link) == Leaves(l, e, bridge, max)
  {
    if e.Submit? {
      SubmitHandsOut(l, e.f, bridge, e.ch, max);
    } else if e.Established? || e.CloseChannel? || e.Tick? {
      DrainingHandsOut(l, e, bridge, max);
    } else {
      var l' := Step(l, e, bridge, max).link;
      assert Queue(l') == Offered(l, e);
      HandsOutNothing(l, e, bridge, l');
    }
  }

  lemma DrainingHandsOut(l: Link, e: Event, bridge: bool, max: nat)
    requires (e.Established? || e.CloseChannel? || e.Tick?) && Step(l, e, bridge, max).Done?
    ensures HandsOut(l, e, bridge, Step(l, e, bridge, max).link, Leaves(l, e, bridge, max))
  {
    var l' := Step(l, e, bridge, max).link;
    QueueOffered(l, e);
    if e.Tick? {
      if GivesUp(l, max) {
        GiveUpHandsOut(l, e, bridge, l');
      } else {
        HandsOutNothing(l, e, bridge, l');
      }
    } else if e.Established? || (bridge && l.conn.Some? && l.conn.value.Connected?) {
      DrainQueue(l, |Queue(l)|, IntakeOf(e, bridge));
      DrainHandsOut(l, e, bridge, l');
    } else {
      HandsOutNothing(l, e, bridge, l');
    }
  }

  lemma QueueOffered(l: Link, e: Event)
    requires !e.Submit? && !e.Rejected?
    ensures Offered(l, e) == Queue(l)
  {
  }

  /** The two queues of a link after an event, by how many offered frames left. */
  lemma StepQueues(l: Link, e: Event, bridge: bool, max: nat)
    requires Step(l, e, bridge, max).Done?
    ensures var l', r := Step(l, e, bridge, max).link, Rejects(l, e);
      var k := Left(l, e, l');
      && (0 <= k <= |r| ==> l'.high == r[k..] && l'.low == Fresh(l, e))
      && (k > |r| ==> l'.high == [])
  {
    if e.Submit? {
      SubmitQueues(l, e.f, bridge, e.ch);
    }
  }

  lemma SubmitQueues(l: Link, f: Frame, bridge: bool, ch: Channel)
    requires RouteTcp(l, f, bridge, ch).Done?
    ensures var e, l' := Submit(f, ch), RouteTcp(l, f, bridge, ch).link;
      var k := Left(l, e, l');
      && (0 <= k <= |l.high| ==> l'.high == l.high[k..] && l'.low == Fresh(l, e))
      && (k > |l.high| ==> l'.high == [])
  {
    if !Flows(l, bridge) {
      SubmitWaits(l, f, bridge, ch);
    } else if Queue(l) != [] {
      DrainQueues(l, f, ch, Attempts(|Queue(Enqueued(l, f))|, ch.frames));
    }
  }

  lemma DrainQueues(l: Link, f: Frame, ch: Channel, k: nat)
    requires l.conn != Some(Blocked) && k <= |Queue(Enqueued(l, f))|
    ensures var e, l' := Submit(f, ch), Drain(Enqueued(l, f), k, ch.frames);
      && k == Left(l, e, l')
      && (k <= |l.high| ==> l'.high == l.high[k..] && l'.low == Fresh(l, e))
      && (k > |l.high| ==> l'.high == [])
  {
  }

  /**
   In every run: an event hands out rejected frames in rejection order, and a frame that was never
   handed out before only once no rejected frame waits any more, in submission order. Every accepted
   frame is handed out as fresh at most once: the fresh ones leave from the front.
   */
  lemma RejectedFramesGoFirst(es: seq<Occurrence>, o: Occurrence, max: nat)
    requires Run(es + [o], max).Done?
    ensures Run(es, max).Done?
    ensures var l, l' := Run(es, max).link, Run(es + [o], max).link;
      var r, young, k := Rejects(l, o.e), Fresh(l, o.e), Leaves(l, o.e, o.bridge, max);
      && HandsOut(l, o.e, o.bridge, l', k)
      && IsSuffix(r, l'.log.returned) && IsSuffix(young, l'.log.accepted)
      && (k <= |r| ==> l'.high == r[k..] && l'.low == young)
      && (k > |r| ==> l'.high == [] && l'.low == young[k - |r|..])
  {
    RunAppend(es, o, max);
    var l := Run(es, max).link;
    QueueOrder(es, max);
    StepHandsOut(l, o.e, o.bridge, max);
    FreshLeaveLast(l, o.e, o.bridge, max);
    OfferedOrdered(l, o.e, o.bridge, max);
  }

  lemma FreshLeaveLast(l: Link, e: Event, bridge: bool, max: nat)
    requires Step(l, e, bridge, max).Done?
    ensures var l', r, young := Step(l, e, bridge, max).link, Rejects(l, e), Fresh(l, e);
      var k := Left(l, e, l');
      && k >= 0
      && (k <= |r| ==> l'.high == r[k..] && l'.low == young)
      && (k > |r| ==> l'.high == [] && l'.low == young[k - |r|..])
  {
    var l', r, young := Step(l, e, bridge, max).link, Rejects(l, e), Fresh(l, e);
    var k := Left(l, e, l');
    StepHandsOut(l, e, bridge, max);
    StepQueues(l, e, bridge, max);
    if k > |r| {
      assert l'.low == Queue(l') == (r + young)[k..] == young[k - |r|..];
    }
  }

  lemma {:induction false} PartPrefix(q: seq<Frame>, intake: Intake, n: nat)
    requires n <= |q| && AcceptsAll(intake, n)
    ensures q[..n] <= Part(q, intake, true)
    decreases |q|
  {
    if n == |q| {
      assert q[..n] == q;
      PartOfAccepted(q, intake);
    } else {
      var front := q[..|q| - 1];
      PartPrefix(front, intake, n);
      assert front[..n] == q[..n];
    }
  }

  /** The event drains the queue through a bridge. */
  predicate Drains(l: Link, o: Occurrence) {
    o.bridge && (o.e.Established? || ((o.e.Submit? || o.e.CloseChannel?) && l.conn.Some? && l.conn.value.Connected?))
  }

  lemma DrainReachesFresh(l: Link, o: Occurrence, max: nat)
    requires Drains(l, o) && AcceptsAll(IntakeOf(o.e, o.bridge), |l.high|)
    ensures Leaves(l, o.e, o.bridge, max) >= |l.high|
  {
  }

  /**
   After any run, the next drain hands over all rejected frames, in rejection order and before
   anything else, as soon as the bridge takes that many frames; none of them waits any more.
   */
  lemma NextDrainHandsOverRejected(es: seq<Occurrence>, o: Occurrence, max: nat)
    requires Run(es, max).Done? && Run(es + [o], max).Done? && Drains(Run(es, max).link, o)
    requires AcceptsAll(IntakeOf(o.e, o.bridge), |Run(es, max).link.high|)
    ensures var l, l' := Run(es, max).link, Run(es + [o], max).link;
      IsSuffix(l.high, l.log.returned) && l'.high == [] && l.log.sent + l.high <= l'.log.sent
  {
    var l, l' := Run(es, max).link, Run(es + [o], max).link;
    QueueOrder(es, max);
    RejectedFramesGoFirst(es, o, max);
    DrainReachesFresh(l, o, max);
    var q, k := Offered(l, o.e), Leaves(l, o.e, o.bridge, max);
    PartPrefix(q[..k], IntakeOf(o.e, o.bridge), |l.high|);
    assert q[..k][..|l.high|] == l.high;
    PrefixAppended(l.log.sent, l.high, Part(q[..k], IntakeOf(o.e, o.bridge), true));
  }

  lemma PrefixAppended(s: seq<Frame>, a: seq<Frame>, b: seq<Frame>)
    requires a <= b
    ensures s + a <= s + b
  {
  }

  /** Exactly the new frames are logged as accepted, exactly the rejected ones as returned. */
  lemma StepLogs(l: Link, e: Event, bridge: bool, max: nat)
    requires Step(l, e, bridge, max).Done?
    ensures var l' := Step(l, e, bridge, max).link;
      && l'.log.accepted == l.log.accepted + Fresh(l, e)[|l.low|..]
      && l'.log.returned == l.log.returned + Rejects(l, e)[|l.high|..]
  {
    var taken := if e.Submit? && l.conn != Some(Blocked) then [e.f] else [];
    assert Fresh(l, e)[|l.low|..] == taken;
    assert Rejects(l, e)[|l.high|..] == if e.Rejected? then [e.f] else [];
    if e.Submit? {
      SubmitLogs(l, e.f, bridge, e.ch);
    }
    assert l.log.accepted + [] == l.log.accepted && l.log.returned + [] == l.log.returned;
  }

  lemma SubmitLogs(l: Link, f: Frame, bridge: bool, ch: Channel)
    requires RouteTcp(l, f, bridge, ch).Done?
    ensures var l' := RouteTcp(l, f, bridge, ch).link;
      && l'.log.returned == l.log.returned
      && l'.log.accepted == if l.conn == Some(Blocked) then l.log.accepted else l.log.accepted + [f]
  {
  }

  lemma SuffixExtend(s: seq<Frame>, s': seq<Frame>, t: seq<Frame>)
    requires IsSuffix(s, t) && |s| <= |s'| && s'[..|s|] == s
    ensures IsSuffix(s', t + s'[|s|..])
  {
  }

  lemma OfferedOrdered(l: Link, e: Event, bridge: bool, max: nat)
    requires Ordered(l) && Step(l, e, bridge, max).Done?
    ensures var l' := Step(l, e, bridge, max).link;
      IsSuffix(Rejects(l, e), l'.log.returned) && IsSuffix(Fresh(l, e), l'.log.accepted)
  {
    StepLogs(l, e, bridge, max);
    SuffixExtend(l.high, Rejects(l, e), l.log.returned);
    SuffixExtend(l.low, Fresh(l, e), l.log.accepted);
  }

  predicate AcceptsAll(intake: Intake, n: nat) {
    forall i :: 0 <= i < n ==> intake.Accepts(i)
  }

  /** The bridge takes every frame of this event. */
  predicate Takes(l: Link, o: Occurrence) {
    match o.e
    case Submit(_, _) => AcceptsAll(IntakeOf(o.e, o.bridge), |Queue(l)| + 1)
    case Established(_, _) => AcceptsAll(IntakeOf(o.e, o.bridge), |Queue(l)|)
    case CloseChannel(_) => AcceptsAll(IntakeOf(o.e, o.bridge), |Queue(l)|)
    case _ => true
  }

  /** Every event was taken in full and no give-up happened; frames may come back. */
  predicate Taken(es: seq<Occurrence>, max: nat) {
    es == [] ||
    (Taken(es[..|es| - 1], max)
     && Run(es[..|es| - 1], max).Done?
     && Takes(Run(es[..|es| - 1], max).link, es[|es| - 1])
     && (es[|es| - 1].e.Tick? ==> !GivesUp(Run(es[..|es| - 1], max).link, max)))
  }

  predicate GivesUp(l: Link, max: nat) {
    l.retry.Some? && l.retry.value >= max
  }

  predicate Fifo(l: Link) {
    l.high == [] && l.log.sent + l.low == l.log.accepted
  }

  lemma {:induction false} PartOfAccepted(q: seq<Frame>, intake: Intake)
    requires AcceptsAll(intake, |q|)
    ensures Part(q, intake, true) == q && Part(q, intake, false) == []
  {
    if q != [] {
      var front, last := q[..|q| - 1], q[|q| - 1];
      assert intake.Accepts(|front|);
      PartOfAccepted(front, intake);
      assert q == front + [last];
    }
  }

  lemma DrainAll(l: Link, intake: Intake)
    requires AcceptsAll(intake, |Queue(l)|)
    ensures Drain(l, |Queue(l)|, intake) == l.(high := [], low := [], log := l.log.Send(Queue(l)))
    ensures Attempts(|Queue(l)|, intake) == |Queue(l)|
  {
    assert Queue(l)[..|Queue(l)|] == Queue(l);
    PartOfAccepted(Queue(l), intake);
    assert l.log.lost + [] == l.log.lost;
  }

  lemma StepFifo(l: Link, o: Occurrence, max: nat)
    requires Fifo(l) && Takes(l, o) && !o.e.Rejected? && (o.e.Tick? ==> !GivesUp(l, max))
    requires Step(l, o.e, o.bridge, max).Done?
    ensures Fifo(Step(l, o.e, o.bridge, max).link)
  {
    assert Queue(l) == l.low;
    match o.e
    case Submit(f, ch) =>
      var queued := Enqueued(l, f);
      assert IntakeOf(o.e, o.bridge).Accepts(0);
      assert queued.log.sent + queued.low == queued.log.accepted;
      assert Queue(queued) == queued.low;
      DrainAll(queued, ch.frames);
    case Established(_, _) => DrainAll(l, IntakeOf(o.e, o.bridge));
    case CloseChannel(_) => DrainAll(l, IntakeOf(o.e, o.bridge));
    case _ =>
  }

  /** FIFO: what the bridge got, followed by what is queued, is what was accepted, in submission order. */
  lemma {:induction false} FifoWhileTaken(es: seq<Occurrence>, max: nat)
    requires Taken(es, max) && Run(es, max).Done? && (forall o :: o in es ==> !o.e.Rejected?)
    ensures Fifo(Run(es, max).link)
  {
    if es != [] {
      var us := es[..|es| - 1];
      assert es[|es| - 1] in es;
      FifoWhileTaken(us, max);
      StepFifo(Run(us, max).link, es[|es| - 1], max);
    }
  }

  /** While every frame is taken and no address is given up, nothing is lost. */
  lemma {:induction false} TakenLosesNothing(es: seq<Occurrence>, max: nat)
    requires Taken(es, max) && Run(es, max).Done?
    ensures Run(es, max).link.log.lost == []
  {
    if es != [] {
      var us := es[..|es| - 1];
      TakenLosesNothing(us, max);
      StepLosesNothing(Run(us, max).link, es[|es| - 1], max);
    }
  }

  lemma StepLosesNothing(l: Link, o: Occurrence, max: nat)
    requires Takes(l, o) && (o.e.Tick? ==> !GivesUp(l, max)) && Step(l, o.e, o.bridge, max).Done?
    ensures Step(l, o.e, o.bridge, max).link.log.lost == l.log.lost
  {
    match o.e
    case Submit(f, ch) =>
      var queued := Enqueued(l, f);
      assert IntakeOf(o.e, o.bridge).Accepts(0);
      assert |Queue(queued)| == |Queue(l)| + 1;
      DrainAll(queued, ch.frames);
    case Established(_, _) => DrainAll(l, IntakeOf(o.e, o.bridge));
    case CloseChannel(_) => DrainAll(l, IntakeOf(o.e, o.bridge));
    case _ =>
  }

  /** Every frame accepted or given back is with the bridge, queued, or lost; none is invented or duplicated. */
  predicate Conserved(l: Link) {
    multiset(l.log.sent) + multiset(l.log.lost) + multiset(Queue(l)) == multiset(l.log.accepted) + multiset(l.log.returned)
  }

  lemma PartGrows(q: seq<Frame>, intake: Intake, taken: bool)
    requires q != []
    ensures var front, last := q[..|q| - 1], q[|q| - 1];
      multiset(Part(q, intake, taken))
      == multiset(Part(front, intake, taken)) + if intake.Accepts(|front|) == taken then multiset{last} else multiset{}
  {
    var front, last := q[..|q| - 1], q[|q| - 1];
    LogGrows(Part(front, intake, taken), last);
  }

  lemma {:induction false} PartsSplit(q: seq<Frame>, intake: Intake)
    ensures multiset(Part(q, intake, true)) + multiset(Part(q, intake, false)) == multiset(q)
  {
    if q != [] {
      var front, last := q[..|q| - 1], q[|q| - 1];
      PartsSplit(front, intake);
      assert q == front + [last];
      LogGrows(front, last);
      PartGrows(q, intake, true);
      PartGrows(q, intake, false);
      OneJoins(multiset(Part(front, intake, true)), multiset(Part(front, intake, false)), multiset{last});
    }
  }

  lemma OneJoins(a: multiset<Frame>, b: multiset<Frame>, f: multiset<Frame>)
    ensures (a + f) + b == a + (b + f) == (a + b) + f
  {
  }

  lemma DrainQueue(l: Link, k: nat, intake: Intake)
    requires k <= |Queue(l)|
    ensures Queue(Drain(l, k, intake)) == Queue(l)[k..]
  {
  }

  lemma Moved(a: multiset<Frame>, b: multiset<Frame>, q: multiset<Frame>, x: multiset<Frame>, y: multiset<Frame>, r: multiset<Frame>)
    requires q == x + y + r
    ensures (a + x) + (b + y) + r == a + b + q
  {
  }

  lemma JoinedBags(a: seq<Frame>, b: seq<Frame>)
    ensures multiset(a + b) == multiset(a) + multiset(b)
  {
  }

  /** Handing out the first `k` frames moves them from the queue into the two logs. */
  lemma HandedOut(sent: seq<Frame>, lost: seq<Frame>, q: seq<Frame>, k: nat, intake: Intake)
    requires k <= |q|
    ensures multiset(sent + Part(q[..k], intake, true)) + multiset(lost + Part(q[..k], intake, false)) + multiset(q[k..])
      == multiset(sent) + multiset(lost) + multiset(q)
  {
    var x, y := Part(q[..k], intake, true), Part(q[..k], intake, false);
    JoinedBags(sent, x);
    JoinedBags(lost, y);
    JoinedBags(q[..k], q[k..]);
    assert q[..k] + q[k..] == q;
    PartsSplit(q[..k], intake);
    Moved(multiset(sent), multiset(lost), multiset(q), multiset(x), multiset(y), multiset(q[k..]));
  }

  lemma DrainConserved(l: Link, k: nat, intake: Intake)
    requires Conserved(l) && k <= |Queue(l)|
    ensures Conserved(Drain(l, k, intake))
  {
    DrainQueue(l, k, intake);
    HandedOut(l.log.sent, l.log.lost, Queue(l), k, intake);
  }

  lemma GiveUpConserved(l: Link)
    requires Conserved(l)
    ensures Conserved(l.(retry := None, high := [], low := [], conn := None, log := l.log.Lose(Queue(l)).Drop()))
  {
    JoinedBags(l.log.lost, Queue(l));
  }

  lemma QueueGrows(high: seq<Frame>, low: seq<Frame>, f: Frame)
    ensures multiset(high + (low + [f])) == multiset(high + low) + multiset{f}
    ensures multiset((high + [f]) + low) == multiset(high + low) + multiset{f}
  {
    assert high + (low + [f]) == high + low + [f];
    assert (high + [f]) + low == high + ([f] + low);
  }

  lemma LogGrows(s: seq<Frame>, f: Frame)
    ensures multiset(s + [f]) == multiset(s) + multiset{f}
  {
  }

  lemma BothGrow(a: multiset<Frame>, b: multiset<Frame>, c: multiset<Frame>, d: multiset<Frame>, f: multiset<Frame>)
    requires a + b == c + d
    ensures a + (b + f) == (c + f) + d == c + (d + f) == (a + f) + b
  {
    assert a + (b + f) == (a + b) + f;
    assert (a + f) + b == (a + b) + f;
    assert (c + f) + d == (c + d) + f;
    assert c + (d + f) == (c + d) + f;
  }

  lemma EnqueuedConserved(l: Link, f: Frame)
    requires Conserved(l)
    ensures Conserved(Enqueued(l, f))
  {
    QueueGrows(l.high, l.low, f);
    LogGrows(l.log.accepted, f);
    BothGrow(multiset(l.log.sent) + multiset(l.log.lost), multiset(Queue(l)), multiset(l.log.accepted), multiset(l.log.returned), multiset{f});
  }

  lemma RejectedConserved(l: Link, f: Frame)
    requires Conserved(l)
    ensures Conserved(Step(l, Rejected(f), true, 0).link)
  {
    QueueGrows(l.high, l.low, f);
    LogGrows(l.log.returned, f);
    BothGrow(multiset(l.log.sent) + multiset(l.log.lost), multiset(Queue(l)), multiset(l.log.accepted), multiset(l.log.returned), multiset{f});
  }

  lemma DirectConserved(l: Link, f: Frame, taken: bool)
    requires Conserved(l) && Queue(l) == []
    ensures Conserved(l.(log := Handed(l.log.Accept(f), f, taken)))
  {
    LogGrows(l.log.accepted, f);
    LogGrows(l.log.sent, f);
    LogGrows(l.log.lost, f);
    var s, t := multiset(l.log.sent), multiset(l.log.lost);
    assert (s + multiset{f}) + t == (s + t) + multiset{f} == s + (t + multiset{f});
    BothGrow(s + t, multiset(Queue(l)), multiset(l.log.accepted), multiset(l.log.returned), multiset{f});
  }

  lemma SubmitConserved(l: Link, f: Frame, bridge: bool, ch: Channel)
    requires Conserved(l) && RouteTcp(l, f, bridge, ch).Done?
    ensures Conserved(RouteTcp(l, f, bridge, ch).link)
  {
    var queued := Enqueued(l, f);
    EnqueuedConserved(l, f);
    if l.conn.Some? && l.conn.value.Connected? {
      if Queue(l) == [] {
        DirectConserved(l, f, bridge && ch.frames.Accepts(0));
      } else {
        DrainConserved(queued, Attempts(|Queue(queued)|, ch.frames), ch.frames);
      }
    }
  }

  lemma UnmovedConserved(l: Link, l': Link)
    requires Conserved(l) && l'.high == l.high && l'.low == l.low
    requires l'.log.sent == l.log.sent && l'.log.lost == l.log.lost
    requires l'.log.accepted == l.log.accepted && l'.log.returned == l.log.returned
    ensures Conserved(l')
  {
  }

  lemma TickConserved(l: Link, bridge: bool, max: nat, ch: Channel)
    requires Conserved(l) && RetryTick(l, bridge, max, ch).Done?
    ensures Conserved(RetryTick(l, bridge, max, ch).link)
  {
    if GivesUp(l, max) {
      GiveUpConserved(l);
    } else {
      UnmovedConserved(l, RetryTick(l, bridge, max, ch).link);
    }
  }

  lemma EstablishConserved(l: Link, id: Session, bridge: bool, ch: Channel)
    requires Conserved(l)
    ensures Conserved(Establish(l, id, bridge, ch))
  {
    var intake := if bridge then ch.frames else Nothing;
    DrainConserved(l, |Queue(l)|, intake);
    UnmovedConserved(Drain(l, |Queue(l)|, intake), Establish(l, id, bridge, ch));
  }

  lemma DisconnectConserved(l: Link, bridge: bool, ch: Channel)
    requires Conserved(l)
    ensures Conserved(Disconnect(l, bridge, ch))
  {
    DrainConserved(l, |Queue(l)|, ch.frames);
  }

  lemma StepConserved(l: Link, e: Event, bridge: bool, max: nat)
    requires Conserved(l) && Step(l, e, bridge, max).Done?
    ensures Conserved(Step(l, e, bridge, max).link)
  {
    match e
    case Submit(f, ch) => SubmitConserved(l, f, bridge, ch);
    case Tick(ch) => TickConserved(l, bridge, max, ch);
    case Established(id, ch) => EstablishConserved(l, id, bridge, ch);
    case ConnLost(id) => UnmovedConserved(l, Lose(l, id));
    case ConnClosed(id) => UnmovedConserved(l, Close(l, id));
    case TransportDropped => UnmovedConserved(l, l.(retry := None));
    case SystemBlocked => UnmovedConserved(l, l.(conn := Some(Blocked)));
    case SystemAllowed => UnmovedConserved(l, l.(conn := None));
    case Rejected(f) => RejectedConserved(l, f);
    case CloseChannel(ch) => DisconnectConserved(l, bridge, ch);
    case NetworkFailure => UnmovedConserved(l, FailNetwork(l));
  }

  /** In every run, while the bridge comes and goes and whatever it refuses, no frame disappears unaccounted. */
  lemma {:induction false} FramesConserved(es: seq<Occurrence>, max: nat)
    requires Run(es, max).Done?
    ensures Conserved(Run(es, max).link)
  {
    if es != [] {
      var us, o := es[..|es| - 1], es[|es| - 1];
      FramesConserved(us, max);
      StepConserved(Run(us, max).link, o.e, o.bridge, max);
    }
  }

  // --- Retries ---

  predicate Bounded(l: Link, max: nat) {
    l.retry.Some? ==> l.retry.value <= max
  }

  /** Every retry counter stays within the configured maximum, so a u8 maximum never overflows it. */
  lemma {:induction false} RetryBounded(es: seq<Occurrence>, max: nat)
    requires Run(es, max).Done?
    ensures Bounded(Run(es, max).link, max)
  {
    if es != [] {
      RetryBounded(es[..|es| - 1], max);
    }
  }

  predicate Connecting(l: Link) { l.conn.None? || l.conn.value.New? }

  predicate IsClosed(l: Link) { l.conn.Some? && l.conn.value.Closed? }

  predicate IsConnected(l: Link) { l.conn.Some? && l.conn.value.Connected? }

  /** Events that start the retries of an address anew: a first dial, or frames that wait for a closed connection. */
  predicate Restarts(l: Link, e: Event, bridge: bool) {
    (e.Submit? && bridge && Connecting(l)) || (e.ConnClosed? && Queue(l) != [])
  }

  /** Events that start retries unless they are running. */
  predicate EnsuresRetries(l: Link, e: Event, bridge: bool) {
    || (e.Submit? && bridge && IsClosed(l))
    || e.ConnLost? || e.Rejected? || (e.NetworkFailure? && IsConnected(l))
  }

  /** Events that end the retries: an established connection, a reported drop, and giving up. */
  predicate EndsRetries(l: Link, e: Event, max: nat) {
    e.Established? || e.TransportDropped? || (e.Tick? && GivesUp(l, max))
  }

  /** The retry counter after every event, exactly. */
  lemma StepRetries(l: Link, e: Event, bridge: bool, max: nat)
    requires Step(l, e, bridge, max).Done?
    ensures var retry := Step(l, e, bridge, max).link.retry;
      if EndsRetries(l, e, max) then retry == None
      else if Restarts(l, e, bridge) then retry == Some(0)
      else if EnsuresRetries(l, e, bridge) then retry == if l.retry.Some? then l.retry else Some(0)
      else if e.Tick? && l.retry.Some? then retry == Some(l.retry.value + 1)
      else retry == l.retry
  {
    if e.Submit? {
      SubmitRetries(l, e.f, bridge, e.ch);
    }
  }

  lemma SubmitRetries(l: Link, f: Frame, bridge: bool, ch: Channel)
    requires RouteTcp(l, f, bridge, ch).Done?
    ensures RouteTcp(l, f, bridge, ch).link.retry
      == if bridge && Connecting(l) then Some(0)
         else if bridge && IsClosed(l) && l.retry.None? then Some(0) else l.retry
  {
  }

  /** The connection state after every event, exactly. */
  lemma StepConnection(l: Link, e: Event, bridge: bool, max: nat)
    requires Step(l, e, bridge, max).Done?
    ensures var conn := Step(l, e, bridge, max).link.conn;
      match e
      case Submit(_, ch) =>
        conn == if Connecting(l) then Some(if bridge then Initializing else New)
                else if IsClosed(l) && (bridge ==> ch.dials) then Some(Initializing) else l.conn
      case Established(id, _) => conn == Some(Connected(id))
      case ConnLost(id) => conn == Some(Lost(id))
      case ConnClosed(id) => conn == Some(Closed(id))
      case SystemBlocked => conn == Some(Blocked)
      case SystemAllowed => conn == None
      case Tick(_) => conn == if GivesUp(l, max) then None else l.conn
      case NetworkFailure => conn == if IsConnected(l) then Some(Lost(l.conn.value.id)) else l.conn
      case _ => conn == l.conn
  {
    if e.Submit? {
      SubmitConnection(l, e.f, bridge, e.ch);
    }
  }

  lemma SubmitConnection(l: Link, f: Frame, bridge: bool, ch: Channel)
    requires RouteTcp(l, f, bridge, ch).Done?
    ensures RouteTcp(l, f, bridge, ch).link.conn
      == if Connecting(l) then Some(if bridge then Initializing else New)
         else if IsClosed(l) && (bridge ==> ch.dials) then Some(Initializing) else l.conn
  {
  }

  /** A panic is exactly a refused dial: for the first frame of an address, or in a retry. */
  lemma StepPanics(l: Link, e: Event, bridge: bool, max: nat)
    ensures Step(l, e, bridge, max).Panic? <==>
      bridge && ((e.Submit? && !e.ch.dials && Connecting(l)) || (e.Tick? && !e.ch.dials && l.retry.Some? && !GivesUp(l, max)))
  {
  }

  /** Ticks, with or without a bridge, whatever it does. */
  predicate OnlyTicks(es: seq<Occurrence>) { forall o :: o in es ==> o.e.Tick? }

  /**
   Established connections are left alone: after any run that ends with one, any number of ticks
   changes nothing; no dial, no drop, no panic, and the connection is still there.
   */
  lemma {:induction false} EstablishedIsLeftAlone(es: seq<Occurrence>, id: Session, ch: Channel, bridge: bool, ticks: seq<Occurrence>, max: nat)
    requires Run(es, max).Done? && OnlyTicks(ticks)
    ensures var now := es + [At(Established(id, ch), bridge)];
      && Run(now, max).Done? && Run(now + ticks, max) == Run(now, max)
      && Run(now, max).link.conn == Some(Connected(id)) && Run(now, max).link.retry == None
    decreases |ticks|
  {
    var o := At(Established(id, ch), bridge);
    var now := es + [o];
    RunAppend(es, o, max);
    if ticks == [] {
      assert now + ticks == now;
    } else {
      var front, last := ticks[..|ticks| - 1], ticks[|ticks| - 1];
      assert last in ticks && forall x :: x in front ==> x in ticks;
      EstablishedIsLeftAlone(es, id, ch, bridge, front, max);
      assert now + ticks == (now + front) + [last];
      RunAppend(now + front, last, max);
    }
  }

  /** The event asks the bridge for a connection: a frame for a new or closed address, or a retry. */
  predicate Asks(l: Link, e: Event, bridge: bool, max: nat) {
    && bridge
    && match e
       case Submit(_, ch) => ch.dials && (l.conn.None? || l.conn.value.New? || l.conn.value.Closed?)
       case Tick(ch) => ch.dials && l.retry.Some? && l.retry.value < max
       case _ => false
  }

  /** Exactly these events are logged as dials, and exactly giving up as a drop. */
  lemma StepDials(l: Link, e: Event, bridge: bool, max: nat)
    requires Step(l, e, bridge, max).Done?
    ensures var l' := Step(l, e, bridge, max).link;
      && l'.log.dials == l.log.dials + (if Asks(l, e, bridge, max) then 1 else 0)
      && l'.log.dropped == l.log.dropped + if e.Tick? && GivesUp(l, max) then 1 else 0
  {
    if e.Submit? {
      SubmitDials(l, e.f, bridge, e.ch, max);
    }
  }

  lemma SubmitDials(l: Link, f: Frame, bridge: bool, ch: Channel, max: nat)
    requires RouteTcp(l, f, bridge, ch).Done?
    ensures var l' := RouteTcp(l, f, bridge, ch).link;
      && l'.log.dials == l.log.dials + (if Asks(l, Submit(f, ch), bridge, max) then 1 else 0)
      && l'.log.dropped == l.log.dropped
  {
  }

  /** `k` retry ticks from link `l`, with a bridge that takes dial requests. */
  function AfterTicks(l: Link, k: nat, max: nat): Link {
    if k == 0 then l
    else RetryTick(AfterTicks(l, k - 1, max), true, max, Channel(Nothing, true)).link
  }

  /**
   From a counter of 0 an unanswered address is dialled exactly `max` times; the next tick drops
   its queue, state and counter with one indication, and later ticks change nothing.
   */
  lemma {:induction false} RetriesThenGivesUp(l: Link, k: nat, max: nat)
    requires l.retry == Some(0)
    ensures AfterTicks(l, k, max) ==
            if k <= max then l.(retry := Some(k), log := l.log.(dials := l.log.dials + k))
            else l.(retry := None, high := [], low := [], conn := None,
                   log := l.log.(lost := l.log.lost + Queue(l), dials := l.log.dials + max, dropped := l.log.dropped + 1))
  {
    if k > 0 {
      RetriesThenGivesUp(l, k - 1, max);
    }
  }
}
