/** The agent owner loop as a state machine: one step for each way its two `select!`s can
    resolve. Every attached channel is remembered as a `Link`, with the events read for it
    since it was attached and the events its queue accepted. */
module OwnerMachine {
  import opened Domain

  datatype Route = Route(room: bool, session: SessionRef, link: nat)

  datatype Link = Link(room: bool, session: SessionRef, since: nat,
                       read: seq<TransportEvent>, accepted: seq<TransportEvent>)

  datatype Target = Target(binding: BindingId, link: nat)

  datatype Delivery = Delivery(event: TransportEvent, targets: seq<Target>)

  /** `reading` is a disconnect taken off the transport whose bookkeeping in storage is still
      being awaited; `stopped` says that the loop was left; `clock` counts the steps. */
  datatype Owner = Owner(
    agent: AgentId,
    bindings: map<BindingId, Route>,
    pending: Option<Delivery>,
    owned: map<BindingId, SessionRef>,
    reading: Option<TransportEvent>,
    stopped: bool,
    links: seq<Link>,
    clock: nat)

  datatype OpenOutcome = Refused | Opened(session: SessionRef, capsuleDelivered: bool)

  /** A session that was opened but not prompted is given up, in steps that storage may refuse. */
  datatype RoomOutcome =
    | NotActivated
    | GivenUp(session: SessionRef, steps: Steps)
    | Activated(session: SessionRef, replied: bool, detached: bool)

  datatype Input =
    | Retire
    | Delivered(ok: bool)
    | TakeDisconnect(taken: TransportEvent)
    | Event(event: TransportEvent, trySent: bool, order: seq<BindingId>)
    | OpenSession(requested: BindingId, opening: OpenOutcome)
    | ActivateRoom(activation: RoomOutcome)
    | Detach(session: SessionRef, disconnected: bool)
    | OtherCommand
    | EventFails(failing: TransportEvent)
    | Stop

  function Start(agent: AgentId): Owner {
    Owner(agent, map[], None, map[], None, false, [], 0)
  }

  // ---- Event kinds ----

  predicate IsPreview(event: TransportEvent) {
    event.AgentTextDelta? || event.ToolCallStarted? || event.ToolCallFinished?
  }

  predicate IsDrained(event: TransportEvent) {
    event.AgentMessageCompleted? || event.UsageReported? || event.TurnStarted?
  }

  predicate IsControl(event: TransportEvent) {
    !IsPreview(event) && !IsDrained(event)
  }

  /** The events a route must not lose: all of them for a conversation, control events for a Room. */
  function Wanted(room: bool, events: seq<TransportEvent>): seq<TransportEvent> {
    if room then Filter(IsControl, events) else events
  }

  // ---- Steps ----

  function Read(links: seq<Link>, link: nat, event: TransportEvent): seq<Link>
    requires link < |links|
  {
    links[link := links[link].(read := links[link].read + [event])]
  }

  function Accept(links: seq<Link>, link: nat, event: TransportEvent): seq<Link>
    requires link < |links|
  {
    links[link := links[link].(accepted := links[link].accepted + [event])]
  }

  ghost predicate Live(bindings: map<BindingId, Route>, link: nat) {
    exists id :: id in bindings && bindings[id].link == link
  }

  ghost function ReadAll(links: seq<Link>, bindings: map<BindingId, Route>, event: TransportEvent): (r: seq<Link>)
    ensures |r| == |links|
  {
    seq(|links|, i requires 0 <= i < |links| =>
      if Live(bindings, i) then links[i].(read := links[i].read + [event]) else links[i])
  }

  function Targets(bindings: map<BindingId, Route>, order: seq<BindingId>): seq<Target>
    requires forall id :: id in order ==> id in bindings
  {
    if order == [] then []
    else [Target(order[0], bindings[order[0]].link)] + Targets(bindings, order[1..])
  }

  predicate Unique(order: seq<BindingId>) {
    order == [] || (order[0] !in order[1..] && Unique(order[1..]))
  }

  ghost predicate UniqueTargets(targets: seq<Target>) {
    targets == []
    || ((forall t :: t in targets[1..] ==> t.binding != targets[0].binding) && UniqueTargets(targets[1..]))
  }

  /** `VecDeque::retain` on the targets of one binding. */
  function Without(targets: seq<Target>, binding: BindingId): seq<Target> {
    if targets == [] then []
    else (if targets[0].binding == binding then [] else [targets[0]]) + Without(targets[1..], binding)
  }

  function Forget(pending: Option<Delivery>, binding: BindingId): Option<Delivery> {
    match pending
    case None => None
    case Some(delivery) => Some(delivery.(targets := Without(delivery.targets, binding)))
  }

  function Attach(s: Owner, room: bool, session: SessionRef): Owner {
    s.(bindings := s.bindings[session.binding := Route(room, session, |s.links|)],
       owned := s.owned[session.binding := session],
       links := s.links + [Link(room, session, s.clock, [], [])])
  }

  ghost function OnEvent(s: Owner, event: TransportEvent, trySent: bool, order: seq<BindingId>): Owner
    requires RoutesLinked(s)
    requires forall id :: id in order ==> id in s.bindings
  {
    match EventSession(event)
    case Some(session) =>
      if session.binding !in s.bindings || s.bindings[session.binding].session != session then s
      else
        var route := s.bindings[session.binding];
        var links := Read(s.links, route.link, event);
        if route.room && IsPreview(event) then
          s.(links := if trySent then Accept(links, route.link, event) else links)
        else if route.room && IsDrained(event) then s.(links := links)
        else s.(links := links, pending := Some(Delivery(event, [Target(session.binding, route.link)])))
    case None =>
      s.(links := ReadAll(s.links, s.bindings, event),
         pending := if order == [] then None else Some(Delivery(event, Targets(s.bindings, order))),
         reading := None)
  }

  function OnDelivered(s: Owner, ok: bool): Owner
    requires s.pending.Some? && s.pending.value.targets != []
    requires s.pending.value.targets[0].link < |s.links|
  {
    var Delivery(event, targets) := s.pending.value;
    var s' := s.(pending := Some(Delivery(event, targets[1..])));
    if ok then s'.(links := Accept(s.links, targets[0].link, event))
    else s'.(bindings := s.bindings - {targets[0].binding})
  }

  function OnOpen(s: Owner, requested: BindingId, outcome: OpenOutcome): Owner {
    if requested in s.bindings || outcome.Refused? then s
    else
      var attached := Attach(s, false, outcome.session);
      if outcome.capsuleDelivered then attached
      else attached.(bindings := attached.bindings - {outcome.session.binding},
                   owned := attached.owned - {outcome.session.binding},
                   pending := Forget(s.pending, outcome.session.binding))
  }

  function OnActivate(s: Owner, outcome: RoomOutcome): Owner {
    match outcome
    case NotActivated => s
    case GivenUp(session, steps) => if steps.All() then s else s.(owned := s.owned[session.binding := session])
    case Activated(session, replied, detached) =>
      var active := Attach(s, true, session);
      if replied then active
      else active.(bindings := active.bindings - {session.binding},
                   owned := if detached then active.owned - {session.binding} else active.owned)
  }

  function OnDetach(s: Owner, session: SessionRef, disconnected: bool): Owner {
    if session.binding in s.bindings && s.bindings[session.binding].session == session && disconnected then
      s.(bindings := s.bindings - {session.binding},
         owned := s.owned - {session.binding},
         pending := Forget(s.pending, session.binding))
    else s
  }

  /** The loop waits in a `select!`: it is not about to drop an exhausted delivery. */
  predicate Waits(s: Owner) {
    s.pending.Some? ==> s.pending.value.targets != []
  }

  predicate OwnDisconnect(s: Owner, event: TransportEvent) {
    event.TransportDisconnected? && event.agent == s.agent
  }

  /** The event says that a session the manager owns is lost. */
  predicate LosesOwned(s: Owner, event: TransportEvent) {
    event.SessionLost? && event.session.binding in s.owned && s.owned[event.session.binding] == event.session
  }

  /** What storage has to record about an event may fail; then the loop ends before it is routed.
      The environment's part: transports echo the requested binding, and replacement ids and
      Room bindings that are handed out are not owned already. */
  ghost predicate Enabled(s: Owner, input: Input) {
    !s.stopped &&
    match input
    case Retire => !Waits(s)
    case Delivered(_) => s.pending.Some? && Waits(s)
    case TakeDisconnect(taken) => s.pending.None? && s.reading.None? && OwnDisconnect(s, taken)
    case Event(event, _, order) =>
      && s.pending.None?
      && s.reading == (if OwnDisconnect(s, event) then Some(event) else None)
      && (forall id :: id in order <==> id in s.bindings) && Unique(order)
    case OpenSession(requested, outcome) =>
      Waits(s) && (outcome.Opened? ==> outcome.session.binding == requested || outcome.session.binding !in s.owned)
    case ActivateRoom(outcome) =>
      Waits(s) && (!outcome.NotActivated? ==> outcome.session.binding !in s.owned)
    case Detach(_, _) => Waits(s)
    case OtherCommand => Waits(s)
    case EventFails(event) =>
      && s.pending.None?
      && s.reading == (if OwnDisconnect(s, event) then Some(event) else None)
      && (OwnDisconnect(s, event) || LosesOwned(s, event))
    case Stop => Waits(s)
  }

  ghost function Step(s: Owner, input: Input): Owner
    requires Inv(s) && Enabled(s, input)
  {
    var s' := s.(clock := s.clock + 1);
    var commanded := s'.(reading := None);  // a command cancels the event future
    match input
    case Retire => s'.(pending := None)
    case Delivered(ok) => OnDelivered(s', ok)
    case TakeDisconnect(taken) => s'.(reading := Some(taken))
    case Event(event, trySent, order) => OnEvent(s', event, trySent, order)
    case OpenSession(requested, outcome) => OnOpen(commanded, requested, outcome)
    case ActivateRoom(outcome) => OnActivate(commanded, outcome)
    case Detach(session, disconnected) => OnDetach(commanded, session, disconnected)
    case OtherCommand => commanded
    case EventFails(_) => s'.(reading := None, stopped := true)
    case Stop => commanded.(stopped := true)
  }

  // ---- The invariant ----

  ghost predicate RoutesLinked(s: Owner) {
    forall id :: id in s.bindings ==>
      var route := s.bindings[id];
      && route.link < |s.links|
      && route.session.binding == id
      && s.links[route.link].session == route.session
      && s.links[route.link].room == route.room
  }

  /** Every route's session is the one the manager owns under that id. */
  ghost predicate RoutesOwned(s: Owner) {
    forall id :: id in s.bindings ==> id in s.owned && s.owned[id] == s.bindings[id].session
  }

  ghost predicate LinksDistinct(s: Owner) {
    forall a, b :: a in s.bindings && b in s.bindings && s.bindings[a].link == s.bindings[b].link ==> a == b
  }

  /** Pending targets are distinct ids, each with a live route to the same channel. */
  ghost predicate TargetsRouted(s: Owner) {
    s.pending.Some? ==>
      && UniqueTargets(s.pending.value.targets)
      && forall t :: t in s.pending.value.targets ==> t.binding in s.bindings && s.bindings[t.binding].link == t.link
  }

  ghost predicate Awaited(targets: seq<Target>, link: nat) {
    exists t :: t in targets && t.link == link
  }

  /** The one event, if any, that is read but not yet accepted by this channel. */
  ghost function Held(pending: Option<Delivery>, link: nat): seq<TransportEvent> {
    if pending.Some? && Awaited(pending.value.targets, link) then [pending.value.event] else []
  }

  /** `a` is `b` with some events left out: nothing reordered, repeated or invented. */
  ghost predicate Subsequence(a: seq<TransportEvent>, b: seq<TransportEvent>) {
    || a == []
    || (b != []
        && ((a[|a| - 1] == b[|b| - 1] && Subsequence(a[..|a| - 1], b[..|b| - 1]))
            || Subsequence(a, b[..|b| - 1])))
  }

  ghost predicate Flows(link: Link, held: seq<TransportEvent>, live: bool) {
    && Subsequence(link.accepted + held, link.read)
    && (forall e :: e in link.read ==> EventSession(e) in {None, Some(link.session)})
    && (live ==> Wanted(link.room, link.read) == Wanted(link.room, link.accepted + held))
    && (!live ==> held == [] && Wanted(link.room, link.accepted) <= Wanted(link.room, link.read))
  }

  ghost predicate LinkFlows(s: Owner, i: nat)
    requires i < |s.links|
  {
    Flows(s.links[i], Held(s.pending, i), Live(s.bindings, i))
  }

  ghost predicate AllFlow(s: Owner) {
    forall i :: 0 <= i < |s.links| ==> LinkFlows(s, i)
  }

  /** The route table, the ownership map and the pending targets agree. */
  ghost predicate Wired(s: Owner) {
    RoutesLinked(s) && RoutesOwned(s) && LinksDistinct(s) && TargetsRouted(s)
  }

  ghost predicate Inv(s: Owner) {
    Wired(s) && AllFlow(s)
  }

  // ---- Preservation ----

  lemma {:induction false} SubsequenceDropLast(a: seq<TransportEvent>, e: TransportEvent, b: seq<TransportEvent>)
    requires Subsequence(a + [e], b)
    ensures Subsequence(a, b)
  {
    assert (a + [e])[..|a|] == a;
    if b != [] {
      var b' := b[..|b| - 1];
      if a != [] {
        if e == b[|b| - 1] && Subsequence(a, b') {
          assert Subsequence(a, b);
        } else {
          SubsequenceDropLast(a, e, b');
        }
      }
    }
  }

  lemma FlowsRead(link: Link, event: TransportEvent)
    requires Flows(link, [], true) && EventSession(event) in {None, Some(link.session)}
    ensures Flows(link.(read := link.read + [event]), [event], true)
  {
    var read := link.read + [event];
    assert read[..|link.read|] == link.read;
    assert (link.accepted + [event])[..|link.accepted|] == link.accepted;
    assert link.accepted + [] == link.accepted;
    WantedAppend(link.room, link.read, event);
    WantedAppend(link.room, link.accepted, event);
  }

  lemma WantedAppend(room: bool, events: seq<TransportEvent>, event: TransportEvent)
    ensures Wanted(room, events + [event]) == Wanted(room, events) + Wanted(room, [event])
    ensures room && !IsControl(event) ==> Wanted(room, [event]) == []
  {
    if room { FilterAppend(IsControl, events, [event]); }
  }

  /** Room previews and private output: read, and accepted or left out, without being pending. */
  lemma FlowsUnwanted(link: Link, event: TransportEvent)
    requires Flows(link, [], true) && EventSession(event) in {None, Some(link.session)}
    requires link.room && !IsControl(event)
    ensures Flows(link.(read := link.read + [event]), [], true)
    ensures Flows(link.(read := link.read + [event], accepted := link.accepted + [event]), [], true)
  {
    FlowsRead(link, event);
    var read := link.read + [event];
    assert read[..|link.read|] == link.read;
    assert link.accepted + [] == link.accepted;
    FlowsAccept(link.(read := read), event);
    WantedAppend(link.room, link.read, event);
    WantedAppend(link.room, link.accepted, event);
  }

  lemma FlowsAccept(link: Link, event: TransportEvent)
    requires Flows(link, [event], true)
    ensures Flows(link.(accepted := link.accepted + [event]), [], true)
  {
    assert (link.accepted + [event]) + [] == link.accepted + [event];
  }

  /** A route that goes away keeps the order of what it already delivered. */
  lemma FlowsDetached(link: Link, held: seq<TransportEvent>)
    requires Flows(link, held, true) && |held| <= 1
    ensures Flows(link, [], false)
  {
    assert link.accepted + [] == link.accepted;
    if held != [] {
      assert held == [held[0]];
      SubsequenceDropLast(link.accepted, held[0], link.read);
    }
    if link.room {
      FilterAppend(IsControl, link.accepted, held);
    }
  }

  lemma {:induction false} WithoutIn(targets: seq<Target>, binding: BindingId)
    ensures forall t :: t in Without(targets, binding) <==> t in targets && t.binding != binding
  {
    if targets != [] {
      WithoutIn(targets[1..], binding);
      assert targets == [targets[0]] + targets[1..];
    }
  }

  lemma {:induction false} WithoutUnique(targets: seq<Target>, binding: BindingId)
    requires UniqueTargets(targets)
    ensures UniqueTargets(Without(targets, binding))
  {
    if targets != [] {
      WithoutUnique(targets[1..], binding);
      WithoutIn(targets[1..], binding);
      var rest := Without(targets[1..], binding);
      assert ([targets[0]] + rest)[1..] == rest;
      assert [] + rest == rest;
    }
  }

  /** A binding without a route has no target to drop. */
  lemma {:induction false} WithoutNothing(targets: seq<Target>, binding: BindingId)
    requires forall t :: t in targets ==> t.binding != binding
    ensures Without(targets, binding) == targets
  {
    if targets != [] { WithoutNothing(targets[1..], binding); }
  }

  lemma {:induction false} TargetsIn(bindings: map<BindingId, Route>, order: seq<BindingId>)
    requires forall id :: id in order ==> id in bindings
    requires Unique(order)
    ensures forall t :: t in Targets(bindings, order) <==> t.binding in order && t.link == bindings[t.binding].link
    ensures UniqueTargets(Targets(bindings, order))
  {
    if order != [] {
      TargetsIn(bindings, order[1..]);
      assert Targets(bindings, order)[1..] == Targets(bindings, order[1..]);
      assert order == [order[0]] + order[1..];
    }
  }

  lemma FanOutWired(s: Owner, order: seq<BindingId>, event: TransportEvent)
    requires Wired(s) && Unique(order) && forall id :: id in order <==> id in s.bindings
    ensures var pending := Some(Delivery(event, Targets(s.bindings, order)));
            && Wired(s.(pending := pending))
            && forall i :: Held(pending, i) == if Live(s.bindings, i) then [event] else []
  {
    var targets := Targets(s.bindings, order);
    TargetsIn(s.bindings, order);
    forall i ensures Awaited(targets, i) <==> Live(s.bindings, i) {
      if Live(s.bindings, i) {
        var id :| id in s.bindings && s.bindings[id].link == i;
        assert Target(id, i) in targets;
      }
    }
  }

  lemma DisconnectKeepsInv(s: Owner, event: TransportEvent, order: seq<BindingId>)
    requires Inv(s) && s.pending.None? && event.TransportDisconnected?
    requires Unique(order) && forall id :: id in order <==> id in s.bindings
    ensures Inv(OnEvent(s, event, false, order))
  {
    var s' := OnEvent(s, event, false, order);
    DisconnectWired(s, event, order);
    hide Wired;
    forall i | 0 <= i < |s'.links| ensures LinkFlows(s', i) {
      assert LinkFlows(s, i);
      if Live(s.bindings, i) { FlowsRead(s.links[i], event); }
    }
  }

  lemma DisconnectWired(s: Owner, event: TransportEvent, order: seq<BindingId>)
    requires Wired(s) && s.pending.None? && event.TransportDisconnected?
    requires Unique(order) && forall id :: id in order <==> id in s.bindings
    ensures var s' := OnEvent(s, event, false, order);
            && Wired(s') && s'.bindings == s.bindings && s'.links == ReadAll(s.links, s.bindings, event)
            && forall i :: Held(s'.pending, i) == if Live(s.bindings, i) then [event] else []
  {
    DisconnectFields(s, event, order);
    hide ReadAll, OnEvent, LinksDistinct, Unique, Targets, Held;
    var s' := OnEvent(s, event, false, order);
    if order == [] {
      NothingLive(s);
    } else {
      FanOutWired(s, order, event);
    }
    DisconnectRouted(s, s');
  }

  lemma NothingLive(s: Owner)
    requires s.bindings == map[]
    ensures forall i :: !Live(s.bindings, i) && Held(None, i) == []
  {
  }

  lemma DisconnectRouted(s: Owner, s': Owner)
    requires Wired(s) && SameChannels(s, s')
    requires s'.pending.None? || Wired(s.(pending := s'.pending))
    ensures Wired(s')
  {
    assert TargetsRouted(s');
    hide TargetsRouted, SameChannels, Wired;
    SameChannelsWired(s, s');
  }

  lemma DisconnectFields(s: Owner, event: TransportEvent, order: seq<BindingId>)
    requires RoutesLinked(s) && event.TransportDisconnected?
    requires forall id :: id in order <==> id in s.bindings
    ensures var s' := OnEvent(s, event, false, order);
            && SameChannels(s, s') && s'.links == ReadAll(s.links, s.bindings, event)
            && s'.pending == if order == [] then None else Some(Delivery(event, Targets(s.bindings, order)))
    ensures order == [] ==> s.bindings == map[]
  {
    hide RoutesLinked, Targets, Live;
    if order == [] {
      assert forall id :: id !in s.bindings;
    }
  }

  lemma SessionEventKeepsInv(s: Owner, event: TransportEvent, trySent: bool, order: seq<BindingId>)
    requires Inv(s) && s.pending.None? && EventSession(event).Some?
    requires forall id :: id in order ==> id in s.bindings
    ensures Inv(OnEvent(s, event, trySent, order))
  {
    hide RoutesLinked, RoutesOwned, LinksDistinct, TargetsRouted, LinkFlows, OnEvent;
    var s' := OnEvent(s, event, trySent, order);
    SessionEventWired(s, event, trySent, order);
    SessionEventLinks(s, event, trySent, order);
    forall i | 0 <= i < |s'.links| ensures LinkFlows(s', i) {
      assert LinkFlows(s, i);
      SessionEventFlows(s, event, trySent, order, i);
    }
  }

  lemma SessionEventLinks(s: Owner, event: TransportEvent, trySent: bool, order: seq<BindingId>)
    requires Wired(s) && EventSession(event).Some? && forall id :: id in order ==> id in s.bindings
    ensures |OnEvent(s, event, trySent, order).links| == |s.links|
  {
    hide RoutesOwned, LinksDistinct, TargetsRouted, IsPreview, IsDrained;
  }

  /** The same channels with more history, and the same routes. */
  ghost predicate SameChannels(s: Owner, s': Owner) {
    s'.bindings == s.bindings && s'.owned == s.owned && SameLinks(s.links, s'.links)
  }

  ghost predicate SameLinks(links: seq<Link>, links': seq<Link>) {
    && |links'| == |links|
    && forall i :: 0 <= i < |links| ==> links'[i].room == links[i].room && links'[i].session == links[i].session
  }

  lemma ReadSameLinks(links: seq<Link>, l: nat, event: TransportEvent)
    requires l < |links|
    ensures SameLinks(links, links) && SameLinks(links, Read(links, l, event))
    ensures |Read(links, l, event)| == |links| && SameLinks(links, Accept(Read(links, l, event), l, event))
  {
  }

  lemma SameChannelsWired(s: Owner, s': Owner)
    requires Wired(s) && SameChannels(s, s') && TargetsRouted(s')
    ensures Wired(s')
  {
    hide TargetsRouted;
  }

  lemma SessionEventWired(s: Owner, event: TransportEvent, trySent: bool, order: seq<BindingId>)
    requires Wired(s) && s.pending.None? && EventSession(event).Some?
    requires forall id :: id in order ==> id in s.bindings
    ensures Wired(OnEvent(s, event, trySent, order))
  {
    SessionEventSameChannels(s, event, trySent, order);
    hide Wired, OnEvent, SameChannels;
    SameChannelsWired(s, OnEvent(s, event, trySent, order));
  }

  lemma SessionEventSameChannels(s: Owner, event: TransportEvent, trySent: bool, order: seq<BindingId>)
    requires Wired(s) && s.pending.None? && EventSession(event).Some?
    requires forall id :: id in order ==> id in s.bindings
    ensures SameChannels(s, OnEvent(s, event, trySent, order)) && TargetsRouted(OnEvent(s, event, trySent, order))
  {
    SessionEventChannels(s, event, trySent, order);
    SessionEventTargets(s, event, trySent, order);
  }

  lemma SessionEventChannels(s: Owner, event: TransportEvent, trySent: bool, order: seq<BindingId>)
    requires RoutesLinked(s) && EventSession(event).Some? && forall id :: id in order ==> id in s.bindings
    ensures SameChannels(s, OnEvent(s, event, trySent, order))
  {
    var session := EventSession(event).value;
    assert SameLinks(s.links, s.links);
    if session.binding in s.bindings && s.bindings[session.binding].session == session {
      ReadSameLinks(s.links, s.bindings[session.binding].link, event);
      hide IsPreview, IsDrained, SameLinks, Read, Accept;
    }
  }

  lemma SessionEventTargets(s: Owner, event: TransportEvent, trySent: bool, order: seq<BindingId>)
    requires RoutesLinked(s) && s.pending.None? && EventSession(event).Some?
    requires forall id :: id in order ==> id in s.bindings
    ensures TargetsRouted(OnEvent(s, event, trySent, order))
  {
    hide IsPreview, IsDrained, UniqueTargets;
    var session := EventSession(event).value;
    if session.binding in s.bindings {
      OneTarget(Target(session.binding, s.bindings[session.binding].link));
    }
  }

  lemma OneTarget(target: Target)
    ensures UniqueTargets([target]) && forall t :: t in [target] ==> t == target
  {
    assert [target][1..] == [];
  }

  lemma SessionEventFlows(s: Owner, event: TransportEvent, trySent: bool, order: seq<BindingId>, i: nat)
    requires Wired(s) && s.pending.None? && EventSession(event).Some?
    requires forall id :: id in order ==> id in s.bindings
    requires i < |s.links| && LinkFlows(s, i)
    ensures i < |OnEvent(s, event, trySent, order).links| && LinkFlows(OnEvent(s, event, trySent, order), i)
  {
    var session := EventSession(event).value;
    SessionEventLinks(s, event, trySent, order);
    if session.binding in s.bindings && s.bindings[session.binding].session == session {
      if s.bindings[session.binding].link == i {
        OwnEventFlows(s, event, trySent, order);
      } else {
        OtherEventFlows(s, event, trySent, order, i);
      }
    }
  }

  /** The channel of the event's own route. */
  lemma OwnEventFlows(s: Owner, event: TransportEvent, trySent: bool, order: seq<BindingId>)
    requires Wired(s) && s.pending.None? && EventSession(event).Some?
    requires forall id :: id in order ==> id in s.bindings
    requires var session := EventSession(event).value;
             && session.binding in s.bindings && s.bindings[session.binding].session == session
             && s.bindings[session.binding].link < |s.links| && LinkFlows(s, s.bindings[session.binding].link)
    ensures var l := s.bindings[EventSession(event).value.binding].link;
            l < |OnEvent(s, event, trySent, order).links| && LinkFlows(OnEvent(s, event, trySent, order), l)
  {
    hide Flows, RoutesOwned, LinksDistinct, TargetsRouted;
    var session := EventSession(event).value;
    var l := s.bindings[session.binding].link;
    var s' := OnEvent(s, event, trySent, order);
    assert Live(s.bindings, l) && s'.bindings == s.bindings;
    FlowsRead(s.links[l], event);
    if s.links[l].room && !IsControl(event) {
      FlowsUnwanted(s.links[l], event);
    } else {
      assert s'.pending.value.targets == [Target(session.binding, l)];
      assert Target(session.binding, l) in s'.pending.value.targets;
    }
  }

  /** Any other channel. */
  lemma OtherEventFlows(s: Owner, event: TransportEvent, trySent: bool, order: seq<BindingId>, i: nat)
    requires Wired(s) && s.pending.None? && EventSession(event).Some?
    requires forall id :: id in order ==> id in s.bindings
    requires i < |s.links| && LinkFlows(s, i)
    requires var session := EventSession(event).value;
             && session.binding in s.bindings && s.bindings[session.binding].session == session
             && s.bindings[session.binding].link != i
    ensures i < |OnEvent(s, event, trySent, order).links| && LinkFlows(OnEvent(s, event, trySent, order), i)
  {
    hide Flows, RoutesOwned, LinksDistinct, TargetsRouted, IsPreview, IsDrained;
    var session := EventSession(event).value;
    var s' := OnEvent(s, event, trySent, order);
    assert s'.links[i] == s.links[i] && s'.bindings == s.bindings;
    if s'.pending.Some? {
      assert s'.pending.value.targets == [Target(session.binding, s.bindings[session.binding].link)];
      assert !Awaited(s'.pending.value.targets, i);
    }
  }

  lemma PopTarget(targets: seq<Target>, link: nat)
    requires targets != []
    ensures forall t :: t in targets <==> t == targets[0] || t in targets[1..]
    ensures targets[0].link != link ==> Awaited(targets, link) == Awaited(targets[1..], link)
  {
    assert targets == [targets[0]] + targets[1..];
  }

  lemma DeliveredWired(s: Owner, ok: bool)
    requires Wired(s) && s.pending.Some? && s.pending.value.targets != []
    ensures Wired(OnDelivered(s, ok))
    ensures !Awaited(s.pending.value.targets[1..], s.pending.value.targets[0].link)
  {
    var targets := s.pending.value.targets;
    PopTarget(targets, 0);
    var s' := OnDelivered(s, ok);
    assert s'.pending.value.targets == targets[1..];
  }

  lemma DeliveredKeepsInv(s: Owner, ok: bool)
    requires Inv(s) && s.pending.Some? && s.pending.value.targets != []
    ensures Inv(OnDelivered(s, ok))
  {
    var s' := OnDelivered(s, ok);
    DeliveredWired(s, ok);
    forall i | 0 <= i < |s'.links| ensures LinkFlows(s', i) {
      assert LinkFlows(s, i);
      DeliveredFlows(s, ok, i);
    }
  }

  lemma DeliveredFlows(s: Owner, ok: bool, i: nat)
    requires Wired(s) && s.pending.Some? && s.pending.value.targets != []
    requires i < |s.links| && LinkFlows(s, i)
    ensures LinkFlows(OnDelivered(s, ok), i)
  {
    var s' := OnDelivered(s, ok);
    var targets := s.pending.value.targets;
    DeliveredWired(s, ok);
    PopTarget(targets, i);
    if i == targets[0].link {
      assert targets[0] in targets && Live(s.bindings, i);
      if ok {
        FlowsAccept(s.links[i], s.pending.value.event);
      } else {
        FlowsDetached(s.links[i], Held(s.pending, i));
        assert !Live(s'.bindings, i);
      }
    } else {
      StillLive(s, targets[0].binding, i);
    }
  }

  lemma StillLive(s: Owner, id: BindingId, i: nat)
    requires id in s.bindings ==> s.bindings[id].link != i
    ensures Live(s.bindings - {id}, i) == Live(s.bindings, i)
  {
    if Live(s.bindings, i) {
      var other :| other in s.bindings && s.bindings[other].link == i;
      assert other in s.bindings - {id};
    }
  }

  lemma AttachKeepsInv(s: Owner, room: bool, session: SessionRef)
    requires Inv(s) && session.binding !in s.bindings
    ensures Inv(Attach(s, room, session))
  {
    var s' := Attach(s, room, session);
    var l := |s.links|;
    forall i | 0 <= i < |s'.links| ensures LinkFlows(s', i) {
      if i < l {
        assert LinkFlows(s, i);
        AttachKeepsLive(s, room, session, i);
      } else {
        assert !Awaited(if s.pending.Some? then s.pending.value.targets else [], l);
        assert s'.bindings[session.binding].link == l;
      }
    }
  }

  lemma AttachKeepsLive(s: Owner, room: bool, session: SessionRef, i: nat)
    requires session.binding !in s.bindings && i < |s.links|
    ensures Live(Attach(s, room, session).bindings, i) == Live(s.bindings, i)
  {
    var bindings := Attach(s, room, session).bindings;
    if Live(s.bindings, i) {
      var id :| id in s.bindings && s.bindings[id].link == i;
      assert id in bindings && bindings[id].link == i;
    }
  }

  function Removed(s: Owner, id: BindingId, owned: map<BindingId, SessionRef>): Owner {
    s.(bindings := s.bindings - {id}, owned := owned, pending := Forget(s.pending, id))
  }

  /** Dropping a route and its pending target together, and perhaps its ownership. */
  lemma RemoveKeepsInv(s: Owner, id: BindingId, owned: map<BindingId, SessionRef>)
    requires Inv(s)
    requires owned == s.owned || owned == s.owned - {id}
    ensures Inv(Removed(s, id, owned))
  {
    var s' := Removed(s, id, owned);
    RemoveWired(s, id, owned);
    forall i | 0 <= i < |s'.links| ensures LinkFlows(s', i) {
      assert LinkFlows(s, i);
      RemoveFlows(s, id, owned, i);
    }
  }

  lemma RemoveWired(s: Owner, id: BindingId, owned: map<BindingId, SessionRef>)
    requires Wired(s)
    requires owned == s.owned || owned == s.owned - {id}
    ensures Wired(Removed(s, id, owned))
  {
    if s.pending.Some? {
      WithoutIn(s.pending.value.targets, id);
      WithoutUnique(s.pending.value.targets, id);
    }
  }

  lemma RemoveFlows(s: Owner, id: BindingId, owned: map<BindingId, SessionRef>, i: nat)
    requires Wired(s) && i < |s.links| && LinkFlows(s, i)
    requires owned == s.owned || owned == s.owned - {id}
    ensures LinkFlows(Removed(s, id, owned), i)
  {
    hide RoutesOwned;
    if id in s.bindings && s.bindings[id].link == i {
      RemovedFlows(s, id, owned);
    } else {
      KeptFlows(s, id, owned, i);
    }
  }

  /** The channel that loses its route keeps what it accepted. */
  lemma RemovedFlows(s: Owner, id: BindingId, owned: map<BindingId, SessionRef>)
    requires RoutesLinked(s) && LinksDistinct(s) && TargetsRouted(s) && id in s.bindings
    requires s.bindings[id].link < |s.links| && LinkFlows(s, s.bindings[id].link)
    ensures LinkFlows(Removed(s, id, owned), s.bindings[id].link)
  {
    hide Flows, RoutesLinked;
    var s', i := Removed(s, id, owned), s.bindings[id].link;
    if s.pending.Some? { WithoutIn(s.pending.value.targets, id); }
    assert Live(s.bindings, i);
    FlowsDetached(s.links[i], Held(s.pending, i));
    assert !Live(s'.bindings, i);
    assert Held(s'.pending, i) == [];
  }

  lemma KeptFlows(s: Owner, id: BindingId, owned: map<BindingId, SessionRef>, i: nat)
    requires TargetsRouted(s) && i < |s.links| && LinkFlows(s, i)
    requires id in s.bindings ==> s.bindings[id].link != i
    ensures LinkFlows(Removed(s, id, owned), i)
  {
    hide Flows;
    var s' := Removed(s, id, owned);
    StillLive(s, id, i);
    if s.pending.Some? {
      WithoutIn(s.pending.value.targets, id);
      if Awaited(s.pending.value.targets, i) {
        var t :| t in s.pending.value.targets && t.link == i;
        assert t in Without(s.pending.value.targets, id);
      }
    }
    assert Held(s'.pending, i) == Held(s.pending, i);
  }

  lemma ForgetNothing(s: Owner, id: BindingId)
    requires TargetsRouted(s) && id !in s.bindings
    ensures Forget(s.pending, id) == s.pending
  {
    if s.pending.Some? { WithoutNothing(s.pending.value.targets, id); }
  }

  lemma SameRoutesKeepInv(s: Owner, s': Owner)
    requires Inv(s) && s'.bindings == s.bindings && s'.links == s.links
    requires s'.pending == s.pending || (s.pending.Some? && s.pending.value.targets == [] && s'.pending.None?)
    requires forall id :: id in s.bindings ==> id in s'.owned && s'.owned[id] == s.owned[id]
    ensures Inv(s')
  {
    forall i | 0 <= i < |s'.links| ensures LinkFlows(s', i) {
      assert LinkFlows(s, i);
      assert Held(s'.pending, i) == Held(s.pending, i);
    }
  }

  lemma OpenKeepsInv(s: Owner, requested: BindingId, outcome: OpenOutcome)
    requires Inv(s) && requested !in s.bindings && outcome.Opened?
    requires outcome.session.binding == requested || outcome.session.binding !in s.owned
    ensures Inv(OnOpen(s, requested, outcome))
  {
    var id := outcome.session.binding;
    AttachKeepsInv(s, false, outcome.session);
    var attached := Attach(s, false, outcome.session);
    RemoveKeepsInv(attached, id, attached.owned - {id});
  }

  lemma ActivateKeepsInv(s: Owner, outcome: RoomOutcome)
    requires Inv(s) && !outcome.NotActivated? && outcome.session.binding !in s.owned
    ensures Inv(OnActivate(s, outcome))
  {
    var id := outcome.session.binding;
    if outcome.GivenUp? {
      SameRoutesKeepInv(s, OnActivate(s, outcome));
    } else {
      ForgetNothing(s, id);
      AttachKeepsInv(s, true, outcome.session);
      var active := Attach(s, true, outcome.session);
      RemoveKeepsInv(active, id, if outcome.detached then active.owned - {id} else active.owned);
    }
  }

  lemma QuietStepKeepsInv(s: Owner, input: Input)
    requires Inv(s) && Enabled(s, input)
    requires input.Retire? || input.TakeDisconnect? || input.OtherCommand? || input.EventFails? || input.Stop?
    ensures Inv(Step(s, input))
  {
    SameRoutesKeepInv(s, Step(s, input));
  }

  lemma CommandKeepsInv(s: Owner, input: Input)
    requires Inv(s) && Enabled(s, input) && (input.OpenSession? || input.ActivateRoom? || input.Detach?)
    ensures Inv(Step(s, input))
  {
    var s2 := s.(clock := s.clock + 1, reading := None);
    SameRoutesKeepInv(s, s2);
    hide Inv;
    match input
    case OpenSession(requested, outcome) =>
      if requested !in s.bindings && outcome.Opened? { OpenKeepsInv(s2, requested, outcome); }
    case ActivateRoom(outcome) =>
      if !outcome.NotActivated? { ActivateKeepsInv(s2, outcome); }
    case Detach(session, _) => RemoveKeepsInv(s2, session.binding, s2.owned - {session.binding});
  }

  lemma DeliveringKeepsInv(s: Owner, ok: bool)
    requires Inv(s) && Enabled(s, Delivered(ok))
    ensures Inv(Step(s, Delivered(ok)))
  {
    var s1 := s.(clock := s.clock + 1);
    SameRoutesKeepInv(s, s1);
    hide Inv, OnDelivered;
    DeliveredKeepsInv(s1, ok);
  }

  lemma EventKeepsInv(s: Owner, event: TransportEvent, trySent: bool, order: seq<BindingId>)
    requires Inv(s) && Enabled(s, Event(event, trySent, order))
    ensures Inv(Step(s, Event(event, trySent, order)))
  {
    var s1 := s.(clock := s.clock + 1);
    SameRoutesKeepInv(s, s1);
    hide Inv, OnEvent;
    if event.TransportDisconnected? {
      DisconnectKeepsInv(s1, event, order);
    } else {
      SessionEventKeepsInv(s1, event, trySent, order);
    }
  }

  /** Every step of the loop, failed, aborted and cancelled opens included, keeps the invariant. */
  lemma StepKeepsInv(s: Owner, input: Input)
    requires Inv(s) && Enabled(s, input)
    ensures Inv(Step(s, input))
  {
    hide Inv, Enabled, Step;
    match input
    case Delivered(ok) => DeliveringKeepsInv(s, ok);
    case Event(event, trySent, order) => EventKeepsInv(s, event, trySent, order);
    case OpenSession(_, _) => CommandKeepsInv(s, input);
    case ActivateRoom(_) => CommandKeepsInv(s, input);
    case Detach(_, _) => CommandKeepsInv(s, input);
    case _ => QuietStepKeepsInv(s, input);
  }

  /** A failed recovery capsule leaves no route, no pending target and no ownership behind, and
      nothing of the other sessions is touched. */
  lemma FailedCapsuleLeavesNothing(s: Owner, requested: BindingId, session: SessionRef)
    requires Inv(s) && requested !in s.bindings
    requires session.binding == requested || session.binding !in s.owned
    ensures var s' := OnOpen(s, requested, Opened(session, false));
            && session.binding !in s'.bindings && session.binding !in s'.owned
            && s'.bindings == s.bindings && s'.pending == s.pending
            && s'.owned == s.owned - {session.binding}
  {
    ForgetNothing(s, session.binding);
  }

  lemma RetireEnabled(s: Owner)
    requires s.pending.Some? && s.pending.value.targets == [] && !s.stopped
    ensures Enabled(s, Retire) && !Waits(s)
  {
  }

  /** An open that succeeds, and one whose capsule fails, spelled out. */
  lemma OpenStep(s: Owner, requested: BindingId, session: SessionRef, delivered: bool)
    requires Inv(s) && requested !in s.bindings && Enabled(s, OpenSession(requested, Opened(session, true)))
    ensures var input := OpenSession(requested, Opened(session, delivered));
            && Enabled(s, input) && Inv(Step(s, input))
            && Step(s, input) == Owner(
                 s.agent,
                 if delivered then s.bindings[session.binding := Route(false, session, |s.links|)] else s.bindings,
                 s.pending,
                 if delivered then s.owned[session.binding := session] else s.owned - {session.binding},
                 None,
                 false,
                 s.links + [Link(false, session, s.clock + 1, [], [])],
                 s.clock + 1)
    ensures session.binding !in s.bindings && Forget(s.pending, session.binding) == s.pending
  {
    ForgetNothing(s, session.binding);
    var input := OpenSession(requested, Opened(session, delivered));
    StepKeepsInv(s, input);
    var s' := s.(clock := s.clock + 1, reading := None);
    SameRoutesKeepInv(s, s');
    FailedCapsuleLeavesNothing(s', requested, session);
  }

  /** A Room activation, answered or with its caller gone, spelled out. */
  lemma ActivateStep(s: Owner, session: SessionRef, replied: bool, detached: bool)
    requires Inv(s) && Waits(s) && !s.stopped && session.binding !in s.owned
    ensures var input := ActivateRoom(Activated(session, replied, detached));
            && Enabled(s, input) && Inv(Step(s, input))
            && Step(s, input) == Owner(
                 s.agent,
                 if replied then s.bindings[session.binding := Route(true, session, |s.links|)] else s.bindings,
                 s.pending,
                 if replied || !detached then s.owned[session.binding := session] else s.owned - {session.binding},
                 None,
                 false,
                 s.links + [Link(true, session, s.clock + 1, [], [])],
                 s.clock + 1)
  {
    StepKeepsInv(s, ActivateRoom(Activated(session, replied, detached)));
  }

  /** A detach of an attached session, and one that failed, spelled out. */
  lemma DetachStep(s: Owner, session: SessionRef, ok: bool)
    requires Inv(s) && Waits(s) && !s.stopped
    requires ok ==> session.binding in s.bindings && s.bindings[session.binding].session == session
    ensures var id := session.binding;
            && Enabled(s, Detach(session, ok)) && Inv(Step(s, Detach(session, ok)))
            && Step(s, Detach(session, ok)) == Owner(
                 s.agent,
                 if ok then s.bindings - {id} else s.bindings,
                 if ok then Forget(s.pending, id) else s.pending,
                 if ok then s.owned - {id} else s.owned,
                 None,
                 false,
                 s.links,
                 s.clock + 1)
  {
    StepKeepsInv(s, Detach(session, ok));
    hide Inv, Forget;
  }

  lemma WaitsWhen(s: Owner)
    requires s.pending.None? || s.pending.value.targets != []
    ensures Waits(s)
  {
  }

  lemma OtherEnabled(s: Owner)
    requires Waits(s) && !s.stopped
    ensures Enabled(s, OtherCommand) && Enabled(s, Stop)
  {
  }

  lemma UnownedHasNoRoute(s: Owner, id: BindingId)
    requires Inv(s) && id !in s.owned
    ensures id !in s.bindings
  {
  }

  lemma DeliveredTargets(s: Owner)
    requires Inv(s) && s.pending.Some? && s.pending.value.targets != []
    ensures var t := s.pending.value.targets[0];
            t.binding in s.bindings && t.link < |s.links| && s.bindings[t.binding].link == t.link
  {
    PopTarget(s.pending.value.targets, 0);
  }

  // ---- Whole runs ----

  /** The state after a run of the loop, or `None` if some step could not have happened. */
  ghost function Run(agent: AgentId, inputs: seq<Input>): (result: Option<Owner>)
    ensures result.Some? ==> Inv(result.value) && result.value.clock == |inputs|
  {
    if inputs == [] then Some(Start(agent))
    else
      match Run(agent, inputs[..|inputs| - 1])
      case None => None
      case Some(s) =>
        var input := inputs[|inputs| - 1];
        if Enabled(s, input) then
          StepKeepsInv(s, input);
          Some(Step(s, input))
        else None
  }

  /** The loop, run on these inputs, is in this state. */
  ghost predicate Reached(agent: AgentId, inputs: seq<Input>, s: Owner) {
    Run(agent, inputs) == Some(s)
  }

  lemma RunMore(agent: AgentId, inputs: seq<Input>, s: Owner, input: Input)
    requires Reached(agent, inputs, s)
    ensures Inv(s) && s.clock == |inputs|
    ensures Enabled(s, input) ==> Reached(agent, inputs + [input], Step(s, input))
  {
    assert (inputs + [input])[..|inputs|] == inputs;
  }

  /** What the transport said to one session over a stretch of a run. */
  function Said(inputs: seq<Input>, session: SessionRef): seq<TransportEvent> {
    if inputs == [] then []
    else
      var input := inputs[|inputs| - 1];
      Said(inputs[..|inputs| - 1], session) + Heard(input, session)
  }

  ghost predicate ReadsWhatWasSaid(s: Owner, inputs: seq<Input>, id: BindingId)
    requires id in s.bindings
  {
    && s.bindings[id].link < |s.links|
    && var link := s.links[s.bindings[id].link];
    link.since <= |inputs| && link.read == Said(inputs[link.since..], link.session)
  }

  lemma {:induction false} ReadIsSaid(agent: AgentId, inputs: seq<Input>, s: Owner, id: BindingId)
    requires Reached(agent, inputs, s) && id in s.bindings
    ensures ReadsWhatWasSaid(s, inputs, id)
    decreases |inputs|
  {
    hide Step, Enabled, Inv, ReadsWhatWasSaid;
    var front, input := inputs[..|inputs| - 1], inputs[|inputs| - 1];
    var before := Run(agent, front).value;
    if id in before.bindings { ReadIsSaid(agent, front, before, id); }
    ReadMore(before, front, input, id);
    assert inputs == front + [input];
  }

  lemma ReadMore(s: Owner, front: seq<Input>, input: Input, id: BindingId)
    requires Inv(s) && Enabled(s, input) && s.clock == |front|
    requires id in s.bindings ==> ReadsWhatWasSaid(s, front, id)
    requires id in Step(s, input).bindings
    ensures ReadsWhatWasSaid(Step(s, input), front + [input], id)
  {
    hide Step, Enabled, Inv, Said;
    if id in s.bindings && Step(s, input).bindings[id] == s.bindings[id] {
      StepReads(s, input, id);
      SaidMore(front, input, s.links[s.bindings[id].link]);
    } else {
      StepAttaches(s, input, id);
      SaidNothing(front + [input], Step(s, input).bindings[id].session);
    }
  }

  lemma SaidNothing(inputs: seq<Input>, session: SessionRef)
    ensures Said(inputs[|inputs|..], session) == []
  {
    assert inputs[|inputs|..] == [];
  }

  lemma SaidMore(front: seq<Input>, input: Input, link: Link)
    requires link.since <= |front|
    ensures Said((front + [input])[link.since..], link.session)
         == Said(front[link.since..], link.session) + Heard(input, link.session)
  {
    assert (front + [input])[link.since..] == front[link.since..] + [input];
    assert (front[link.since..] + [input])[..|front| - link.since] == front[link.since..];
  }

  ghost predicate Continues(s: Owner, s': Owner, l: nat, heard: seq<TransportEvent>)
    requires l < |s.links|
  {
    && l < |s'.links|
    && s'.links[l].read == s.links[l].read + heard
    && s'.links[l].session == s.links[l].session
    && s'.links[l].since == s.links[l].since
  }

  function Heard(input: Input, session: SessionRef): seq<TransportEvent> {
    if input.Event? && EventSession(input.event) in {None, Some(session)} then [input.event] else []
  }

  /** A surviving route reads exactly the events of its session. */
  lemma StepReads(s: Owner, input: Input, id: BindingId)
    requires Inv(s) && Enabled(s, input)
    requires id in s.bindings && id in Step(s, input).bindings && Step(s, input).bindings[id] == s.bindings[id]
    ensures var l := s.bindings[id].link; Continues(s, Step(s, input), l, Heard(input, s.links[l].session))
  {
    var l := s.bindings[id].link;
    if input.Event? {
      EventReads(s, input, id);
    } else {
      assert s.links[l].read + [] == s.links[l].read;
    }
  }

  lemma EventReads(s: Owner, input: Input, id: BindingId)
    requires Inv(s) && Enabled(s, input) && input.Event? && id in s.bindings
    ensures var l := s.bindings[id].link; Continues(s, Step(s, input), l, Heard(input, s.links[l].session))
  {
    hide AllFlow, TargetsRouted, RoutesOwned;
    var l := s.bindings[id].link;
    assert Live(s.bindings, l);
    assert s.links[l].read + [] == s.links[l].read;
  }

  /** The route is new: nothing was read for it yet. */
  ghost predicate JustAttached(s': Owner, id: BindingId, clock: nat)
    requires id in s'.bindings
  {
    && s'.bindings[id].link < |s'.links|
    && s'.links[s'.bindings[id].link].read == []
    && s'.links[s'.bindings[id].link].session == s'.bindings[id].session
    && s'.links[s'.bindings[id].link].since == clock
  }

  lemma StepAttaches(s: Owner, input: Input, id: BindingId)
    requires Inv(s) && Enabled(s, input)
    requires id in Step(s, input).bindings
    requires id !in s.bindings || Step(s, input).bindings[id] != s.bindings[id]
    ensures JustAttached(Step(s, input), id, s.clock + 1)
  {
    if input.OpenSession? || input.ActivateRoom? {
      hide Inv;
    } else {
      NothingElseAttaches(s, input, id);
    }
  }

  lemma NothingElseAttaches(s: Owner, input: Input, id: BindingId)
    requires Inv(s) && Enabled(s, input) && !input.OpenSession? && !input.ActivateRoom?
    ensures id in Step(s, input).bindings ==> id in s.bindings && Step(s, input).bindings[id] == s.bindings[id]
  {
    hide AllFlow, RoutesOwned, LinksDistinct, IsPreview, IsDrained, Forget;
  }

  /** For a live conversation route, all that was said to its session since it was attached
      is what its queue accepted, followed by at most the one pending event. */
  lemma ConversationLossless(agent: AgentId, inputs: seq<Input>, s: Owner, id: BindingId)
    requires Reached(agent, inputs, s) && id in s.bindings
    ensures var link := s.links[s.bindings[id].link];
            var held := Held(s.pending, s.bindings[id].link);
            && link.since <= |inputs| && link.session == s.bindings[id].session && |held| <= 1
            && (!link.room ==> Said(inputs[link.since..], link.session) == link.accepted + held)
  {
    ReadIsSaid(agent, inputs, s, id);
    assert LinkFlows(s, s.bindings[id].link) && Live(s.bindings, s.bindings[id].link);
  }

  /** Over every run the requests, results, losses and disconnects said to a Room's session since its
      route was attached are those its queue accepted or is about to get, in order. */
  lemma RoomControlLossless(agent: AgentId, inputs: seq<Input>, s: Owner, id: BindingId)
    requires Reached(agent, inputs, s) && id in s.bindings
    ensures var link := s.links[s.bindings[id].link];
            var delivered := link.accepted + Held(s.pending, s.bindings[id].link);
            var kept := (e: TransportEvent) =>
              e.PermissionRequested? || e.TurnCompleted? || e.TurnFailed? || e.SessionLost? || e.TransportDisconnected?;
            && link.since <= |inputs|
            && var said := Said(inputs[link.since..], link.session);
            link.room ==> Filter(kept, delivered) == Filter(kept, said) && Subsequence(delivered, said)
  {
    var link := s.links[s.bindings[id].link];
    var delivered := link.accepted + Held(s.pending, s.bindings[id].link);
    var kept := (e: TransportEvent) =>
      e.PermissionRequested? || e.TurnCompleted? || e.TurnFailed? || e.SessionLost? || e.TransportDisconnected?;
    ReadIsSaid(agent, inputs, s, id);
    assert LinkFlows(s, s.bindings[id].link) && Live(s.bindings, s.bindings[id].link);
    FilterSame(IsControl, kept, delivered);
    FilterSame(IsControl, kept, link.read);
  }

  lemma {:induction false} FilterSame(keep: TransportEvent -> bool, keep': TransportEvent -> bool,
                                      events: seq<TransportEvent>)
    requires forall e: TransportEvent :: keep(e) == keep'(e)
    ensures Filter(keep, events) == Filter(keep', events)
  {
    if events != [] { FilterSame(keep, keep', events[1..]); }
  }

  // ---- What a live route is told ----

  /** What one input puts into the channel of a session: all of a conversation's events; of a Room's
      the previews there is room for, no private output, and everything else. */
  function Passed(input: Input, session: SessionRef, room: bool): seq<TransportEvent> {
    if !input.Event? || EventSession(input.event) !in {None, Some(session)} then []
    else if !room then [input.event]
    else
      match input.event
      case AgentTextDelta(_, _) => if input.trySent then [input.event] else []
      case ToolCallStarted(_, _, _) => if input.trySent then [input.event] else []
      case ToolCallFinished(_, _) => if input.trySent then [input.event] else []
      case AgentMessageCompleted(_) => []
      case UsageReported(_, _, _) => []
      case TurnStarted(_) => []
      case PermissionRequested(_) => [input.event]
      case TurnCompleted(_) => [input.event]
      case TurnFailed(_, _) => [input.event]
      case SessionLost(_) => [input.event]
      case TransportDisconnected(_, _) => [input.event]
  }

  function PassedOn(inputs: seq<Input>, session: SessionRef, room: bool): seq<TransportEvent> {
    if inputs == [] then []
    else PassedOn(inputs[..|inputs| - 1], session, room) + Passed(inputs[|inputs| - 1], session, room)
  }

  ghost function Told(s: Owner, l: nat): seq<TransportEvent>
    requires l < |s.links|
  {
    s.links[l].accepted + Held(s.pending, l)
  }

  ghost predicate TellsWhatPassed(s: Owner, inputs: seq<Input>, id: BindingId)
    requires id in s.bindings
  {
    && s.bindings[id].link < |s.links|
    && var link := s.links[s.bindings[id].link];
    link.since <= |inputs| && Told(s, s.bindings[id].link) == PassedOn(inputs[link.since..], link.session, link.room)
  }

  /** What a live channel has accepted or is about to get is, event by event, what had to be passed
      on since it was attached: nothing else, nothing less, in order. */
  lemma {:induction false} ToldIsPassed(agent: AgentId, inputs: seq<Input>, s: Owner, id: BindingId)
    requires Reached(agent, inputs, s) && id in s.bindings
    ensures TellsWhatPassed(s, inputs, id)
    decreases |inputs|
  {
    hide Step, Enabled, Inv, TellsWhatPassed;
    var front, input := inputs[..|inputs| - 1], inputs[|inputs| - 1];
    var before := Run(agent, front).value;
    if id in before.bindings { ToldIsPassed(agent, front, before, id); }
    ToldMore(before, front, input, id);
    assert inputs == front + [input];
  }

  lemma ToldMore(s: Owner, front: seq<Input>, input: Input, id: BindingId)
    requires Inv(s) && Enabled(s, input) && s.clock == |front|
    requires id in s.bindings ==> TellsWhatPassed(s, front, id)
    requires id in Step(s, input).bindings
    ensures TellsWhatPassed(Step(s, input), front + [input], id)
  {
    hide Step, Enabled, Inv, PassedOn, Told;
    var s' := Step(s, input);
    if id in s.bindings && s'.bindings[id] == s.bindings[id] {
      StepTells(s, input, id);
      PassedMore(front, input, s.links[s.bindings[id].link]);
    } else {
      StepAttaches(s, input, id);
      StepTellsNothing(s, input, id);
      PassedNothing(front + [input], s'.bindings[id].session, s'.links[s'.bindings[id].link].room);
    }
  }

  lemma PassedNothing(inputs: seq<Input>, session: SessionRef, room: bool)
    ensures PassedOn(inputs[|inputs|..], session, room) == []
  {
    assert inputs[|inputs|..] == [];
  }

  lemma PassedMore(front: seq<Input>, input: Input, link: Link)
    requires link.since <= |front|
    ensures PassedOn((front + [input])[link.since..], link.session, link.room)
         == PassedOn(front[link.since..], link.session, link.room) + Passed(input, link.session, link.room)
  {
    assert (front + [input])[link.since..] == front[link.since..] + [input];
    assert (front[link.since..] + [input])[..|front| - link.since] == front[link.since..];
  }

  ghost predicate TellsMore(s: Owner, s': Owner, l: nat, passed: seq<TransportEvent>)
    requires l < |s.links|
  {
    && l < |s'.links|
    && Told(s', l) == Told(s, l) + passed
    && s'.links[l].session == s.links[l].session
    && s'.links[l].room == s.links[l].room
    && s'.links[l].since == s.links[l].since
  }

  lemma StepTellsNothing(s: Owner, input: Input, id: BindingId)
    requires Inv(s) && Enabled(s, input)
    requires id in Step(s, input).bindings
    requires id !in s.bindings || Step(s, input).bindings[id] != s.bindings[id]
    ensures var l := Step(s, input).bindings[id].link; l < |Step(s, input).links| && Told(Step(s, input), l) == []
  {
    if input.OpenSession? || input.ActivateRoom? {
      NewLinkHoldsNothing(s);
      hide Inv, Held, Forget;
    } else {
      NothingElseAttaches(s, input, id);
    }
  }

  lemma NewLinkHoldsNothing(s: Owner)
    requires RoutesLinked(s) && TargetsRouted(s)
    ensures Held(s.pending, |s.links|) == []
  {
  }

  /** A surviving route is told exactly what the step passes on. */
  lemma StepTells(s: Owner, input: Input, id: BindingId)
    requires Inv(s) && Enabled(s, input)
    requires id in s.bindings && id in Step(s, input).bindings && Step(s, input).bindings[id] == s.bindings[id]
    ensures var l := s.bindings[id].link;
            TellsMore(s, Step(s, input), l, Passed(input, s.links[l].session, s.links[l].room))
  {
    hide Inv, Enabled, Step;
    match input
    case Delivered(ok) => DeliveryTells(s, ok, id);
    case Event(event, trySent, order) => EventTells(s, event, trySent, order, id);
    case OpenSession(_, _) => CommandTells(s, input, id);
    case ActivateRoom(_) => CommandTells(s, input, id);
    case Detach(_, _) => CommandTells(s, input, id);
    case _ => QuietTells(s, input, id);
  }

  lemma QuietTells(s: Owner, input: Input, id: BindingId)
    requires Inv(s) && Enabled(s, input) && id in s.bindings
    requires input.Retire? || input.TakeDisconnect? || input.OtherCommand? || input.EventFails? || input.Stop?
    ensures TellsMore(s, Step(s, input), s.bindings[id].link, [])
  {
    hide AllFlow, RoutesOwned, LinksDistinct, TargetsRouted;
    var l := s.bindings[id].link;
    assert Held(Step(s, input).pending, l) == Held(s.pending, l);
    assert Told(s, l) + [] == Told(s, l);
  }

  /** What was held for the front target is accepted; the other channels hold what they held. */
  lemma DeliveryTells(s: Owner, ok: bool, id: BindingId)
    requires Inv(s) && Enabled(s, Delivered(ok))
    requires id in s.bindings && id in Step(s, Delivered(ok)).bindings
    ensures TellsMore(s, Step(s, Delivered(ok)), s.bindings[id].link, [])
  {
    hide AllFlow, RoutesOwned;
    var l, targets := s.bindings[id].link, s.pending.value.targets;
    PopTarget(targets, l);
    DeliveredWired(s, ok);
    assert Told(s, l) + [] == Told(s, l);
    if l == targets[0].link {
      assert targets[0] in targets;
      assert s.links[l].accepted + [s.pending.value.event] + [] == Told(s, l);
    }
  }

  /** Opening, activating and detaching change what is held for their own binding only. */
  lemma CommandTells(s: Owner, input: Input, id: BindingId)
    requires Inv(s) && Enabled(s, input) && (input.OpenSession? || input.ActivateRoom? || input.Detach?)
    requires id in s.bindings && id in Step(s, input).bindings && Step(s, input).bindings[id] == s.bindings[id]
    ensures TellsMore(s, Step(s, input), s.bindings[id].link, [])
  {
    var l := s.bindings[id].link;
    assert Told(s, l) + [] == Told(s, l);
    if input.OpenSession? && input.opening.Opened? && input.requested !in s.bindings {
      ForgetNothing(s, input.opening.session.binding);
    } else if input.Detach? && input.session.binding != id {
      KeptHeld(s, input.session.binding, l);
    }
    hide AllFlow, RoutesOwned, LinksDistinct, TargetsRouted, Forget, Held;
  }

  lemma KeptHeld(s: Owner, id: BindingId, i: nat)
    requires TargetsRouted(s) && (id in s.bindings ==> s.bindings[id].link != i)
    ensures Held(Forget(s.pending, id), i) == Held(s.pending, i)
  {
    if s.pending.Some? {
      WithoutIn(s.pending.value.targets, id);
      if Awaited(s.pending.value.targets, i) {
        var t :| t in s.pending.value.targets && t.link == i;
        assert t in Without(s.pending.value.targets, id);
      }
    }
  }

  lemma EventTells(s: Owner, event: TransportEvent, trySent: bool, order: seq<BindingId>, id: BindingId)
    requires Inv(s) && Enabled(s, Event(event, trySent, order)) && id in s.bindings
    ensures var input, l := Event(event, trySent, order), s.bindings[id].link;
            TellsMore(s, Step(s, input), l, Passed(input, s.links[l].session, s.links[l].room))
  {
    hide Enabled, Step, TellsMore, Passed, AllFlow, RoutesOwned, LinksDistinct, TargetsRouted;
    if EventSession(event).None? {
      DisconnectTells(s, event, trySent, order, id);
    } else if EventSession(event).value == s.bindings[id].session {
      OwnEventTells(s, event, trySent, order, id);
    } else {
      OtherEventTells(s, event, trySent, order, id);
    }
  }

  lemma DisconnectTells(s: Owner, event: TransportEvent, trySent: bool, order: seq<BindingId>, id: BindingId)
    requires Inv(s) && Enabled(s, Event(event, trySent, order)) && id in s.bindings && EventSession(event).None?
    ensures var input, l := Event(event, trySent, order), s.bindings[id].link;
            TellsMore(s, Step(s, input), l, Passed(input, s.links[l].session, s.links[l].room))
  {
    var s1, l := s.(clock := s.clock + 1), s.bindings[id].link;
    assert Wired(s1) by { hide AllFlow; }
    hide Inv, Unique;
    assert Live(s.bindings, l);
    DisconnectHolds(s1, event, trySent, order, l);
    hide OnEvent, Live, Wired;
  }

  lemma DisconnectHolds(s: Owner, event: TransportEvent, trySent: bool, order: seq<BindingId>, l: nat)
    requires Wired(s) && s.pending.None? && event.TransportDisconnected? && Live(s.bindings, l) && l < |s.links|
    requires Unique(order) && forall id :: id in order <==> id in s.bindings
    ensures var s' := OnEvent(s, event, trySent, order);
            && TellsMore(s, s', l, [event]) && Told(s, l) == s.links[l].accepted
  {
    DisconnectWired(s, event, order);
    DisconnectSame(s, event, trySent, order);
    hide OnEvent, Wired, Unique;
    assert Told(s, l) == s.links[l].accepted + [];
  }

  lemma DisconnectSame(s: Owner, event: TransportEvent, trySent: bool, order: seq<BindingId>)
    requires RoutesLinked(s) && event.TransportDisconnected? && forall id :: id in order ==> id in s.bindings
    ensures OnEvent(s, event, trySent, order) == OnEvent(s, event, false, order)
  {
    hide ReadAll, Targets, RoutesLinked;
  }

  lemma OwnEventTells(s: Owner, event: TransportEvent, trySent: bool, order: seq<BindingId>, id: BindingId)
    requires Inv(s) && Enabled(s, Event(event, trySent, order)) && id in s.bindings
    requires EventSession(event) == Some(s.bindings[id].session)
    ensures var input, l := Event(event, trySent, order), s.bindings[id].link;
            TellsMore(s, Step(s, input), l, Passed(input, s.links[l].session, s.links[l].room))
  {
    hide AllFlow, RoutesOwned, LinksDistinct, TargetsRouted;
    var s', l := Step(s, Event(event, trySent, order)), s.bindings[id].link;
    assert Told(s, l) == s.links[l].accepted;
    if s'.pending.Some? {
      assert Target(id, l) in s'.pending.value.targets;
    }
  }

  lemma OtherEventTells(s: Owner, event: TransportEvent, trySent: bool, order: seq<BindingId>, id: BindingId)
    requires Inv(s) && Enabled(s, Event(event, trySent, order)) && id in s.bindings
    requires EventSession(event).Some? && EventSession(event) != Some(s.bindings[id].session)
    ensures var input, l := Event(event, trySent, order), s.bindings[id].link;
            TellsMore(s, Step(s, input), l, Passed(input, s.links[l].session, s.links[l].room))
  {
    hide AllFlow, RoutesOwned, TargetsRouted, IsPreview, IsDrained;
    var s', l := Step(s, Event(event, trySent, order)), s.bindings[id].link;
    var session := EventSession(event).value;
    assert Told(s, l) + [] == Told(s, l);
    if s'.pending.Some? {
      assert s'.pending.value.targets == [Target(session.binding, s.bindings[session.binding].link)];
    }
  }

  /** No channel, live or gone, ever accepts an event of another session. */
  lemma NeverMisdelivered(agent: AgentId, inputs: seq<Input>, s: Owner, l: nat, e: TransportEvent)
    requires Reached(agent, inputs, s) && l < |s.links| && e in s.links[l].accepted
    ensures EventSession(e) in {None, Some(s.links[l].session)}
  {
    assert LinkFlows(s, l);
    SubsequenceIn(s.links[l].accepted + Held(s.pending, l), s.links[l].read, e);
  }

  lemma {:induction false} SubsequenceIn(a: seq<TransportEvent>, b: seq<TransportEvent>, e: TransportEvent)
    requires Subsequence(a, b) && e in a
    ensures e in b
  {
    var a', b' := a[..|a| - 1], b[..|b| - 1];
    assert a == a' + [a[|a| - 1]];
    if a[|a| - 1] == b[|b| - 1] && Subsequence(a', b') {
      if e in a' { SubsequenceIn(a', b', e); }
    } else {
      SubsequenceIn(a, b', e);
    }
  }

  ghost predicate Offered(before: Owner, after: Owner, event: TransportEvent) {
    forall id :: id in before.bindings ==>
      id in after.bindings && Held(after.pending, before.bindings[id].link) == [event]
  }

  predicate IsCommand(input: Input) {
    input.OpenSession? || input.ActivateRoom? || input.Detach? || input.OtherCommand? || input.Stop?
  }

  /** A disconnect is taken off the transport before its bookkeeping is awaited inside a `select!`.
      It reaches the routes if and only if no command comes first, which cancels the future that
      holds it, and the bookkeeping succeeds; otherwise the event is gone. */
  lemma DisconnectReachesRoutesIff(s: Owner, taken: TransportEvent, next: Input)
    requires Inv(s) && s.bindings != map[]
    requires Enabled(s, TakeDisconnect(taken)) && Inv(Step(s, TakeDisconnect(taken)))
    requires Enabled(Step(s, TakeDisconnect(taken)), next)
    ensures Offered(s, Step(Step(s, TakeDisconnect(taken)), next), taken) <==> !IsCommand(next) && !next.EventFails?
    ensures (next.Event? && next.event == taken) || IsCommand(next) || next == EventFails(taken)
  {
    var s1 := Step(s, TakeDisconnect(taken));
    if next.Event? {
      FanOutReaches(s, s1.(clock := s1.clock + 1), next.order, taken);
    } else {
      OthersKeepIdle(s1, next);
      var id :| id in s.bindings;
      assert Held(Step(s1, next).pending, s.bindings[id].link) == [];
    }
  }

  /** An event that storage could not take in ends the loop: nothing comes after it. */
  lemma FailedEventEndsTheLoop(s: Owner, event: TransportEvent, next: Input)
    requires Inv(s) && Enabled(s, EventFails(event)) && Inv(Step(s, EventFails(event)))
    ensures !Enabled(Step(s, EventFails(event)), next)
    ensures Step(s, EventFails(event)).links == s.links && Step(s, EventFails(event)).pending.None?
  {
  }

  lemma FanOutReaches(s: Owner, s1: Owner, order: seq<BindingId>, taken: TransportEvent)
    requires Wired(s1) && s1.bindings == s.bindings != map[] && taken.TransportDisconnected?
    requires Unique(order) && forall id :: id in order <==> id in s1.bindings
    ensures Offered(s, OnEvent(s1, taken, false, order), taken)
  {
    FanOutWired(s1, order, taken);
    var some :| some in s.bindings;
    assert some in order;
    forall id | id in s.bindings ensures Live(s.bindings, s.bindings[id].link) {}
  }

  lemma OthersKeepIdle(s: Owner, next: Input)
    requires Inv(s) && Enabled(s, next) && s.reading.Some? && s.pending.None? && !next.Event?
    ensures Step(s, next).pending.None? && Step(s, next).reading.None?
  {
  }

  // ---- Runs in which something stays behind ----

  lemma RunTwo(agent: AgentId, first: Input, second: Input)
    requires Enabled(Start(agent), first) && Inv(Start(agent)) && Inv(Step(Start(agent), first))
    requires Enabled(Step(Start(agent), first), second)
    ensures Reached(agent, [first, second], Step(Step(Start(agent), first), second))
  {
    hide Step, Enabled, Inv;
    var s1 := Step(Start(agent), first);
    assert Reached(agent, [], Start(agent));
    RunMore(agent, [], Start(agent), first);
    assert [] + [first] == [first];
    RunMore(agent, [first], s1, second);
    assert [first] + [second] == [first, second];
  }

  lemma StartInv(agent: AgentId)
    ensures Inv(Start(agent))
  {
  }

  /** One conversation is open, its transport disconnects, and the conversation never learns of it:
      after a command, or after bookkeeping that failed. */
  lemma DisconnectIsLost(agent: AgentId, failed: bool) returns (inputs: seq<Input>, s: Owner)
    ensures Reached(agent, inputs, s) && |inputs| == 3 && inputs[1].TakeDisconnect?
    ensures inputs[2] == if failed then EventFails(inputs[1].taken) else OtherCommand
    ensures 7 in s.bindings && s.bindings[7].link < |s.links| && s.links[s.bindings[7].link].read == []
    ensures s.pending.None? && s.reading.None?
  {
    var session, gone := SessionRef(7, "remote"), TransportDisconnected(agent, "gone");
    var open, take := OpenSession(7, Opened(session, true)), TakeDisconnect(gone);
    var last := if failed then EventFails(gone) else OtherCommand;
    StartInv(agent);
    StepKeepsInv(Start(agent), open);
    var s1 := Step(Start(agent), open);
    StepKeepsInv(s1, take);
    var s2 := Step(s1, take);
    RunTwo(agent, open, take);
    RunMore(agent, [open, take], s2, last);
    inputs, s := [open, take] + [last], Step(s2, last);
  }

  /** After an activation its session is owned without a route if and only if a step of giving it up
      was refused, or its caller was gone and it could not be detached. */
  lemma OrphanedIff(s: Owner, outcome: RoomOutcome)
    requires Inv(s) && Enabled(s, ActivateRoom(outcome)) && !outcome.NotActivated?
    ensures var s', id := Step(s, ActivateRoom(outcome)), outcome.session.binding;
            id in s'.owned && id !in s'.bindings <==>
            match outcome
            case GivenUp(_, steps) => !steps.lost || !steps.failed || !steps.decided || !steps.marked
            case Activated(_, replied, detached) => !replied && !detached
            case NotActivated => false
  {
    UnownedHasNoRoute(s, outcome.session.binding);
    hide AllFlow, LinksDistinct, TargetsRouted, RoutesOwned, RoutesLinked;
  }

  lemma OrphanIsKept(s: Owner, id: BindingId, input: Input)
    requires Inv(s) && id in s.owned && id !in s.bindings && Enabled(s, input)
    requires !Opens(input, id)
    ensures id in Step(s, input).owned && id !in Step(s, input).bindings
  {
    hide AllFlow, LinksDistinct, TargetsRouted, IsPreview, IsDrained, Forget, Unique;
  }

  predicate Opens(input: Input, id: BindingId) {
    input.OpenSession? && input.opening.Opened? && input.opening.session.binding == id
  }
}
