/** The agent owner loop over its real fields: the route table, the one pending delivery and the
    session manager. Every step is one step of the owner machine. */
module AgentOwnership {
  import opened Domain
  import M = OwnerMachine
  import S = SessionStore
  import O = SessionOpening
  import opened SessionManagement
  import P = Permissions

  /** The answers to giving up what has just been opened: the requests decided, the row marked. */
  datatype AbortAnswers = AbortAnswers(deciding: P.Answers, marked: bool)

  /** The answers when a caller is gone: to cancelling the turn and to detaching the session. */
  datatype DropAnswers = DropAnswers(cancelling: P.Answers, cancelSent: bool, detaching: P.Answers, marked: bool)

  /** The answers to recording a disconnect: to the decisions, and the rows that cannot be marked. */
  datatype BookAnswers = BookAnswers(deciding: P.Answers, unmarked: set<BindingId>)

  /** A command, with what storage and transport answer while it is carried out. */
  datatype Command =
    | ActivateRoom(message: nat, room: nat, alive: bool, callerWaits: bool, opening: RoomAnswers, drop: DropAnswers)
    | OpenSession(bindingAgent: AgentId, binding: S.Binding, recoverMissing: bool, answers: O.Opening,
                  capsule: CapsuleAnswers, abort: AbortAnswers)
    | SendMessage(session: SessionRef, sends: bool)
    | CancelTurn(session: SessionRef, deciding: P.Answers, sends: bool)
    | RespondPermission(session: SessionRef, requestId: string, outcome: PermissionOutcome, write: P.Write, sends: bool)
    | Detach(session: SessionRef, deciding: P.Answers, marked: bool)
    | Shutdown
    | SendersGone

  /** What the environment makes ready in one round of the loop. A command also says how far the
      recording of a disconnect had come that it cancels, an event how recording it goes. */
  datatype Ready =
    | CommandReady(command: Command, cut: BookAnswers)
    | SendReady(ok: bool)
    | EventReady(event: TransportEvent, trySent: bool, order: seq<BindingId>, lostStored: bool, books: BookAnswers)
    | DisconnectTaken(event: TransportEvent)
    | EventsEnded

  class AgentOwner {
    const manager: SessionManager
    var bindings: map<BindingId, M.Route>
    var pending: Option<M.Delivery>
    var channels: nat
    var reading: Option<TransportEvent>
    var stopped: bool
    ghost var links: seq<M.Link>
    ghost var clock: nat

    ghost function Model(): M.Owner
      reads this, manager
    {
      M.Owner(manager.agent, bindings, pending, manager.owned, reading, stopped, links, clock)
    }

    ghost predicate ManagerValid()
      reads manager, manager.store, manager.desk
    {
      manager.Valid() && manager.desk.Valid()
    }

    ghost predicate Valid()
      reads this, manager, manager.store, manager.desk
    {
      ManagerValid() && channels == |links| && M.Inv(Model())
    }

    constructor (manager: SessionManager)
      requires manager.Valid() && manager.desk.Valid() && manager.owned == map[]
      ensures Valid() && Model() == M.Start(manager.agent) && this.manager == manager
    {
      this.manager := manager;
      bindings, pending, channels := map[], None, 0;
      reading, stopped := None, false;
      links, clock := [], 0;
    }

    /** A command counts one step and cancels a read that was under way. */
    method Tick()
      modifies this`reading, this`clock
      ensures reading == None && clock == old(clock) + 1
    {
      reading := None;
      clock := clock + 1;
    }

    predicate Routed(session: SessionRef)
      reads this
    {
      session.binding in bindings && bindings[session.binding].session == session
    }

    // ---- The pending branch ----

    method Retire()
      requires Valid() && M.Enabled(Model(), M.Retire)
      modifies this
      ensures Valid() && Model() == M.Step(old(Model()), M.Retire)
    {
      M.StepKeepsInv(Model(), M.Retire);
      pending := None;
      clock := clock + 1;
    }

    method Deliver(ok: bool)
      requires Valid() && M.Enabled(Model(), M.Delivered(ok))
      modifies this
      ensures Valid() && Model() == M.Step(old(Model()), M.Delivered(ok))
    {
      hide M.Wired, M.AllFlow, ManagerValid;
      M.StepKeepsInv(Model(), M.Delivered(ok));
      M.DeliveredTargets(Model());
      var event, target := pending.value.event, pending.value.targets[0];
      pending := Some(M.Delivery(event, pending.value.targets[1..]));
      if ok {
        links := M.Accept(links, target.link, event);
      } else {
        bindings := bindings - {target.binding};
      }
      clock := clock + 1;
    }

    // ---- The event branch ----

    method TakeDisconnect(event: TransportEvent)
      requires Valid() && M.Enabled(Model(), M.TakeDisconnect(event))
      modifies this
      ensures Valid() && Model() == M.Step(old(Model()), M.TakeDisconnect(event))
    {
      M.StepKeepsInv(Model(), M.TakeDisconnect(event));
      reading := Some(event);
      clock := clock + 1;
    }

    /** The manager's part of a session event: a request is tracked, a lost session is stored as
        lost, which may fail. Events of sessions the manager does not own change nothing. */
    method Observe(session: SessionRef, event: TransportEvent, lostStored: bool) returns (ok: bool)
      requires ManagerValid() && EventSession(event) == Some(session)
      modifies manager.store`rows, manager.desk
      ensures ManagerValid()
      ensures ok <==> !(manager.Owns(session) && event.SessionLost?) || lostStored
      ensures manager.desk.Now() == WithRequest(old(manager.desk.Now()), manager.Owns(session), event)
      ensures !manager.Owns(session) ==>
                ok && manager.desk.Now() == old(manager.desk.Now()) && manager.store.rows == old(manager.store.rows)
      ensures event.PermissionRequested? && manager.Owns(session) ==>
                var key := (session.binding, event.request.requestId);
                manager.desk.pending == old(manager.desk.pending)[key := event.request]
      ensures event.SessionLost? && manager.Owns(session) && ok ==>
                && session.binding in manager.store.rows
                && manager.store.rows[session.binding].status in {S.Lost, S.Closed}
      ensures manager.store.rows == if manager.Owns(session) && event.SessionLost? && ok
                                    then S.WithStatus(old(manager.store.rows), session.binding, S.Lost)
                                    else old(manager.store.rows)
    {
      hide P.PermissionDesk.Valid;
      OwnedStored(manager.owned, manager.store.rows);
      hide SessionManager.Valid;
      ok := true;
      if manager.Owns(session) {
        if event.PermissionRequested? {
          manager.desk.Track(event.request);
        } else if event.SessionLost? {
          ok := manager.SetStatus(session.binding, S.Lost, lostStored);
        }
      }
    }

    /** One event of the transport: recorded first, then routed. What cannot be recorded ends the
        loop unrouted. */
    method HandleEvent(event: TransportEvent, trySent: bool, order: seq<BindingId>, lostStored: bool,
                       books: BookAnswers)
      returns (ok: bool, ghost input: M.Input)
      requires Valid() && M.Enabled(Model(), M.Event(event, trySent, order))
      modifies this, manager.store`rows, manager.desk
      ensures Valid()
      ensures ok <==> old(Recordable(event, lostStored, books))
      ensures input == if ok then M.Event(event, trySent, order) else M.EventFails(event)
      ensures M.Enabled(old(Model()), input) && Model() == M.Step(old(Model()), input)
      ensures manager.desk.Now() == old(BooksAfter(event, books))
      ensures manager.store.rows == old(RowsAfter(event, lostStored, books))
      ensures event.PermissionRequested? && event.request.session.binding in manager.owned
              && manager.owned[event.request.session.binding] == event.request.session ==>
                var key := (event.request.session.binding, event.request.requestId);
                manager.desk.pending == old(manager.desk.pending)[key := event.request]
      ensures event.SessionLost? && event.session.binding in manager.owned
              && manager.owned[event.session.binding] == event.session ==>
                && (ok <==> lostStored)
                && (ok ==> event.session.binding in manager.store.rows
                           && manager.store.rows[event.session.binding].status in {S.Lost, S.Closed})
      ensures EventSession(event).Some? && !manager.Owns(EventSession(event).value) ==>
                ok && manager.desk.Now() == old(manager.desk.Now()) && manager.store.rows == old(manager.store.rows)
      ensures event.TransportDisconnected? && event.agent == manager.agent && ok ==>
                && manager.desk.pending == map[]
                && forall id :: id in manager.owned ==>
                     id in manager.store.rows && manager.store.rows[id].status != S.Active
    {
      hide M.Wired, M.AllFlow, M.Step, ManagerValid, WithDisconnected, P.AllClear, P.Audited, WithRequest, S.WithStatus;
      var session := EventSession(event);
      if session.None? {
        ok := Bookkeep(event, books);
        if ok { FanOutEvent(event, trySent, order); }
      } else {
        ok := Observe(session.value, event, lostStored);
        if ok { RouteEvent(session.value, event, trySent, order); }
      }
      if ok {
        input := M.Event(event, trySent, order);
      } else {
        input := M.EventFails(event);
        FailEvent(event);
      }
    }

    /** A session event of an owned session that is lost needs its row stored; a disconnect of this
        agent needs every pending request decided and every owned row marked. */
    ghost predicate Recordable(event: TransportEvent, lostStored: bool, books: BookAnswers)
      reads manager, manager.desk
    {
      match EventSession(event)
      case Some(session) => !(manager.Owns(session) && event.SessionLost?) || lostStored
      case None => event.agent == manager.agent ==>
                     P.AllClear(manager.desk.Now(), None, books.deciding) && manager.owned.Keys !! books.unmarked
    }

    ghost function BooksAfter(event: TransportEvent, books: BookAnswers): P.Books
      reads manager, manager.desk
    {
      match EventSession(event)
      case Some(session) => WithRequest(manager.desk.Now(), manager.Owns(session), event)
      case None => if event.agent == manager.agent then P.Audited(manager.desk.Now(), None, books.deciding)
                   else manager.desk.Now()
    }

    ghost function RowsAfter(event: TransportEvent, lostStored: bool, books: BookAnswers): map<BindingId, S.Binding>
      reads manager, manager.store`rows
    {
      match EventSession(event)
      case Some(session) => if manager.Owns(session) && event.SessionLost? && lostStored
                            then S.WithStatus(manager.store.rows, session.binding, S.Lost) else manager.store.rows
      case None => if event.agent == manager.agent
                   then WithDisconnected(manager.store.rows, manager.owned.Keys - books.unmarked)
                   else manager.store.rows
    }

    /** For a disconnect of this agent every pending request is decided and every owned row marked;
        another agent's is only passed on. */
    method Bookkeep(event: TransportEvent, books: BookAnswers) returns (ok: bool)
      requires ManagerValid() && event.TransportDisconnected?
      modifies manager.store`rows, manager.desk
      ensures ManagerValid()
      ensures ok <==> old(Recordable(event, false, books))
      ensures manager.desk.Now() == old(BooksAfter(event, books))
      ensures manager.store.rows == old(RowsAfter(event, false, books))
      ensures event.agent == manager.agent && ok ==>
                && manager.desk.pending == map[]
                && forall id :: id in manager.owned ==>
                     id in manager.store.rows && manager.store.rows[id].status != S.Active
    {
      hide SessionManager.Valid, P.PermissionDesk.Valid, P.AllClear, P.Audited, WithDisconnected;
      ok := true;
      if event.agent == manager.agent {
        ok := manager.NoteDisconnect(books.deciding, books.unmarked);
      }
    }

    method FailEvent(event: TransportEvent)
      requires Valid() && M.Enabled(Model(), M.EventFails(event))
      modifies this
      ensures Valid() && Model() == M.Step(old(Model()), M.EventFails(event))
    {
      M.StepKeepsInv(Model(), M.EventFails(event));
      reading, stopped := None, true;
      clock := clock + 1;
    }

    method FanOutEvent(event: TransportEvent, trySent: bool, order: seq<BindingId>)
      requires Valid() && M.Enabled(Model(), M.Event(event, trySent, order)) && event.TransportDisconnected?
      modifies this
      ensures Valid() && Model() == M.Step(old(Model()), M.Event(event, trySent, order))
    {
      hide M.Wired, M.AllFlow, M.ReadAll, M.UniqueTargets, ManagerValid;
      M.StepKeepsInv(Model(), M.Event(event, trySent, order));
      var targets := FanOut(order);
      links := M.ReadAll(links, bindings, event);
      pending := if targets == [] then None else Some(M.Delivery(event, targets));
      reading := None;
      clock := clock + 1;
    }

    method RouteEvent(session: SessionRef, event: TransportEvent, trySent: bool, ghost order: seq<BindingId>)
      requires Valid() && M.Enabled(Model(), M.Event(event, trySent, order)) && EventSession(event) == Some(session)
      modifies this
      ensures Valid() && Model() == M.Step(old(Model()), M.Event(event, trySent, order))
    {
      hide M.AllFlow, M.RoutesOwned, M.LinksDistinct, M.TargetsRouted, ManagerValid;
      M.StepKeepsInv(Model(), M.Event(event, trySent, order));
      clock := clock + 1;
      if Routed(session) {
        Route(session, event, trySent);
      }
    }

    /** One target for every route, in the order the table is walked. */
    method FanOut(order: seq<BindingId>) returns (targets: seq<M.Target>)
      requires M.Unique(order) && forall id :: id in order <==> id in bindings
      ensures targets == M.Targets(bindings, order) && M.UniqueTargets(targets)
      ensures forall t :: t in targets <==> t.binding in bindings && t.link == bindings[t.binding].link
    {
      M.TargetsIn(bindings, order);
      targets := [];
      var i := |order|;
      while i > 0
        invariant 0 <= i <= |order|
        invariant targets == M.Targets(bindings, order[i..])
      {
        i := i - 1;
        targets := [M.Target(order[i], bindings[order[i]].link)] + targets;
      }
    }

    /** Previews are offered without waiting and private Room output is dropped; everything else
        becomes the pending delivery. */
    method Route(session: SessionRef, event: TransportEvent, trySent: bool)
      requires Routed(session) && bindings[session.binding].link < |links| && pending.None?
      modifies this`links, this`pending
      ensures var route := bindings[session.binding];
              var preview := event.AgentTextDelta? || event.ToolCallStarted? || event.ToolCallFinished?;
              var drained := event.AgentMessageCompleted? || event.UsageReported? || event.TurnStarted?;
              var read := M.Read(old(links), route.link, event);
              if route.room && preview then
                links == (if trySent then M.Accept(read, route.link, event) else read) && pending.None?
              else
                links == read
                && pending == if route.room && drained then None
                              else Some(M.Delivery(event, [M.Target(session.binding, route.link)]))
    {
      var route := bindings[session.binding];
      links := M.Read(links, route.link, event);
      if route.room && M.IsPreview(event) {
        if trySent {
          links := M.Accept(links, route.link, event);
        }
        return;
      }
      if route.room && M.IsDrained(event) {
        return;
      }
      pending := Some(M.Delivery(event, [M.Target(session.binding, route.link)]));
    }

    // ---- Commands ----

    /** A command that leaves routes, ownership and the pending delivery as they are. */
    method Unchanged(ghost input: M.Input)
      requires Valid() && M.Enabled(Model(), input)
      requires M.Step(Model(), input) == Model().(reading := None, clock := clock + 1)
      modifies this`reading, this`clock
      ensures Valid() && Model() == M.Step(old(Model()), input)
    {
      hide M.Wired, M.AllFlow, M.Step;
      M.StepKeepsInv(Model(), input);
      Tick();
    }

    /** What opening this binding comes to; an attached binding and another agent's are refused. */
    ghost function Opening(bindingAgent: AgentId, binding: S.Binding, recoverMissing: bool, answers: O.Opening)
      : O.Opened
      reads this, manager, manager.store
    {
      if binding.id in bindings || bindingAgent != manager.agent then O.Opened(None, manager.store.Now(), [])
      else O.OpenRequested(manager.store.Now(), binding, recoverMissing, answers)
    }

    /** Opens a session, gives it a route and settles its recovery capsule. It is answered exactly if
        the open succeeds and a recovering open leaves no capsule owed; the calls made are those. */
    method HandleOpenSession(bindingAgent: AgentId, binding: S.Binding, recoverMissing: bool, answers: O.Opening,
                             capsule: CapsuleAnswers, abort: AbortAnswers)
      returns (reply: Result<SessionRef, S.Error>, ghost input: M.Input)
      requires Valid() && M.Waits(Model()) && !stopped
      modifies this, manager, manager.store, manager.desk
      ensures Valid()
      ensures M.Enabled(old(Model()), input) && Model() == M.Step(old(Model()), input)
      ensures input == M.OpenSession(binding.id,
                                     OpenInput(old(Opening(bindingAgent, binding, recoverMissing, answers)),
                                               recoverMissing, capsule))
      ensures binding.id in old(bindings) || bindingAgent != manager.agent ==>
                reply.Err? && manager.calls == old(manager.calls) && manager.owned == old(manager.owned)
      ensures binding.id !in old(bindings) && bindingAgent == manager.agent ==>
                var o := O.OpenRequested(old(manager.store.Now()), binding, recoverMissing, answers);
                && (reply.Ok? <==> o.session.Some?
                                   && (recoverMissing ==> Settles(o.table, o.session.value.binding, capsule)))
                && (reply.Ok? ==> reply == Ok(o.session.value)) && old(manager.calls) + o.calls <= manager.calls
      ensures var o := old(Opening(bindingAgent, binding, recoverMissing, answers));
              && (reply.Ok? <==> o.session.Some?
                                 && (recoverMissing ==> Settles(o.table, o.session.value.binding, capsule)))
              && (reply.Ok? ==> reply == Ok(o.session.value))
              && manager.calls == old(manager.calls) + OpeningCalls(o, recoverMissing, capsule)
      ensures reply.Ok? ==> Routed(reply.value) && !bindings[reply.value.binding].room && manager.Owns(reply.value)
      ensures reply.Ok? && recoverMissing ==> CapsuleSettled(reply.value.binding)
      ensures reply.Err? ==> bindings == old(bindings)
    {
      hide M.Wired, M.AllFlow, SessionManager.Valid, P.PermissionDesk.Valid, Settles, O.OpenRequested, CapsuleCalls;
      input := M.OpenSession(binding.id, M.Refused);
      ghost var o := Opening(bindingAgent, binding, recoverMissing, answers);
      if binding.id in bindings {
        Unchanged(input);
        return Err(S.AlreadyAttached), input;
      }
      ghost var before := Model();
      var session := Open(bindingAgent, binding, recoverMissing, answers);
      if session.Err? {
        Unchanged(input);
        return session, input;
      }
      reply, input := AttachOpened(session.value, binding.id, recoverMissing, capsule, abort, before);
    }

    /** The manager's open, as far as the owner sees it. */
    method Open(bindingAgent: AgentId, binding: S.Binding, recoverMissing: bool, answers: O.Opening)
      returns (r: Result<SessionRef, S.Error>)
      requires ManagerValid() && binding.id !in bindings
      modifies manager, manager.store
      ensures ManagerValid()
      ensures manager.Did(old(Opening(bindingAgent, binding, recoverMissing, answers)), r, old(manager.owned),
                          old(manager.calls))
      ensures r.Ok? ==> r.value.binding == binding.id || r.value.binding !in old(manager.owned)
    {
      OpenedAside(bindingAgent, binding, recoverMissing, answers);
      hide SessionManager.Valid, P.PermissionDesk.Valid, O.OpenRequested;
      r := manager.OpenSession(bindingAgent, binding, recoverMissing, answers);
      assert manager.calls + [] == manager.calls;
    }

    lemma OpenedAside(bindingAgent: AgentId, binding: S.Binding, recoverMissing: bool, answers: O.Opening)
      requires ManagerValid() && binding.id !in bindings
      ensures var o := Opening(bindingAgent, binding, recoverMissing, answers);
              o.session.Some? ==>
                o.session.value.binding == binding.id || o.session.value.binding !in manager.owned
    {
      var o := Opening(bindingAgent, binding, recoverMissing, answers);
      OwnedStored(manager.owned, manager.store.rows);
      hide P.PermissionDesk.Valid, O.OpenRequested, CallsStand, OwnedIn, S.WellFormed;
      if o.session.Some? { O.OpenedUnder(manager.store.Now(), binding, recoverMissing, answers); }
    }

    /** The session gets a route; a recovery capsule that fails takes route, pending target and
        ownership away again. */
    method AttachOpened(session: SessionRef, requested: BindingId, recoverMissing: bool, capsule: CapsuleAnswers,
                        abort: AbortAnswers, ghost before: M.Owner)
      returns (reply: Result<SessionRef, S.Error>, ghost input: M.Input)
      requires ManagerValid() && channels == |links| && M.Inv(before)
      requires Model() == before.(owned := before.owned[session.binding := session])
      requires M.Enabled(before, M.OpenSession(requested, M.Opened(session, true))) && requested !in bindings
      modifies this, manager, manager.store, manager.desk
      ensures Valid()
      ensures input == M.OpenSession(requested, M.Opened(session, reply.Ok?))
      ensures M.Enabled(before, input) && Model() == M.Step(before, input)
      ensures reply.Ok? <==> (recoverMissing ==> Settles(old(manager.store.Now()), session.binding, capsule))
      ensures manager.calls == old(manager.calls)
                + if recoverMissing then CapsuleCalls(old(manager.store.Now()), session.binding, capsule) else []
      ensures reply.Ok? ==>
                && reply.value == session && Routed(session)
                && !bindings[session.binding].room && manager.Owns(session)
      ensures reply.Ok? && recoverMissing ==> CapsuleSettled(session.binding)
      ensures reply.Err? ==> bindings == old(bindings)
    {
      hide M.Inv, M.Step, M.Enabled, M.Forget, SessionManager.Valid, P.PermissionDesk.Valid, Settles, CapsuleCalls,
           P.Audited, CapsuleSettled;
      M.OpenStep(before, requested, session, true);
      M.OpenStep(before, requested, session, false);
      bindings := bindings[session.binding := M.Route(false, session, channels)];
      channels := channels + 1;
      links := links + [M.Link(false, session, clock + 1, [], [])];
      Tick();
      var delivered := SettleCapsule(session, recoverMissing, capsule);
      input := M.OpenSession(requested, M.Opened(session, delivered));
      if delivered {
        reply := Ok(session);
      } else {
        AbortOpened(session, abort);
        reply := Err(S.StorageFailed);
      }
      assert Model() == M.Step(before, input);
    }

    method SettleCapsule(session: SessionRef, recoverMissing: bool, capsule: CapsuleAnswers) returns (ok: bool)
      requires ManagerValid()
      modifies manager, manager.store
      ensures ManagerValid() && manager.owned == old(manager.owned)
      ensures ok <==> (recoverMissing ==> Settles(old(manager.store.Now()), session.binding, capsule))
      ensures manager.calls == old(manager.calls)
                + if recoverMissing then CapsuleCalls(old(manager.store.Now()), session.binding, capsule) else []
      ensures ok && recoverMissing ==> CapsuleSettled(session.binding)
    {
      hide SessionManager.Valid, P.PermissionDesk.Valid, CapsuleCalls;
      ok := true;
      if recoverMissing {
        ok := manager.DeliverRecoveryCapsule(session, capsule);
      }
      assert manager.calls + [] == manager.calls;
    }

    method AbortOpened(session: SessionRef, abort: AbortAnswers)
      requires ManagerValid() && manager.Owns(session)
      modifies this`bindings, this`pending, manager, manager.store, manager.desk
      ensures ManagerValid() && manager.calls == old(manager.calls)
      ensures bindings == old(bindings) - {session.binding}
      ensures pending == M.Forget(old(pending), session.binding)
      ensures manager.owned == old(manager.owned) - {session.binding}
      ensures manager.desk.Now() == P.Audited(old(manager.desk.Now()), Some(session), abort.deciding)
    {
      hide SessionManager.Valid, P.PermissionDesk.Valid, P.Audited, WithDisconnected;
      bindings := bindings - {session.binding};
      pending := M.Forget(pending, session.binding);
      var _ := manager.AbortSessionRecovery(session, abort.deciding, abort.marked);
    }

    /** A Room activation gets its route at once. If the caller is gone by the time of the reply,
        the turn is cancelled and the session given up. The session is owned without a route
        afterwards exactly when storage refused a step of giving it up. */
    method HandleActivateRoom(message: nat, room: nat, alive: bool, callerWaits: bool, opening: RoomAnswers,
                              drop: DropAnswers)
      returns (reply: Result<Option<SessionRef>, S.Error>, ghost input: M.Input)
      requires Valid() && M.Waits(Model()) && !stopped
      modifies this, manager, manager.store, manager.desk
      ensures Valid() && old(manager.calls) <= manager.calls
      ensures input == M.ActivateRoom(Outcome(old(manager.RoomSession(message, room, opening)), alive, callerWaits,
                                              opening, drop, old(manager.desk.Now())))
      ensures M.Enabled(old(Model()), input) && Model() == M.Step(old(Model()), input)
      ensures reply.Ok? && reply.value.Some? <==> input.activation.Activated?
      ensures reply.Ok? && reply.value.Some? <==>
                && old(manager.RoomSession(message, room, opening)).Some?
                && opening.validated && alive && opening.sends && opening.sentStored
      ensures reply.Ok? && reply.value.Some? ==> reply.value.value == input.activation.session
      ensures input.activation.Activated? && callerWaits ==>
                Routed(input.activation.session) && bindings[input.activation.session.binding].room
      ensures !(input.activation.Activated? && callerWaits) ==> bindings == old(bindings)
    {
      hide M.Wired, M.AllFlow, SessionManager.Valid, P.PermissionDesk.Valid, StepsOf, GivenAway;
      ghost var before, books, session := Model(), manager.desk.Now(), manager.RoomSession(message, room, opening);
      hide SessionManager.RoomSession;
      reply := manager.ActivateRoomMessage(message, room, alive, opening);
      if reply.Ok? && reply.value.Some? {
        input := AttachActivated(reply.value.value, callerWaits, drop, before);
        return;
      }
      input := M.ActivateRoom(Outcome(session, alive, callerWaits, opening, drop, books));
      M.StepKeepsInv(before, input);
      Tick();
    }

    method AttachActivated(session: SessionRef, callerWaits: bool, drop: DropAnswers, ghost before: M.Owner)
      returns (ghost input: M.Input)
      requires ManagerValid() && channels == |links| && M.Inv(before) && M.Waits(before) && !before.stopped
      requires Model() == before.(owned := before.owned[session.binding := session])
      requires session.binding !in before.owned
      modifies this, manager, manager.store, manager.desk
      ensures Valid() && manager.calls == old(manager.calls)
      ensures M.Enabled(before, input) && Model() == M.Step(before, input)
      ensures input == M.ActivateRoom(M.Activated(session, callerWaits,
                                                  callerWaits || GivenAway(old(manager.desk.Now()), session, drop)))
      ensures if callerWaits then Routed(session) && bindings[session.binding].room else bindings == old(bindings)
    {
      hide M.Inv, M.Step, M.Enabled, SessionManager.Valid, P.PermissionDesk.Valid, GivenAway;
      M.UnownedHasNoRoute(before, session.binding);
      var detached := true;
      bindings := bindings[session.binding := M.Route(true, session, channels)];
      channels := channels + 1;
      links := links + [M.Link(true, session, clock + 1, [], [])];
      Tick();
      if !callerWaits {
        detached := DropSession(session, drop);
        bindings := bindings - {session.binding};
      }
      input := M.ActivateRoom(M.Activated(session, callerWaits, detached));
      M.ActivateStep(before, session, callerWaits, detached);
      assert Model() == M.Step(before, input);
    }

    method DropSession(session: SessionRef, drop: DropAnswers) returns (detached: bool)
      requires ManagerValid() && manager.Owns(session)
      modifies manager, manager.store, manager.desk
      ensures ManagerValid() && manager.calls == old(manager.calls)
      ensures manager.owned == if detached then old(manager.owned) - {session.binding} else old(manager.owned)
      ensures detached <==> GivenAway(old(manager.desk.Now()), session, drop)
    {
      hide SessionManager.Valid, P.PermissionDesk.Valid, P.AllClear, P.Audited, WithDisconnected;
      var _ := manager.CancelTurn(session, drop.cancelling, drop.cancelSent);
      detached := manager.DetachSession(session, drop.detaching, drop.marked);
    }

    /** A detach succeeds exactly for an attached session whose requests can be decided and whose row
        can be marked. */
    method HandleDetach(session: SessionRef, deciding: P.Answers, marked: bool) returns (ok: bool, ghost input: M.Input)
      requires Valid() && M.Waits(Model()) && !stopped
      modifies this, manager, manager.store, manager.desk
      ensures Valid() && manager.calls == old(manager.calls)
      ensures input == M.Detach(session, ok) && M.Enabled(old(Model()), input) && Model() == M.Step(old(Model()), input)
      ensures ok <==> old(Routed(session)) && P.AllClear(old(manager.desk.Now()), Some(session), deciding) && marked
      ensures ok ==> session.binding !in bindings && session.binding !in manager.owned
      ensures !ok ==> bindings == old(bindings) && manager.owned == old(manager.owned)
    {
      ghost var before := Model();
      hide M.Inv, M.Step, M.Enabled, SessionManager.Valid, P.PermissionDesk.Valid, P.AllClear, P.Audited,
           WithDisconnected;
      ok := Routed(session);
      if ok {
        assert manager.Owns(session) by { RoutedIsOwned(session); }
        ok := manager.DetachSession(session, deciding, marked);
      }
      input := M.Detach(session, ok);
      FinishDetach(session, ok, before);
    }

    /** The route and the pending targets go with the ownership. */
    method FinishDetach(session: SessionRef, ok: bool, ghost before: M.Owner)
      requires ManagerValid() && channels == |links| && M.Inv(before) && M.Waits(before) && !before.stopped
      requires ok ==> Routed(session)
      requires Model() == before.(owned := if ok then before.owned - {session.binding} else before.owned)
      modifies this
      ensures Valid() && M.Enabled(before, M.Detach(session, ok)) && Model() == M.Step(before, M.Detach(session, ok))
      ensures bindings == if ok then old(bindings) - {session.binding} else old(bindings)
    {
      M.DetachStep(before, session, ok);
      hide M.Inv, M.Step, M.Enabled, M.Waits, M.Forget, SessionManager.Valid, P.PermissionDesk.Valid;
      if ok {
        bindings := bindings - {session.binding};
        pending := M.Forget(pending, session.binding);
      }
      Tick();
      assert Model() == M.Step(before, M.Detach(session, ok));
    }

    lemma RoutedIsOwned(session: SessionRef)
      requires Valid() && Routed(session)
      ensures manager.Owns(session)
    {
      hide M.AllFlow, ManagerValid;
    }

    /** Sending, cancelling and answering reach the manager only through a live route. */
    method HandleOther(command: Command) returns (ok: bool, ghost answer: Option<P.Answer>)
      requires Valid() && M.Waits(Model()) && !stopped
      requires command.SendMessage? || command.CancelTurn? || command.RespondPermission?
      modifies this, manager.desk
      ensures Valid() && Model() == M.Step(old(Model()), M.OtherCommand)
      ensures ok ==> Routed(command.session)
      ensures !Routed(command.session) ==> manager.desk.Now() == old(manager.desk.Now())
      ensures Routed(command.session) ==>
                match command {
                  case SendMessage(_, sends) => ok == sends && manager.desk.Now() == old(manager.desk.Now())
                  case CancelTurn(session, deciding, sends) =>
                    && (ok <==> sends && P.AllClear(old(manager.desk.Now()), Some(session), deciding))
                    && manager.desk.Now() == P.Audited(old(manager.desk.Now()), Some(session), deciding)
                  case RespondPermission(session, requestId, outcome, write, sends) =>
                    && (ok <==> answer == Some(P.Answered)) && old(manager.desk.log) <= manager.desk.log
                    && P.Served(P.Turn(P.Op.Respond(session, requestId, outcome, write, sends), answer,
                                       manager.desk.log[|old(manager.desk.log)|..],
                                       old(manager.desk.Now()), manager.desk.Now()))
                  case _ => true
                }
    {
      hide M.Wired, M.AllFlow, SessionManager.Valid, P.PermissionDesk.Valid, P.AllClear, P.Audited, P.Served;
      ok, answer := false, None;
      if Routed(command.session) {
        match command {
          case CancelTurn(session, deciding, sends) => ok := manager.CancelTurn(session, deciding, sends);
          case RespondPermission(session, requestId, outcome, write, sends) =>
            var told := manager.desk.Respond(session, requestId, outcome, write, sends);
            ok, answer := told.Answered?, Some(told);
          case SendMessage(_, sends) => ok := sends;
          case _ =>
        }
      }
      M.StepKeepsInv(Model(), M.OtherCommand);
      Tick();
    }

    /** A command that comes while a disconnect is being recorded cancels that work. What was written
        by then stays written, and the answer to a write under way is lost. */
    method CancelBookkeeping(cut: BookAnswers)
      requires ManagerValid() && reading.Some?
      modifies manager.store`rows, manager.desk
      ensures ManagerValid()
      ensures manager.desk.Now() == P.Audited(old(manager.desk.Now()), None, cut.deciding)
      ensures manager.store.rows == WithDisconnected(old(manager.store.rows), manager.owned.Keys - cut.unmarked)
    {
      hide SessionManager.Valid, P.PermissionDesk.Valid, P.Audited, WithDisconnected;
      var _ := manager.NoteDisconnect(cut.deciding, cut.unmarked);
    }

    method HandleCommand(command: Command, cut: BookAnswers) returns (ghost input: M.Input)
      requires Valid() && M.Waits(Model()) && !stopped
      modifies this, manager, manager.store, manager.desk
      ensures Valid() && old(manager.calls) <= manager.calls
      ensures Commands(command, input) && M.Enabled(old(Model()), input) && Model() == M.Step(old(Model()), input)
      ensures old(reading).None? ==> input == old(InputOf(command))
    {
      hide M.Inv, M.Step, M.Enabled, ManagerValid, InputOf;
      if reading.Some? {
        CancelBookkeeping(cut);
      }
      input := CarryOut(command);
    }

    /** The machine's input for a command, from what storage and transport answer to it. */
    ghost function InputOf(command: Command): M.Input
      reads this, manager, manager.store, manager.desk
    {
      match command
      case ActivateRoom(message, room, alive, callerWaits, opening, drop) =>
        M.ActivateRoom(Outcome(manager.RoomSession(message, room, opening), alive, callerWaits, opening, drop,
                               manager.desk.Now()))
      case OpenSession(bindingAgent, binding, recoverMissing, answers, capsule, _) =>
        M.OpenSession(binding.id, OpenInput(Opening(bindingAgent, binding, recoverMissing, answers), recoverMissing,
                                            capsule))
      case Detach(session, deciding, marked) =>
        M.Detach(session, Routed(session) && P.AllClear(manager.desk.Now(), Some(session), deciding) && marked)
      case Shutdown => M.Stop
      case SendersGone => M.Stop
      case _ => M.OtherCommand
    }

    method CarryOut(command: Command) returns (ghost input: M.Input)
      requires Valid() && M.Waits(Model()) && !stopped
      modifies this, manager, manager.store, manager.desk
      ensures Valid() && old(manager.calls) <= manager.calls
      ensures Commands(command, input) && input == old(InputOf(command))
      ensures M.Enabled(old(Model()), input) && Model() == M.Step(old(Model()), input)
    {
      hide M.Inv, M.Step, M.Enabled, ManagerValid, P.AllClear, GivenAway, StepsOf, O.OpenRequested, Settles, Prompted,
           SessionManager.RoomSession;
      match command {
        case ActivateRoom(message, room, alive, callerWaits, opening, drop) =>
          var _, done := HandleActivateRoom(message, room, alive, callerWaits, opening, drop);
          input := done;
        case OpenSession(bindingAgent, binding, recoverMissing, answers, capsule, abort) =>
          var _, done := HandleOpenSession(bindingAgent, binding, recoverMissing, answers, capsule, abort);
          input := done;
        case Detach(session, deciding, marked) =>
          var _, done := HandleDetach(session, deciding, marked);
          input := done;
        case Shutdown => input := Leave();
        case SendersGone => input := Leave();
        case _ =>
          input := M.OtherCommand;
          assert M.Enabled(Model(), M.OtherCommand) by { M.OtherEnabled(Model()); }
          var _, _ := HandleOther(command);
      }
    }

    /** The loop is left. */
    method Leave() returns (ghost input: M.Input)
      requires Valid() && M.Waits(Model()) && !stopped
      modifies this
      ensures Valid() && input == M.Stop
      ensures M.Enabled(old(Model()), input) && Model() == M.Step(old(Model()), input)
    {
      input := M.Stop;
      M.OtherEnabled(Model());
      M.StepKeepsInv(Model(), M.Stop);
      stopped := true;
      Tick();
    }

    ghost predicate CapsuleSettled(id: BindingId)
      reads manager, manager.store
    {
      id in manager.store.recoveries ==> manager.store.recoveries[id].capsuleDelivered
    }

    // ---- The loop ----

    /** One round of the loop in a waiting state; what is ready but not awaited is left alone. */
    method RunRound(ready: Ready) returns (ghost taken: Option<M.Input>)
      requires Valid() && M.Waits(Model()) && !stopped
      modifies this, manager, manager.store, manager.desk
      ensures Valid() && Takes(old(Model()), ready, taken, Model()) && old(manager.calls) <= manager.calls
    {
      hide M.Inv, M.Step, ManagerValid;
      taken := None;
      if !Awaits(manager.agent, bindings, pending, reading, ready) {
        return;
      }
      ghost var input;
      match ready {
        case CommandReady(command, cut) => input := HandleCommand(command, cut);
        case SendReady(ok) =>
          Deliver(ok);
          input := M.Delivered(ok);
        case EventReady(event, trySent, order, lostStored, books) =>
          var recorded;
          recorded, input := HandleEvent(event, trySent, order, lostStored, books);
        case DisconnectTaken(event) =>
          TakeDisconnect(event);
          input := M.TakeDisconnect(event);
        case EventsEnded => input := Leave();
      }
      taken := Some(input);
    }

    /** Drops a delivery that has no target left before the loop waits again. */
    method BeforeWait()
      requires Valid() && !stopped
      modifies this
      ensures Valid() && !stopped && M.Waits(Model()) && Model() == Settled(old(Model()))
    {
      if pending.Some? && pending.value.targets == [] {
        M.RetireEnabled(Model());
        Retire();
      } else {
        M.WaitsWhen(Model());
      }
    }

    /** One round more of a run that has come to this state. */
    method NextRound(ready: Ready, ghost rounds: seq<Round>) returns (ghost more: seq<Round>)
      requires Valid() && !stopped && Ran(rounds)
      modifies this, manager, manager.store, manager.desk
      ensures Valid() && Ran(more) && ReadyOf(more) == ReadyOf(rounds) + [ready] && old(manager.calls) <= manager.calls
    {
      hide M.Inv, M.Step, M.Enabled, ManagerValid, M.Run, M.Reached, M.Waits, Takes, Settled, Linked, InputsOf, ReadyOf;
      ghost var before := Model();
      BeforeWait();
      ghost var taken := RunRound(ready);
      ghost var round := Round(ready, before, taken, Model());
      OneMoreRound(manager.agent, rounds, round);
      more := rounds + [round];
    }

    /** From the start, these rounds led here, and their steps are a run of the owner machine. */
    ghost predicate Ran(rounds: seq<Round>)
      reads this, manager
    {
      Linked(rounds, M.Start(manager.agent), Model()) && M.Reached(manager.agent, InputsOf(rounds), Model())
    }

    /** The owner loop over whatever becomes ready. Each round takes what is ready exactly when the
        loop awaits it, as the step that belongs to it; the steps are a run of the owner machine;
        nothing is left over unless the loop was left; and over all of it, and all that went before,
        no recorded capsule is sent again and no prompt twice. */
    method RunOwner(ready: seq<Ready>) returns (ghost rounds: seq<Round>)
      requires Valid() && Model() == M.Start(manager.agent)
      modifies this, manager, manager.store, manager.desk
      ensures Valid() && Ran(rounds)
      ensures old(manager.calls) <= manager.calls && NothingResent(manager.calls)
      ensures ReadyOf(rounds) <= ready && (stopped || ReadyOf(rounds) == ready)
    {
      rounds := [];
      BeginRounds(ready);
      hide *;
      var i := 0;
      while i < |ready| && !stopped
        invariant 0 <= i <= |ready| && Running(ready, i, rounds, old(manager.calls))
      {
        rounds := OneRound(ready, i, rounds, old(manager.calls));
        i := i + 1;
      }
      EndRounds(ready, i, rounds, old(manager.calls));
    }

    ghost predicate Running(ready: seq<Ready>, i: nat, rounds: seq<Round>, made: seq<O.Call>)
      reads this, manager, manager.store, manager.desk
    {
      && Valid() && Ran(rounds) && i <= |ready| && ReadyOf(rounds) == ready[..i]
      && made <= manager.calls
    }

    lemma BeginRounds(ready: seq<Ready>)
      requires Valid() && Model() == M.Start(manager.agent)
      ensures Running(ready, 0, [], manager.calls)
    {
      NoRounds(manager.agent);
      hide Valid, Linked, InputsOf, M.Reached;
    }

    method OneRound(ready: seq<Ready>, i: nat, ghost rounds: seq<Round>, ghost made: seq<O.Call>)
      returns (ghost more: seq<Round>)
      requires i < |ready| && !stopped && Running(ready, i, rounds, made)
      modifies this, manager, manager.store, manager.desk
      ensures Running(ready, i + 1, more, made)
    {
      hide Valid, Ran, ReadyOf;
      more := NextRound(ready[i], rounds);
      assert ready[..i + 1] == ready[..i] + [ready[i]];
    }

    lemma EndRounds(ready: seq<Ready>, i: nat, rounds: seq<Round>, made: seq<O.Call>)
      requires Running(ready, i, rounds, made)
      ensures Valid() && Ran(rounds) && made <= manager.calls && NothingResent(manager.calls)
      ensures ReadyOf(rounds) <= ready && (i == |ready| ==> ReadyOf(rounds) == ready)
    {
      CallsAreFine();
      hide Valid, Ran, ReadyOf, NothingResent;
      assert ready[..|ready|] == ready;
    }

    lemma CallsAreFine()
      requires Valid()
      ensures NothingResent(manager.calls)
    {
      hide M.Inv, P.PermissionDesk.Valid, S.Store.Valid, OwnedIn, CallsStand;
      CallsNeverResent(manager.calls, manager.store.recoveries, manager.store.activations);
    }
  }

  // ---- What the commands come to ----

  /** A request of an owned session becomes pending; no other event changes the books. */
  function WithRequest(books: P.Books, owned: bool, event: TransportEvent): P.Books {
    if owned && event.PermissionRequested?
    then books.(pending := books.pending[P.KeyOf(event.request) := event.request]) else books
  }

  /** What an open comes to for the machine: a session that opened, with its capsule settled or not. */
  function OpenInput(o: O.Opened, recoverMissing: bool, capsule: CapsuleAnswers): M.OpenOutcome {
    match o.session
    case None => M.Refused
    case Some(session) => M.Opened(session, recoverMissing ==> Settles(o.table, session.binding, capsule))
  }

  function OpeningCalls(o: O.Opened, recoverMissing: bool, capsule: CapsuleAnswers): seq<O.Call> {
    o.calls + if o.session.Some? && recoverMissing then CapsuleCalls(o.table, o.session.value.binding, capsule) else []
  }

  /** A session without a caller is cancelled and detached; it is given away if its requests can be
      decided, by one audit or the other, and its row marked. */
  ghost predicate GivenAway(books: P.Books, session: SessionRef, drop: DropAnswers) {
    P.AllClear(P.Audited(books, Some(session), drop.cancelling), Some(session), drop.detaching) && drop.marked
  }

  /** What an activation comes to for the machine: a session that opened is answered if its prompt
      went out, and given up otherwise. */
  ghost function Outcome(session: Option<SessionRef>, alive: bool, callerWaits: bool, opening: RoomAnswers,
                         drop: DropAnswers, books: P.Books): M.RoomOutcome
  {
    match session
    case None => M.NotActivated
    case Some(session) =>
      if Prompted(alive, opening) then M.Activated(session, callerWaits, callerWaits || GivenAway(books, session, drop))
      else M.GivenUp(session, StepsOf(books, session, opening))
  }

  /** From the start a Room message is activated, its session opens and its prompt fails. Giving the
      session up leaves it owned, without a route, exactly if storage refuses one of the statements. */
  method RefusedStepOrphans(agent: AgentId, lostStored: bool, failedStored: bool, marked: bool)
    returns (owner: AgentOwner, ghost input: M.Input)
    ensures fresh(owner) && owner.Valid() && M.Reached(agent, [input], owner.Model())
    ensures 0 !in owner.bindings && (0 in owner.manager.owned <==> !(lostStored && failedStored && marked))
  {
    var nothing := P.Answers({}, {});
    var opening := RoomAnswers(
      true, true, O.SessionOpen("remote"), true, true, O.SessionGone, true, true, false, true, lostStored, failedStored,
      nothing, true, nothing, marked);
    var store := new S.Store();
    var desk := new P.PermissionDesk();
    var manager := new SessionManager(agent, store, desk);
    owner := new AgentOwner(manager);
    M.StartInv(agent);
    M.WaitsWhen(owner.Model());
    FirstSession(manager, opening);
    hide M.Inv, M.Step, M.Enabled, M.Waits, SessionManager.Valid, SessionManager.RoomSession, P.PermissionDesk.Valid,
         StepsOf, AgentOwner.Valid;
    NothingToDecide(owner.manager.desk.Now(), SessionRef(0, "remote"), opening);
    var _, done := owner.HandleActivateRoom(7, 1, true, true, opening, DropAnswers(nothing, true, nothing, true));
    input := done;
    OneStep(agent, input);
    M.OrphanedIff(M.Start(agent), input.activation);
  }

  lemma FirstSession(manager: SessionManager, opening: RoomAnswers)
    requires manager.store.Now() == S.Table(map[], map[], map[], 0) && manager.store.activations == map[]
    requires manager.owned == map[] && opening.claimed && opening.scopeReady && opening.attached
    requires opening.open == O.SessionOpen("remote")
    ensures manager.RoomSession(7, 1, opening) == Some(SessionRef(0, "remote"))
  {
  }

  lemma NothingToDecide(books: P.Books, session: SessionRef, opening: RoomAnswers)
    requires books == P.Books(map[], map[])
    ensures StepsOf(books, session, opening)
         == Steps(opening.lostStored, opening.failedStored, true, opening.marked)
  {
    P.TwoAudits(books, Some(session), opening.cancelling, opening.detaching);
    hide P.AllClear, P.Audited;
  }

  lemma OneStep(agent: AgentId, input: M.Input)
    requires M.Enabled(M.Start(agent), input)
    ensures M.Inv(M.Start(agent)) && M.Reached(agent, [input], M.Step(M.Start(agent), input))
  {
    M.StartInv(agent);
    assert M.Reached(agent, [], M.Start(agent));
    hide M.Inv, M.Step, M.Enabled;
    M.RunMore(agent, [], M.Start(agent), input);
    assert [] + [input] == [input];
  }

  // ---- Rounds of the loop ----

  /** The loop awaits commands always, room for the front target while a delivery is pending, and
      else the transport. A disconnect of this agent arrives in two moves. */
  predicate Awaits(agent: AgentId, bindings: map<BindingId, M.Route>, pending: Option<M.Delivery>,
                   reading: Option<TransportEvent>, ready: Ready)
  {
    match ready
    case CommandReady(_, _) => true
    case SendReady(_) => pending.Some?
    case EventReady(event, _, order, _, _) =>
      && pending.None?
      && reading == (if event.TransportDisconnected? && event.agent == agent then Some(event) else None)
      && M.Unique(order) && (forall id :: id in order ==> id in bindings)
      && (forall id :: id in bindings ==> id in order)
    case DisconnectTaken(event) =>
      pending.None? && reading.None? && event.TransportDisconnected? && event.agent == agent
    case EventsEnded => pending.None? && reading.None?
  }

  predicate Commands(command: Command, input: M.Input) {
    match command
    case ActivateRoom(_, _, _, callerWaits, _, _) =>
      input.ActivateRoom? && (input.activation.Activated? ==> input.activation.replied == callerWaits)
    case OpenSession(_, binding, _, _, _, _) => input.OpenSession? && input.requested == binding.id
    case Detach(session, _, _) => input.Detach? && input.session == session
    case Shutdown => input == M.Stop
    case SendersGone => input == M.Stop
    case _ => input == M.OtherCommand
  }

  /** The machine's input for what was ready. */
  predicate Tells(ready: Ready, input: M.Input) {
    match ready
    case CommandReady(command, _) => Commands(command, input)
    case SendReady(ok) => input == M.Delivered(ok)
    case EventReady(event, trySent, order, _, _) =>
      input == M.Event(event, trySent, order) || input == M.EventFails(event)
    case DisconnectTaken(event) => input == M.TakeDisconnect(event)
    case EventsEnded => input == M.Stop
  }

  /** What a round takes: every command; the answer for the front target while a delivery is pending;
      and else what the transport has, a disconnect of this agent in two moves. */
  ghost predicate MustTake(s: M.Owner, ready: Ready) {
    || ready.CommandReady?
    || (ready.SendReady? && s.pending.Some?)
    || (ready.EventsEnded? && s.pending.None? && s.reading.None?)
    || (ready.DisconnectTaken? && s.pending.None? && s.reading.None?
        && ready.event.TransportDisconnected? && ready.event.agent == s.agent)
    || (ready.EventReady? && s.pending.None?
        && s.reading == (if ready.event.TransportDisconnected? && ready.event.agent == s.agent
                         then Some(ready.event) else None)
        && M.Unique(ready.order) && forall id :: id in ready.order <==> id in s.bindings)
  }

  /** A round takes what is ready if and only if it is awaited. */
  ghost predicate Takes(s: M.Owner, ready: Ready, taken: Option<M.Input>, s': M.Owner) {
    if MustTake(s, ready) then
      && taken.Some? && Tells(ready, taken.value)
      && M.Inv(s) && M.Enabled(s, taken.value) && s' == M.Step(s, taken.value)
    else taken.None? && s' == s
  }

  /** Before it waits the loop drops a delivery without targets. */
  ghost function Settled(s: M.Owner): M.Owner {
    if M.Inv(s) && M.Enabled(s, M.Retire) then M.Step(s, M.Retire) else s
  }

  datatype Round = Round(ready: Ready, before: M.Owner, taken: Option<M.Input>, after: M.Owner)

  /** The rounds follow one another from the first state to the last; only the last may stop. */
  ghost predicate Linked(rounds: seq<Round>, first: M.Owner, last: M.Owner) {
    if rounds == [] then first == last
    else
      var round := rounds[|rounds| - 1];
      && !round.before.stopped && round.after == last && Takes(Settled(round.before), round.ready, round.taken, last)
      && Linked(rounds[..|rounds| - 1], first, round.before)
  }

  function ReadyOf(rounds: seq<Round>): seq<Ready> {
    if rounds == [] then [] else ReadyOf(rounds[..|rounds| - 1]) + [rounds[|rounds| - 1].ready]
  }

  ghost function InputsOf(rounds: seq<Round>): seq<M.Input> {
    if rounds == [] then []
    else
      var round := rounds[|rounds| - 1];
      InputsOf(rounds[..|rounds| - 1])
      + (if Settled(round.before) != round.before then [M.Retire] else [])
      + (if round.taken.Some? then [round.taken.value] else [])
  }

  lemma NoRounds(agent: AgentId)
    ensures Linked([], M.Start(agent), M.Start(agent)) && ReadyOf([]) == []
    ensures M.Reached(agent, InputsOf([]), M.Start(agent))
  {
  }

  lemma OneMoreRound(agent: AgentId, rounds: seq<Round>, round: Round)
    requires Linked(rounds, M.Start(agent), round.before) && M.Reached(agent, InputsOf(rounds), round.before)
    requires !round.before.stopped && Takes(Settled(round.before), round.ready, round.taken, round.after)
    ensures Linked(rounds + [round], M.Start(agent), round.after)
    ensures ReadyOf(rounds + [round]) == ReadyOf(rounds) + [round.ready]
    ensures M.Reached(agent, InputsOf(rounds + [round]), round.after)
  {
    hide M.Inv, M.Enabled, M.Step, M.Reached, Awaits, Tells;
    assert (rounds + [round])[..|rounds|] == rounds;
    var inputs, s := InputsOf(rounds), Settled(round.before);
    M.RunMore(agent, inputs, round.before, M.Retire);
    if s != round.before {
      inputs := inputs + [M.Retire];
    }
    if round.taken.Some? {
      M.RunMore(agent, inputs, s, round.taken.value);
      inputs := inputs + [round.taken.value];
    }
    assert InputsOf(rounds) + [] + [] == InputsOf(rounds);
    assert inputs == InputsOf(rounds + [round]);
  }
}
