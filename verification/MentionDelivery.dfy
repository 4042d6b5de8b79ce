/** The runtimes that carry a delivery out: the thread mention with its capsule turn and the direct
    message, over the stored row they share. Every await is one step of the delivery machine. */
module MentionDelivery {
  import opened Domain
  import M = DeliveryMachine

  // ---- The capsule's turn ----

  datatype CapsuleCall = CancelTurn | Decline(requestId: string)

  /** Events of the session that a capsule's turn may contain besides its end. */
  predicate Uneventful(event: TransportEvent, session: SessionRef) {
    EventSession(event) == Some(session)
    && (event.TurnStarted? || event.AgentTextDelta? || event.AgentMessageCompleted? || event.ToolCallStarted?
        || event.ToolCallFinished? || event.UsageReported?)
  }

  /** The turn of this session completes and nothing but uneventful events of it came before. */
  predicate Completes(events: seq<TransportEvent>, session: SessionRef) {
    events != [] && (events[0] == TurnCompleted(session) || (Uneventful(events[0], session)
        && Completes(events[1..], session)))
  }

  /** The permission requests among the events. */
  function Requests(events: seq<TransportEvent>): seq<string> {
    if events == [] then []
    else
      var last := events[|events| - 1];
      Requests(events[..|events| - 1]) + (if last.PermissionRequested? then [last.request.requestId] else [])
  }

  function Declines(requests: seq<string>): (calls: seq<CapsuleCall>)
    ensures |calls| == |requests| && forall i | 0 <= i < |calls| :: calls[i] == Decline(requests[i])
  {
    seq(|requests|, i requires 0 <= i < |requests| => Decline(requests[i]))
  }

  /** The first request cancels the turn, every later one is declined by name. */
  function Answers(requests: seq<string>): seq<CapsuleCall> {
    if requests == [] then [] else [CancelTurn] + Declines(requests[1..])
  }

  lemma RequestsMore(events: seq<TransportEvent>, n: nat)
    requires n < |events|
    ensures Requests(events[..n + 1])
         == Requests(events[..n]) + (if events[n].PermissionRequested? then [events[n].request.requestId] else [])
    ensures Answers(Requests(events[..n + 1]))
         == Answers(Requests(events[..n]))
            + (if !events[n].PermissionRequested? then []
               else if Requests(events[..n]) == [] then [CancelTurn] else [Decline(events[n].request.requestId)])
  {
    assert events[..n + 1][..n] == events[..n];
    var before := Requests(events[..n]);
    if events[n].PermissionRequested? && before != [] {
      var more := before + [events[n].request.requestId];
      assert more[1..] == before[1..] + [events[n].request.requestId];
      assert Declines(more[1..]) == Declines(before[1..]) + [Decline(events[n].request.requestId)];
    }
  }

  lemma NothingRead(events: seq<TransportEvent>, session: SessionRef)
    ensures Requests(events[..0]) == [] && Answers([]) == [] && events[0..] == events
    ensures !Completes([], session)
  {
  }

  lemma CompletesStep(events: seq<TransportEvent>, n: nat, session: SessionRef)
    requires n < |events|
    ensures Completes(events[n..], session) <==>
            events[n] == TurnCompleted(session)
            || (Uneventful(events[n], session) && Completes(events[n + 1..], session))
    ensures Uneventful(events[n], session) <==>
            match events[n] {
              case TurnCompleted(_) => false
              case PermissionRequested(_) => false
              case TurnFailed(_, _) => false
              case TransportDisconnected(_, _) => false
              case SessionLost(_) => false
              case _ => EventSession(events[n]) == Some(session)
            }
    ensures n + 1 == |events| ==> events[n + 1..] == []
  {
    assert events[n..][1..] == events[n + 1..];
  }

  /** The turn of this session ends at `n`, after nothing but its beginning, text, tools and usage. */
  ghost predicate EndsAt(events: seq<TransportEvent>, session: SessionRef, n: int) {
    && 0 <= n < |events| && events[n] == TurnCompleted(session)
    && forall i :: 0 <= i < n ==>
         && EventSession(events[i]) == Some(session) && !events[i].TurnCompleted?
         && !events[i].PermissionRequested? && !events[i].TurnFailed? && !events[i].SessionLost?
  }

  lemma {:induction false} CompletesIff(events: seq<TransportEvent>, session: SessionRef)
    ensures Completes(events, session) <==> exists n :: EndsAt(events, session, n)
  {
    if events != [] {
      var rest := events[1..];
      CompletesIff(rest, session);
      if events[0] == TurnCompleted(session) { assert EndsAt(events, session, 0); }
      if n: int :| EndsAt(rest, session, n) {
        assert Uneventful(events[0], session) ==> EndsAt(events, session, n + 1);
      }
      if n: int :| EndsAt(events, session, n) {
        assert n > 0 ==> EndsAt(rest, session, n - 1) && Uneventful(events[0], session);
      }
    }
  }

  /** Waits for the capsule's turn. It counts as completed exactly when the events say so and no
      permission was asked for; a permission is never granted on the way. */
  method FinishCapsuleTurn(events: seq<TransportEvent>, session: SessionRef, cancelOk: bool, unsendable: set<string>)
    returns (ok: bool, read: nat, calls: seq<CapsuleCall>)
    ensures read <= |events| && calls <= Answers(Requests(events[..read]))
    ensures ok <==> Completes(events, session)
    ensures ok <==> exists n :: EndsAt(events, session, n)
    ensures forall event :: event in events[..read] && event.PermissionRequested? ==>
              event.request.session == session ==> calls != [] && calls[0] == CancelTurn
    ensures ok ==> calls == [] && Requests(events[..read]) == []
    ensures ok ==> read > 0 && events[read - 1] == TurnCompleted(session)
  {
    CompletesIff(events, session);
    hide Requests, Answers, Declines, Completes, Uneventful, EndsAt;
    ok, read, calls := false, 0, [];
    var capsuleError := false;
    NothingRead(events, session);
    while read < |events|
      invariant read <= |events| && !ok && calls == Answers(Requests(events[..read]))
      invariant capsuleError <==> Requests(events[..read]) != []
      invariant if capsuleError then calls != [] && calls[0] == CancelTurn
                else forall event :: event in events[..read] ==> !event.PermissionRequested?
      invariant if capsuleError then !Completes(events, session)
                else Completes(events, session) == Completes(events[read..], session)
    {
      var event := events[read];
      RequestsMore(events, read);
      CompletesStep(events, read, session);
      assert events[..read + 1] == events[..read] + [event];
      read := read + 1;
      match event {
        case TurnCompleted(completed) =>
          ok := completed == session && !capsuleError;
          return;
        case PermissionRequested(request) =>
          if request.session != session { return; }
          if !capsuleError {
            calls := calls + [CancelTurn];
            if !cancelOk { return; }
            capsuleError := true;
          } else {
            calls := calls + [Decline(request.requestId)];
            if request.requestId in unsendable { return; }
          }
        case TurnFailed(_, _) => return;
        case TransportDisconnected(_, _) => return;
        case SessionLost(_) => return;
        case _ =>
          if EventSession(event) != Some(session) { return; }
      }
    }
    assert events[read..] == [];
  }

  lemma LastOfMore(outcomes: seq<M.Outcome>, outcome: M.Outcome)
    ensures (outcomes + [outcome])[|outcomes|..] == [outcome]
  {
  }

  // ---- The runtimes ----

  /** What a command answers: refused before anything was touched, an error of the first write, no
      delivery to work on, or the outcome of an attempt. */
  datatype Reply = Refused | Answered(outcome: M.Outcome)

  /** What the world does during one attempt, where the code cannot choose. `elsewhere` allows
      another process to start up meanwhile. */
  datatype World = World(
    elsewhere: bool, admitted: bool, opens: bool, sendsCapsule: bool, session: SessionRef, events: seq<TransportEvent>,
    cancelOk: bool, unsendable: set<string>, capsuleWrite: M.Write, sendsBody: bool, bodyWrite: M.Write,
    failureWrite: M.Write)

  /** The capsule goes out, its turn completes and that is recorded. */
  predicate CapsuleGoes(world: World) {
    world.sendsCapsule && Completes(world.events, world.session) && world.capsuleWrite.Answers?
  }

  predicate BodyGoes(world: World) {
    world.sendsBody && world.bodyWrite.Answers?
  }

  /** What a direct message needs besides its row: a sender, the conversation's own session, the body. */
  predicate DirectGoes(active: Option<(nat, AgentId)>, session: bool, place: (nat, AgentId),
                       senderParses: bool, world: World) {
    && senderParses && BodyGoes(world)
    && (if active.Some? then active.value == place else !session && world.opens)
  }

  /** The runtime of one context working on one delivery row: that of a direct message, or that of a
      mention in a thread. */
  class DeliveryRuntime {
    const direct: bool
    const conversation: nat
    const target: AgentId
    var row: Option<M.Row>
    var stopped: bool
    var expected: Option<AgentId>
    var active: Option<(nat, AgentId)>
    var session: bool
    ghost var phase: M.Phase
    ghost var owed: bool
    ghost var log: seq<M.Act>
    ghost var outcomes: seq<M.Outcome>
    ghost var script: seq<M.Input>

    ghost function Model(): M.Delivery
      reads `row, `phase, `owed, `log, `outcomes
    {
      M.Delivery(row, phase, owed, log, outcomes)
    }

    /** Everything that happened so far is a run of the delivery machine; direct messages have no
        capsule. */
    ghost predicate Valid()
      reads `row, `phase, `owed, `log, `outcomes, `script
    {
      M.Run(M.Start(), script) == Some(Model()) && RightKind()
    }

    predicate RightKind()
      reads `row
    {
      direct && row.Some? ==> !row.value.capsule
    }

    constructor (direct: bool, conversation: nat, target: AgentId, expected: Option<AgentId>)
      ensures Valid() && phase.Idle? && row.None?
      ensures this.direct == direct && this.conversation == conversation && this.target == target
    {
      this.direct := direct;
      this.conversation, this.target, this.expected := conversation, target, expected;
      row, stopped, active, session := None, false, None, false;
      phase, owed, log, outcomes, script := M.Idle, false, [], [], [];
    }

    lemma Reachable()
      requires Valid()
      ensures M.Inv(Model())
    {
      hide M.Run, M.Inv;
      M.StartInv();
      M.RunKeepsInv(M.Start(), script);
    }

    /** Takes one step of the machine. */
    ghost method Advance(input: M.Input, s: M.Delivery)
      requires M.Run(M.Start(), script) == Some(s) && M.Enabled(s, input) && row == M.Step(s, input).row && RightKind()
      modifies `phase, `owed, `log, `outcomes, `script
      ensures Valid() && Model() == M.Step(s, input) && script == old(script) + [input]
    {
      hide M.Step, M.Enabled;
      assert (script + [input])[..|script|] == script;
      var s' := M.Step(s, input);
      phase, owed, log, outcomes, script := s'.phase, s'.owed, s'.log, s'.outcomes, script + [input];
    }

    /** Another process starting up may fail a pending row at any time. */
    method Meanwhile(world: World)
      requires Valid()
      modifies `row, `phase, `owed, `log, `outcomes, `script
      ensures Valid() && phase == old(phase) && owed == old(owed) && old(script) <= script && outcomes == old(outcomes)
      ensures !world.elsewhere ==> row == old(row)
    {
      var now: bool := *;
      if world.elsewhere && now {
        ghost var s := Model();
        if row.Some? && row.value.status.Pending? { row := Some(row.value.(status := M.Failed)); }
        Advance(M.Elsewhere, s);
      }
    }

    // ---- The store's writes: compare-and-set, and an answer that may be lost ----

    method MarkCapsuleDelivered(write: M.Write) returns (answer: Option<bool>)
      requires Valid() && phase.RecordCapsule?
      modifies `row, `phase, `owed, `log, `outcomes, `script
      ensures Valid() && Model() == M.OnMarkCapsule(old(Model()), write) && old(script) <= script
      ensures answer == Some(true) <==> phase.SendBody?
      ensures answer == Some(true) <==> write.Answers? && M.CapsuleMarkable(old(Model()))
      ensures answer == Some(true) ==> M.IsPending(Model())
      ensures answer == Some(true) <==> write.Answers? && old(row) == Some(M.Row(M.Pending, true, false))
      ensures answer == Some(true) ==> row == Some(M.Row(M.Pending, true, true))
      ensures answer != Some(true) <==> phase.RecordFailure?
      ensures outcomes == old(outcomes)
    {
      ghost var s := Model();
      var hit := row.Some? && row.value.status.Pending? && row.value.capsule && !row.value.recorded;
      if hit && !write.ErrsUnwritten? { row := Some(row.value.(recorded := true)); }
      answer := if write.Answers? then Some(hit) else None;
      Advance(M.MarkCapsule(write), s);
    }

    method MarkDelivered(write: M.Write) returns (answer: Option<bool>)
      requires Valid() && phase.RecordBody?
      modifies `row, `phase, `owed, `log, `outcomes, `script
      ensures Valid() && Model() == M.OnMarkDelivered(old(Model()), write) && old(script) <= script
      ensures answer == Some(true) <==> phase.Idle?
      ensures answer == Some(true) <==> write.Answers? && M.IsPending(old(Model()))
      ensures answer == Some(true) ==> outcomes == old(outcomes) + [M.Succeeded] && M.IsDelivered(Model())
      ensures answer == Some(true) <==> write.Answers? && old(row).Some? && old(row).value.status.Pending?
      ensures answer == Some(true) ==> row == Some(old(row).value.(status := M.Delivered))
      ensures answer != Some(true) ==> outcomes == old(outcomes)
      ensures answer != Some(true) <==> phase.RecordFailure?
    {
      ghost var s := Model();
      var hit := row.Some? && row.value.status.Pending?;
      if hit && !write.ErrsUnwritten? { row := Some(row.value.(status := M.Delivered)); }
      answer := if write.Answers? then Some(hit) else None;
      Advance(M.MarkDelivered(write), s);
    }

    method MarkFailed(write: M.Write) returns (answer: Option<bool>)
      requires Valid() && phase.RecordFailure?
      modifies `row, `phase, `owed, `log, `outcomes, `script
      ensures Valid() && Model() == M.OnMarkFailed(old(Model()), write) && old(script) <= script
      ensures outcomes == old(outcomes) + [if answer == Some(true) then M.PersistedFailed else M.RecoveryFailed]
      ensures phase.Idle? && (answer == Some(true) ==> M.IsFailed(Model()))
      ensures answer == Some(true) <==> write.Answers? && old(row).Some? && old(row).value.status.Pending?
      ensures answer == Some(true) ==> row == Some(old(row).value.(status := M.Failed))
    {
      ghost var s := Model();
      var hit := row.Some? && row.value.status.Pending?;
      if hit && !write.ErrsUnwritten? { row := Some(row.value.(status := M.Failed)); }
      answer := if write.Answers? then Some(hit) else None;
      Advance(M.MarkFailed(write), s);
    }

    /** The failure of an attempt is recorded; when it is not sure to be, the error says so. */
    method PersistedFailure(world: World) returns (outcome: M.Outcome)
      requires Valid() && phase.RecordFailure?
      modifies `row, `phase, `owed, `log, `outcomes, `script
      ensures Valid() && phase.Idle? && outcomes == old(outcomes) + [outcome] && old(script) <= script
      ensures outcome.PersistedFailed? || outcome.RecoveryFailed?
      ensures outcome.PersistedFailed? ==> M.IsFailed(Model())
    {
      hide M.OnMarkFailed, Valid;
      Meanwhile(world);
      var answer := MarkFailed(world.failureWrite);
      outcome := if answer == Some(true) then M.PersistedFailed else M.RecoveryFailed;
    }

    // ---- One attempt ----

    /** A new row, unless the message is already there. */
    method PersistDelivery(capsule: bool, write: M.Write) returns (persisted: Result<Option<M.Row>, ()>)
      requires Valid() && phase.Idle? && (capsule ==> !direct)
      modifies `row, `phase, `owed, `log, `outcomes, `script
      ensures Valid() && Model() == M.OnPersist(old(Model()), capsule, write)
      ensures script == old(script) + [M.Persist(capsule, write)]
      ensures phase.Opening? <==> old(row).None? && write.Answers?
      ensures persisted.Ok? && persisted.value.Some? <==> phase.Opening?
      ensures phase.Opening? ==>
                && M.IsPending(Model()) && persisted.value == row && owed == capsule
                && outcomes == old(outcomes) && row.value.capsule == capsule && !row.value.recorded
      ensures !phase.Opening? ==>
                phase.Idle? && outcomes == old(outcomes) + [if persisted.Ok? then M.Unclaimed else M.NotPersisted]
    {
      ghost var s := Model();
      var missing := row.None?;
      if missing && !write.ErrsUnwritten? { row := Some(M.Row(M.Pending, capsule, false)); }
      persisted := if !write.Answers? then Err(()) else if missing then Ok(row) else Ok(None);
      Advance(M.Persist(capsule, write), s);
    }

    /** A failed row becomes pending again; a claim that errs may or may not have done so. */
    method ClaimFailedDelivery(write: M.Write) returns (claimed: Result<Option<M.Row>, ()>)
      requires Valid() && phase.Idle?
      modifies `row, `phase, `owed, `log, `outcomes, `script
      ensures Valid() && Model() == M.OnClaim(old(Model()), write) && script == old(script) + [M.Claim(write)]
      ensures claimed.Ok? && claimed.value.Some? <==> phase.Opening?
      ensures phase.Opening? ==>
                && M.IsPending(Model()) && claimed.value == row && outcomes == old(outcomes)
                && owed == (row.value.capsule && !row.value.recorded)
      ensures phase.Opening? ==> old(row).Some? && row.value.capsule == old(row).value.capsule
      ensures !phase.Opening? ==>
                phase.Idle? && outcomes == old(outcomes) + [if claimed.Ok? then M.Unclaimed else M.PersistedFailed]
      ensures claimed.Err? <==> !write.Answers?
      ensures phase.Opening? <==> old(row).Some? && old(row).value.status.Failed? && write.Answers?
      ensures phase.Opening? ==> row == Some(old(row).value.(status := M.Pending))
    {
      ghost var s := Model();
      var failed := row.Some? && row.value.status.Failed?;
      if failed && !write.ErrsUnwritten? { row := Some(row.value.(status := M.Pending)); }
      claimed := if !write.Answers? then Err(()) else if failed then Ok(row) else Ok(None);
      Advance(M.Claim(write), s);
    }

    /** The session of the conversation: the one at hand, checked again for a retry, or a new one. */
    method OpenSession(revalidate: bool, world: World) returns (ok: bool)
      requires Valid() && phase.Opening? && (active.Some? ==> session)
      modifies `active, `session, `row, `phase, `owed, `log, `outcomes, `script
      ensures Valid() && old(script) <= script && outcomes == old(outcomes)
      ensures phase == if !ok then M.RecordFailure else if old(owed) then M.SendCapsule else M.SendBody
      ensures ok <==> if old(active).Some? then revalidate ==> world.admitted else world.opens
      ensures (active.Some? ==> session) && (ok ==> session)
      ensures !world.elsewhere ==> row == old(row)
    {
      Meanwhile(world);
      if active.Some? {
        ok := !revalidate || world.admitted;
      } else {
        ok := world.opens;
        if ok { active, session := Some((conversation, target)), true; }
      }
      Advance(M.Open(ok), Model());
    }

    method Send(capsule: bool, sends: bool, world: World) returns (ok: bool)
      requires Valid() && session && (if capsule then phase.SendCapsule? else phase.SendBody?)
      modifies `row, `phase, `owed, `log, `outcomes, `script
      ensures Valid() && old(script) <= script && outcomes == old(outcomes)
      ensures ok == sends && phase == if !ok then M.RecordFailure else if capsule then M.AwaitCapsule else M.RecordBody
      ensures !world.elsewhere ==> row == old(row)
    {
      Meanwhile(world);
      ok := session && sends;
      if capsule { Advance(M.DoSendCapsule(ok), Model()); } else { Advance(M.DoSendBody(ok), Model()); }
    }

    /** Sends the capsule, waits for its turn and records it. */
    method DeliverCapsule(world: World) returns (ok: bool)
      requires Valid() && session && phase.SendCapsule?
      modifies `row, `phase, `owed, `log, `outcomes, `script
      ensures Valid() && old(script) <= script && outcomes == old(outcomes)
      ensures phase == if ok then M.SendBody else M.RecordFailure
      ensures ok ==> CapsuleGoes(world)
      ensures !world.elsewhere && M.CapsuleMarkable(old(Model())) ==> (ok <==> CapsuleGoes(world))
      ensures !world.elsewhere && old(row) == Some(M.Row(M.Pending, true, false)) ==>
                (ok <==> world.sendsCapsule && (exists n :: EndsAt(world.events, world.session, n))
                         && world.capsuleWrite.Answers?)
      ensures !world.elsewhere && ok ==> M.IsPending(Model())
    {
      CompletesIff(world.events, world.session);
      hide Valid, M.Run, Completes, M.OnMarkCapsule, Requests, Answers, EndsAt;
      ok := Send(true, world.sendsCapsule, world);
      if !ok { return; }
      var completed, _, _ := FinishCapsuleTurn(world.events, world.session, world.cancelOk, world.unsendable);
      CapsuleTurn(completed);
      if !completed { return false; }
      Meanwhile(world);
      var answer := MarkCapsuleDelivered(world.capsuleWrite);
      ok := answer == Some(true);
    }

    ghost method CapsuleTurn(ok: bool)
      requires Valid() && phase.AwaitCapsule?
      modifies `phase, `owed, `log, `outcomes, `script
      ensures Valid() && old(script) <= script && outcomes == old(outcomes)
      ensures phase == if ok then M.RecordCapsule else M.RecordFailure
    {
      Advance(M.FinishCapsule(ok), Model());
    }

    /** From the session to the recorded body; every failure on the way is recorded as such. */
    method DeliverPersisted(delivery: M.Row, revalidate: bool, world: World) returns (outcome: M.Outcome)
      requires Valid() && phase.Opening? && owed == (delivery.capsule && !delivery.recorded)
               && (active.Some? ==> session)
      requires row == Some(delivery) && delivery.status.Pending?
      modifies `active, `session, `row, `phase, `owed, `log, `outcomes, `script
      ensures Valid() && phase.Idle? && old(script) <= script && outcomes == old(outcomes) + [outcome]
      ensures outcome.Succeeded? || outcome.PersistedFailed? || outcome.RecoveryFailed?
      ensures outcome.Succeeded? ==> M.IsDelivered(Model())
      ensures outcome.Succeeded? && delivery.capsule && !delivery.recorded ==> CapsuleGoes(world)
      ensures outcome.PersistedFailed? ==> M.IsFailed(Model())
      ensures !world.elsewhere ==>
                (outcome.Succeeded? <==>
                   && (if old(active).Some? then revalidate ==> world.admitted else world.opens)
                   && (delivery.capsule && !delivery.recorded ==> CapsuleGoes(world))
                   && world.sendsBody && world.bodyWrite.Answers?)
      ensures active.Some? ==> session
    {
      hide Valid, CapsuleGoes, M.OnMarkDelivered, M.OnMarkCapsule, M.OnMarkFailed, M.IsDelivered, M.IsFailed;
      var ok := OpenSession(revalidate, world);
      if !ok {
        outcome := PersistedFailure(world);
        return;
      }
      if delivery.capsule && !delivery.recorded {
        ok := DeliverCapsule(world);
        if !ok {
          outcome := PersistedFailure(world);
          return;
        }
      }
      ok := Send(false, world.sendsBody, world);
      if !ok {
        outcome := PersistedFailure(world);
        return;
      }
      Meanwhile(world);
      var recorded := MarkDelivered(world.bodyWrite);
      if recorded == Some(true) {
        outcome := M.Succeeded;
      } else {
        outcome := PersistedFailure(world);
      }
    }

    /** A direct message reuses the conversation's session or opens one; another one is in the way. */
    method OpenDirect(senderParses: bool, world: World) returns (ok: bool)
      requires Valid() && phase.Opening? && (active.Some? ==> session)
      modifies `active, `session, `row, `phase, `owed, `log, `outcomes, `script
      ensures Valid() && old(script) <= script && outcomes == old(outcomes)
      ensures phase == if !ok then M.RecordFailure else if old(owed) then M.SendCapsule else M.SendBody
      ensures ok <==> senderParses && (if old(active).Some? then old(active).value == (conversation, target)
                else !old(session) && world.opens)
      ensures ok ==> active == Some((conversation, target)) && session
      ensures active.Some? ==> session
      ensures !world.elsewhere ==> row == old(row)
    {
      Meanwhile(world);
      ok := false;
      if senderParses {
        if active.Some? {
          ok := active.value == (conversation, target);
        } else if !session {
          ok := world.opens;
          if ok { active, session := Some((conversation, target)), true; }
        }
      }
      Advance(M.Open(ok), Model());
    }

    method DeliverDirect(senderParses: bool, world: World) returns (outcome: M.Outcome)
      requires Valid() && phase.Opening? && !owed && (active.Some? ==> session) && M.IsPending(Model())
      modifies `active, `session, `row, `phase, `owed, `log, `outcomes, `script
      ensures Valid() && phase.Idle? && old(script) <= script && outcomes == old(outcomes) + [outcome]
      ensures outcome.Succeeded? || outcome.PersistedFailed? || outcome.RecoveryFailed?
      ensures outcome.Succeeded? ==> M.IsDelivered(Model())
      ensures outcome.PersistedFailed? ==> M.IsFailed(Model())
      ensures !world.elsewhere ==>
                (outcome.Succeeded? <==>
                   && senderParses && world.sendsBody && world.bodyWrite.Answers?
                   && if old(active).Some? then old(active).value == (conversation, target)
                      else !old(session) && world.opens)
      ensures active.Some? ==> session
    {
      hide Valid, M.OnMarkDelivered, M.OnMarkCapsule, M.OnMarkFailed, M.IsDelivered, M.IsFailed;
      var ok := OpenDirect(senderParses, world);
      if ok { ok := Send(false, world.sendsBody, world); }
      if !ok {
        outcome := PersistedFailure(world);
        return;
      }
      Meanwhile(world);
      var recorded := MarkDelivered(world.bodyWrite);
      if recorded == Some(true) {
        outcome := M.Succeeded;
      } else {
        outcome := PersistedFailure(world);
      }
    }

    // ---- The commands ----

    /** What holds after every command that was not refused. */
    ghost predicate Told(reply: Reply, before: seq<M.Outcome>)
      reads `row, `phase, `owed, `log, `outcomes, `script
    {
      && Valid() && phase.Idle? && reply.Answered? && outcomes == before + [reply.outcome]
      && (reply.outcome.Succeeded? ==> M.IsDelivered(Model()))
      && (reply.outcome.PersistedFailed? ==>
            M.IsFailed(Model()) || (script != [] && M.ClaimErred(script[|script| - 1])))
    }

    predicate Addressed(running: bool)
      reads `stopped, `expected
    {
      !stopped && running && expected == Some(target)
    }

    method MentionThreadAgent(body: string, capsule: string, member: bool, running: bool, write: M.Write, world: World)
      returns (reply: Reply)
      requires Valid() && phase.Idle? && (active.Some? ==> session) && !direct
      modifies `active, `session, `row, `phase, `owed, `log, `outcomes, `script
      ensures reply.Refused? <==>
              old(!Addressed(running)) || Blank(body) || Blank(capsule)
              || (if old(active.Some?) then old(active.value != (conversation, target)) else old(session))
      ensures if reply.Refused? then unchanged(this) else Told(reply, old(outcomes))
      ensures reply.Answered? ==> old(script) + [M.Persist(!member, write)] <= script
      ensures active.Some? ==> session
      ensures reply.Answered? && reply.outcome.PersistedFailed? ==> M.IsFailed(Model())
      ensures reply.Answered? && reply.outcome.Succeeded? && !member ==> CapsuleGoes(world)
      ensures reply.Answered? && !world.elsewhere ==>
                (reply.outcome.Succeeded? <==>
                   && old(row).None? && write.Answers? && (old(active).Some? || world.opens)
                   && (!member ==> CapsuleGoes(world)) && BodyGoes(world))
    {
      hide Completes, M.Run, M.OnPersist, M.IsDelivered, M.IsFailed, CapsuleGoes, RightKind;
      if stopped || !running || expected != Some(target) { return Refused; }
      if Blank(body) || Blank(capsule) { return Refused; }
      if (active.Some? && active.value != (conversation, target)) || (active.None? && session) { return Refused; }
      var persisted := PersistDelivery(!member, write);
      match persisted {
        case Err(_) => reply := Answered(M.NotPersisted);
        case Ok(None) => reply := Answered(M.Unclaimed);
        case Ok(Some(delivery)) =>
          var outcome := DeliverPersisted(delivery, false, world);
          reply := Answered(outcome);
      }
    }

    method RetryThreadMention(running: bool, write: M.Write, world: World) returns (reply: Reply)
      requires Valid() && phase.Idle? && (active.Some? ==> session) && !direct
      modifies `active, `session, `row, `phase, `owed, `log, `outcomes, `script
      ensures reply.Refused? <==> old(!Addressed(running)) || (old(active.Some?) && old(active.value.1) != target)
      ensures if reply.Refused? then unchanged(this) else Told(reply, old(outcomes))
      ensures reply.Answered? ==> old(script) + [M.Claim(write)] <= script
      ensures active.Some? ==> session
      ensures reply.Answered? && !world.elsewhere ==>
                (reply.outcome.Succeeded? <==>
                   && M.IsFailed(old(Model())) && write.Answers? && BodyGoes(world)
                   && (if old(active).Some? then old(active).value.0 == conversation && world.admitted
                       else !old(session) && world.opens)
                   && (old(row).value.capsule && !old(row).value.recorded ==> CapsuleGoes(world)))
    {
      hide Completes, M.Run, M.OnClaim, M.IsDelivered, CapsuleGoes, BodyGoes, RightKind;
      if stopped || !running || expected != Some(target) { return Refused; }
      if active.Some? && active.value.1 != target { return Refused; }
      var claimed := ClaimFailedDelivery(write);
      match claimed {
        case Err(_) => reply := Answered(M.PersistedFailed);
        case Ok(None) => reply := Answered(M.Unclaimed);
        case Ok(Some(delivery)) =>
          var outcome := DeliverClaimed(delivery, world);
          reply := Answered(outcome);
      }
    }

    /** A claimed mention fails if the runtime's session is that of another conversation. */
    method DeliverClaimed(delivery: M.Row, world: World) returns (outcome: M.Outcome)
      requires Valid() && phase.Opening? && owed == (delivery.capsule && !delivery.recorded)
               && (active.Some? ==> session)
      requires row == Some(delivery) && delivery.status.Pending?
      modifies `active, `session, `row, `phase, `owed, `log, `outcomes, `script
      ensures Valid() && phase.Idle? && old(script) <= script && outcomes == old(outcomes) + [outcome]
      ensures outcome.Succeeded? || outcome.PersistedFailed? || outcome.RecoveryFailed?
      ensures outcome.Succeeded? ==> M.IsDelivered(Model())
      ensures outcome.PersistedFailed? ==> M.IsFailed(Model())
      ensures !world.elsewhere ==>
                (outcome.Succeeded? <==>
                   && BodyGoes(world)
                   && (if old(active).Some? then old(active).value.0 == conversation && world.admitted
                       else !old(session) && world.opens)
                   && (delivery.capsule && !delivery.recorded ==> CapsuleGoes(world)))
      ensures active.Some? ==> session
    {
      hide M.Run, M.IsDelivered, M.IsFailed, CapsuleGoes;
      if (active.Some? && active.value.0 != conversation) || (active.None? && session) {
        Advance(M.Open(false), Model());
        outcome := PersistedFailure(world);
      } else {
        outcome := DeliverPersisted(delivery, true, world);
      }
    }

    method SendAgentMessage(body: string, senderParses: bool, running: bool, write: M.Write, world: World)
      returns (reply: Reply)
      requires Valid() && phase.Idle? && (active.Some? ==> session) && direct
      modifies `active, `session, `row, `phase, `owed, `log, `outcomes, `script
      ensures reply.Refused? <==> old(!Addressed(running)) || Blank(body)
      ensures if reply.Refused? then unchanged(this) else Told(reply, old(outcomes))
      ensures reply.Answered? ==> old(script) + [M.Persist(false, write)] <= script
      ensures active.Some? ==> session
      ensures reply.Answered? && reply.outcome.PersistedFailed? ==> M.IsFailed(Model())
      ensures reply.Answered? && !world.elsewhere ==>
                (reply.outcome.Succeeded? <==>
                   && old(row).None? && write.Answers?
                   && DirectGoes(old(active), old(session), (conversation, target), senderParses, world))
    {
      hide M.Run, M.OnPersist, M.IsDelivered, M.IsFailed;
      if stopped || !running || expected != Some(target) { return Refused; }
      if Blank(body) { return Refused; }
      var persisted := PersistDelivery(false, write);
      match persisted {
        case Err(_) => reply := Answered(M.NotPersisted);
        case Ok(None) => reply := Answered(M.Unclaimed);
        case Ok(Some(_)) =>
          var outcome := DeliverDirect(senderParses, world);
          reply := Answered(outcome);
      }
    }

    method RetryAgentMessage(senderParses: bool, running: bool, write: M.Write, world: World) returns (reply: Reply)
      requires Valid() && phase.Idle? && (active.Some? ==> session) && direct
      modifies `active, `session, `row, `phase, `owed, `log, `outcomes, `script
      ensures reply.Refused? <==> old(!Addressed(running))
      ensures if reply.Refused? then unchanged(this) else Told(reply, old(outcomes))
      ensures reply.Answered? ==> old(script) + [M.Claim(write)] <= script
      ensures active.Some? ==> session
      ensures reply.Answered? && !world.elsewhere ==>
                (reply.outcome.Succeeded? <==>
                   && M.IsFailed(old(Model())) && write.Answers?
                   && DirectGoes(old(active), old(session), (conversation, target), senderParses, world))
    {
      hide M.Run, M.OnClaim, M.IsDelivered;
      if stopped || !running || expected != Some(target) { return Refused; }
      var claimed := ClaimFailedDelivery(write);
      match claimed {
        case Err(_) => reply := Answered(M.PersistedFailed);
        case Ok(None) => reply := Answered(M.Unclaimed);
        case Ok(Some(_)) =>
          var outcome := DeliverDirect(senderParses, world);
          reply := Answered(outcome);
      }
    }

    /** The process ends, wherever the attempt is, and the next one starts up. */
    method Restart()
      requires Valid()
      modifies `active, `session, `stopped, `row, `phase, `owed, `log, `outcomes, `script
      ensures Valid() && phase.Idle? && script == old(script) + [M.Restart] && outcomes == old(outcomes)
      ensures active.None? && !session && !stopped
      ensures log == old(log) && row.None? == old(row.None?)
      ensures row.Some? ==> row.value == old(row.value).(status := if old(row.value.status.Pending?) then M.Failed
                else old(row.value.status))
    {
      ghost var s := Model();
      if row.Some? && row.value.status.Pending? { row := Some(row.value.(status := M.Failed)); }
      active, session, stopped := None, false, false;
      Advance(M.Restart, s);
    }

    ghost function Now(): View
      reads `active, `session, `stopped, `row, `phase, `owed, `log, `outcomes, `script
    {
      View(active, session, stopped, Model(), script)
    }

    predicate Fits(attempt: Attempt) {
      match attempt
      case Mention(_, _, _, _, _, _) => !direct
      case Retry(_, _, _) => !direct
      case Direct(_, _, _, _, _) => direct
      case DirectRetry(_, _, _, _) => direct
      case Crash => true
    }

    method Perform(attempt: Attempt) returns (reply: Option<Reply>)
      requires Valid() && phase.Idle? && (active.Some? ==> session) && Fits(attempt)
      modifies `active, `session, `stopped, `row, `phase, `owed, `log, `outcomes, `script
      ensures Valid() && phase.Idle? && old(script) <= script && (active.Some? ==> session)
      ensures reply == Some(Answered(M.Succeeded)) ==>
                M.IsDelivered(Model()) && outcomes == old(outcomes) + [M.Succeeded]
      ensures Did(Turn(attempt, reply, old(Now()), Now()), (conversation, target), expected)
    {
      hide M.Run, M.IsDelivered, CapsuleGoes, BodyGoes, DirectGoes, Blank, RightKind;
      match attempt {
        case Mention(body, capsule, member, running, write, world) =>
          var answer := MentionThreadAgent(body, capsule, member, running, write, world);
          reply := Some(answer);
        case Retry(running, write, world) =>
          var answer := RetryThreadMention(running, write, world);
          reply := Some(answer);
        case Direct(body, senderParses, running, write, world) =>
          var answer := SendAgentMessage(body, senderParses, running, write, world);
          reply := Some(answer);
        case DirectRetry(senderParses, running, write, world) =>
          var answer := RetryAgentMessage(senderParses, running, write, world);
          reply := Some(answer);
        case Crash =>
          Restart();
          reply := None;
      }
    }

    /** Any sequence of messages, retries and restarts, each doing what it must where the one before
        left off: what was sent is orderly, success is told at most once, and from then on the row is
        delivered. */
    method PerformAll(attempts: seq<Attempt>) returns (replies: seq<Option<Reply>>, ghost turns: seq<Turn>)
      requires Valid() && phase.Idle? && (active.Some? ==> session)
               && forall attempt :: attempt in attempts ==> Fits(attempt)
      modifies `active, `session, `stopped, `row, `phase, `owed, `log, `outcomes, `script
      ensures Valid() && phase.Idle? && (active.Some? ==> session)
      ensures Linked(turns, old(Now()), Now(), (conversation, target), expected)
      ensures AttemptsOf(turns) == attempts && RepliesOf(turns) == replies
      ensures row.Some? ==> M.Orderly(log, row.value.capsule)
      ensures multiset(replies)[Some(Answered(M.Succeeded))] <= 1
      ensures Some(Answered(M.Succeeded)) in replies ==> M.IsDelivered(Model())
      ensures old(M.IsDelivered(Model())) ==>
                row == old(row) && log == old(log) && Some(Answered(M.Succeeded)) !in replies
    {
      hide M.Run, M.IsDelivered, Did, Fits;
      replies, turns := [], [];
      for i := 0 to |attempts|
        invariant Valid() && phase.Idle? && (active.Some? ==> session)
        invariant Linked(turns, old(Now()), Now(), (conversation, target), expected)
        invariant AttemptsOf(turns) == attempts[..i] && RepliesOf(turns) == replies
      {
        ghost var before := Now();
        var reply := Perform(attempts[i]);
        ghost var turn := Turn(attempts[i], reply, before, Now());
        OneMoreTurn(turns, turn, old(Now()), (conversation, target), expected);
        turns := turns + [turn];
        replies := replies + [reply];
        assert attempts[..i + 1] == attempts[..i] + [attempts[i]];
      }
      assert attempts[..|attempts|] == attempts;
      Reachable();
      SuccessOnce(turns, old(Now()), Now(), (conversation, target), expected);
    }
  }

  // ---- Sequences of attempts ----

  datatype Attempt =
    | Mention(body: string, capsule: string, member: bool, running: bool, write: M.Write, world: World)
    | Retry(running: bool, write: M.Write, world: World)
    | Direct(body: string, senderParses: bool, running: bool, write: M.Write, world: World)
    | DirectRetry(senderParses: bool, running: bool, write: M.Write, world: World)
    | Crash

  /** The runtime between two attempts. */
  datatype View = View(active: Option<(nat, AgentId)>, session: bool, stopped: bool, delivery: M.Delivery,
                       script: seq<M.Input>)

  datatype Turn = Turn(attempt: Attempt, reply: Option<Reply>, before: View, after: View)

  /** An attempt is refused before anything is touched. */
  predicate Refuses(attempt: Attempt, before: View, place: (nat, AgentId), expected: Option<AgentId>)
    requires !attempt.Crash?
  {
    || before.stopped || !attempt.running || expected != Some(place.1)
    || (attempt.Mention? && (Blank(attempt.body) || Blank(attempt.capsule)
                             || (if before.active.Some? then before.active.value != place else before.session)))
    || (attempt.Retry? && before.active.Some? && before.active.value.1 != place.1)
    || (attempt.Direct? && Blank(attempt.body))
  }

  /** The first thing an attempt does to the row. */
  function FirstWrite(attempt: Attempt): M.Input
    requires !attempt.Crash?
  {
    match attempt
    case Mention(_, _, member, _, write, _) => M.Persist(!member, write)
    case Retry(_, write, _) => M.Claim(write)
    case Direct(_, _, _, write, _) => M.Persist(false, write)
    case DirectRetry(_, _, write, _) => M.Claim(write)
  }

  /** All that an attempt needs to succeed while no other process starts up. */
  predicate Succeeds(attempt: Attempt, before: View, place: (nat, AgentId))
    requires !attempt.Crash?
  {
    var row := before.delivery.row;
    match attempt
    case Mention(_, _, member, _, write, world) =>
      && row.None? && write.Answers? && (before.active.Some? || world.opens)
      && (!member ==> CapsuleGoes(world)) && BodyGoes(world)
    case Retry(_, write, world) =>
      && M.IsFailed(before.delivery) && write.Answers? && BodyGoes(world)
      && (if before.active.Some? then before.active.value.0 == place.0 && world.admitted
          else !before.session && world.opens)
      && (row.value.capsule && !row.value.recorded ==> CapsuleGoes(world))
    case Direct(_, senderParses, _, write, world) =>
      row.None? && write.Answers? && DirectGoes(before.active, before.session, place, senderParses, world)
    case DirectRetry(senderParses, _, write, world) =>
      && M.IsFailed(before.delivery) && write.Answers?
      && DirectGoes(before.active, before.session, place, senderParses, world)
  }

  /** What an attempt must do: a refused one nothing, any other its first write and then the run of
      the machine that ends with the outcome it tells. */
  ghost predicate Did(turn: Turn, place: (nat, AgentId), expected: Option<AgentId>) {
    var before, after := turn.before, turn.after;
    Ran(after) && before.script <= after.script &&
    if turn.attempt.Crash? then
      && turn.reply.None? && after.script == before.script + [M.Restart]
      && after.active.None? && !after.session && !after.stopped
    else
      && turn.reply.Some?
      && (turn.reply == Some(Refused) <==> Refuses(turn.attempt, before, place, expected))
      && match turn.reply.value {
           case Refused => after == before
           case Answered(outcome) =>
             && before.script + [FirstWrite(turn.attempt)] <= after.script
             && after.delivery.outcomes == before.delivery.outcomes + [outcome]
             && (outcome.Succeeded? ==> M.IsDelivered(after.delivery))
             && (!turn.attempt.world.elsewhere ==> (outcome.Succeeded? <==> Succeeds(turn.attempt, before, place)))
         }
  }

  ghost predicate Ran(view: View) {
    M.Run(M.Start(), view.script) == Some(view.delivery)
  }

  /** The turns follow one another from the first view to the last. */
  ghost predicate Linked(turns: seq<Turn>, first: View, last: View, place: (nat, AgentId), expected: Option<AgentId>) {
    if turns == [] then first == last
    else
      var turn := turns[|turns| - 1];
      turn.after == last && Did(turn, place, expected)
      && Linked(turns[..|turns| - 1], first, turn.before, place, expected)
  }

  function AttemptsOf(turns: seq<Turn>): seq<Attempt> {
    if turns == [] then [] else AttemptsOf(turns[..|turns| - 1]) + [turns[|turns| - 1].attempt]
  }

  function RepliesOf(turns: seq<Turn>): seq<Option<Reply>> {
    if turns == [] then [] else RepliesOf(turns[..|turns| - 1]) + [turns[|turns| - 1].reply]
  }

  lemma OneMoreTurn(turns: seq<Turn>, turn: Turn, first: View, place: (nat, AgentId), expected: Option<AgentId>)
    requires Linked(turns, first, turn.before, place, expected) && Did(turn, place, expected)
    ensures Linked(turns + [turn], first, turn.after, place, expected)
    ensures AttemptsOf(turns + [turn]) == AttemptsOf(turns) + [turn.attempt]
    ensures RepliesOf(turns + [turn]) == RepliesOf(turns) + [turn.reply]
  {
    hide Did;
    assert (turns + [turn])[..|turns|] == turns;
  }

  /** Success is told at most once; from then on, or if it was so before, the row is delivered and
      neither it nor what was sent changes. */
  lemma {:induction false} SuccessOnce(turns: seq<Turn>, first: View, last: View, place: (nat, AgentId),
                                       expected: Option<AgentId>)
    requires Linked(turns, first, last, place, expected) && Ran(first)
    ensures Ran(last) && first.script <= last.script
    ensures multiset(RepliesOf(turns))[Some(Answered(M.Succeeded))] <= 1
    ensures Some(Answered(M.Succeeded)) in RepliesOf(turns) ==> M.IsDelivered(last.delivery)
    ensures M.IsDelivered(first.delivery) ==>
              && last.delivery.row == first.delivery.row && last.delivery.log == first.delivery.log
              && Some(Answered(M.Succeeded)) !in RepliesOf(turns)
  {
    hide Ran, Did, M.IsDelivered;
    if turns != [] {
      var turn := turns[|turns| - 1];
      SuccessOnce(turns[..|turns| - 1], first, turn.before, place, expected);
      TurnKeepsDelivered(turn, place, expected);
      if M.IsDelivered(first.delivery) { StaysDelivered(first, turn.before); }
    }
  }

  lemma StaysDelivered(before: View, after: View)
    requires Ran(before) && Ran(after) && before.script <= after.script && M.IsDelivered(before.delivery)
    ensures after.delivery.row == before.delivery.row && after.delivery.log == before.delivery.log
    ensures M.IsDelivered(after.delivery)
  {
    hide M.Run;
    M.DeliveredSince(before.script, after.script);
  }

  lemma TurnKeepsDelivered(turn: Turn, place: (nat, AgentId), expected: Option<AgentId>)
    requires Did(turn, place, expected) && Ran(turn.before)
    ensures Ran(turn.after) && turn.before.script <= turn.after.script
    ensures turn.reply == Some(Answered(M.Succeeded)) ==>
              M.IsDelivered(turn.after.delivery) && !M.IsDelivered(turn.before.delivery)
    ensures M.IsDelivered(turn.before.delivery) ==>
              && M.IsDelivered(turn.after.delivery) && turn.after.delivery.row == turn.before.delivery.row
              && turn.after.delivery.log == turn.before.delivery.log
  {
    hide M.Run, M.IsDelivered, Refuses, Succeeds, FirstWrite;
    if M.IsDelivered(turn.before.delivery) {
      M.DeliveredSince(turn.before.script, turn.after.script);
      LastOfMore(turn.before.delivery.outcomes, M.Succeeded);
    }
  }
}
