/** The durable session table, one method for each statement the session manager uses. Each is told
    whether it works; one that does not changes nothing. */
module SessionStore {
  import opened Domain

  datatype Status = Active | Disconnected | Lost | Closed

  /** What a binding connects: an agent's conversation, or its place in a Room. */
  datatype Scope = Conversation(id: nat) | Room(id: nat)

  datatype Binding = Binding(id: BindingId, scope: Scope, remote: Option<string>, status: Status)

  datatype Recovery = Recovery(source: BindingId, capsuleDelivered: bool)

  /** How far the turn of a Room message has come. */
  datatype Progress = Claimed | Sent | Done(completed: bool)

  /** A Room message claimed for this agent, on the binding its turn runs on. */
  datatype Activation = Activation(binding: BindingId, progress: Progress)

  datatype Error =
    | StorageFailed
    | TransportFailed
    | RemoteSessionLost
    | WrongAgent
    | BindingNotFound
    | MissingRemoteSession
    | Unavailable
    | AlreadyAttached
    | ActivationCancelled

  predicate IsCurrent(status: Status) {
    status == Active || status == Disconnected
  }

  /** The table of bindings: the rows, the newest of every scope, the recovery records of the
      replacements and the next fresh id. */
  datatype Table = Table(rows: map<BindingId, Binding>, latest: map<Scope, BindingId>,
                         recoveries: map<BindingId, Recovery>, nextId: BindingId)

  /** Rows are found under their own id, below the next fresh one; what refers to a row finds it;
      only the newest row of a scope is current. */
  ghost predicate WellFormed(t: Table) {
    && (forall id :: id in t.rows ==> t.rows[id].id == id && id < t.nextId)
    && (forall scope :: scope in t.latest ==> t.latest[scope] in t.rows && t.rows[t.latest[scope]].scope == scope)
    && (forall id :: id in t.recoveries ==> id in t.rows)
    && (forall id :: id in t.rows && IsCurrent(t.rows[id].status) ==> NewestIn(t, id))
  }

  /** The newest generation of its scope. */
  predicate NewestIn(t: Table, id: BindingId) {
    id in t.rows && t.rows[id].scope in t.latest && t.latest[t.rows[id].scope] == id
  }

  function RecoveryIn(t: Table, id: BindingId): Option<Recovery> {
    if id in t.recoveries then Some(t.recoveries[id]) else None
  }

  class Store {
    var rows: map<BindingId, Binding>
    var latest: map<Scope, BindingId>
    var recoveries: map<BindingId, Recovery>
    var activations: map<nat, Activation>
    var nextId: BindingId

    function Now(): Table
      reads `rows, `latest, `recoveries, `nextId
    {
      Table(rows, latest, recoveries, nextId)
    }

    ghost predicate Valid()
      reads this
    {
      && WellFormed(Now())
      && (forall message :: message in activations ==> activations[message].binding in rows)
    }

    predicate IsLatest(id: BindingId)
      reads `rows, `latest, `recoveries, `nextId
    {
      NewestIn(Now(), id)
    }

    /** The latest row of its scope is a replacement that has no remote session yet. */
    ghost predicate Unattached(id: BindingId)
      reads this
    {
      IsLatest(id) && rows[id].remote.None? && rows[id].status == Disconnected && id in recoveries
      && !recoveries[id].capsuleDelivered
    }

    constructor ()
      ensures Valid() && rows == map[] && latest == map[] && recoveries == map[] && activations == map[] && nextId == 0
    {
      rows, latest, recoveries, activations, nextId := map[], map[], map[], map[], 0;
    }

    method GetLatest(scope: Scope, works: bool) returns (r: Result<Option<Binding>, Error>)
      requires Valid()
      ensures r == if !works then Err(StorageFailed)
                   else Ok(if scope in latest then Some(rows[latest[scope]]) else None)
      ensures r.Ok? && r.value.Some? ==>
                && r.value.value.id in rows && rows[r.value.value.id] == r.value.value
                && r.value.value.scope == scope && IsLatest(r.value.value.id)
    {
      r := if !works then Err(StorageFailed)
           else Ok(if scope in latest then Some(rows[latest[scope]]) else None);
    }

    /** A row while it is active or disconnected; no answer means that the scope has none. */
    method GetCurrent(scope: Scope, works: bool) returns (r: Result<Option<Binding>, Error>)
      requires Valid()
      ensures r == if !works then Err(StorageFailed)
                   else Ok(if HasCurrent(scope) then Some(rows[latest[scope]]) else None)
      ensures r.Ok? && r.value.Some? ==>
                && r.value.value.id in rows && rows[r.value.value.id] == r.value.value
                && r.value.value.scope == scope && r.value.value.status in {Active, Disconnected}
      ensures r.Ok? && r.value.None? ==> forall id ::
                id in rows && rows[id].scope == scope ==> rows[id].status in {Lost, Closed}
    {
      if !works {
        return Err(StorageFailed);
      }
      r := Ok(if HasCurrent(scope) then Some(rows[latest[scope]]) else None);
    }

    predicate HasCurrent(scope: Scope)
      reads this
    {
      scope in latest && latest[scope] in rows && IsCurrent(rows[latest[scope]].status)
    }

    method GetRecovery(id: BindingId, works: bool) returns (r: Result<Option<Recovery>, Error>)
      ensures r == if !works then Err(StorageFailed) else Ok(if id in recoveries then Some(recoveries[id]) else None)
    {
      r := if !works then Err(StorageFailed) else Ok(if id in recoveries then Some(recoveries[id]) else None);
    }

    /** The first generation of a scope; refused when the id or the scope has a row already. */
    method Insert(binding: Binding, works: bool) returns (stored: bool)
      requires Valid()
      modifies this
      ensures Valid()
      ensures stored <==> works && binding.id !in old(rows) && binding.scope !in old(latest)
      ensures stored ==>
                && rows == old(rows)[binding.id := binding] && latest == old(latest)[binding.scope := binding.id]
                && nextId == (if old(nextId) <= binding.id then binding.id + 1 else old(nextId))
      ensures !stored ==> rows == old(rows) && latest == old(latest) && nextId == old(nextId)
      ensures recoveries == old(recoveries) && activations == old(activations)
    {
      stored := works && binding.id !in rows && binding.scope !in latest;
      if stored {
        rows := rows[binding.id := binding];
        latest := latest[binding.scope := binding.id];
        nextId := if nextId <= binding.id then binding.id + 1 else nextId;
      }
    }

    /** A closed row stays closed; only the latest row of a scope can become current. */
    method UpdateStatus(id: BindingId, status: Status, works: bool) returns (r: Result<bool, Error>)
      requires Valid()
      modifies this`rows
      ensures Valid()
      ensures r == if !works then Err(StorageFailed) else if id !in old(rows) then Ok(false)
                   else if IsCurrent(status) && !old(IsLatest(id)) then Err(StorageFailed) else Ok(true)
      ensures rows == if r == Ok(true) then WithStatus(old(rows), id, status) else old(rows)
      ensures r == Ok(true) ==>
                id in rows && rows[id].status == if old(rows)[id].status == Closed then Closed else status
    {
      if !works {
        return Err(StorageFailed);
      }
      if id !in rows {
        return Ok(false);
      }
      if IsCurrent(status) && !IsLatest(id) {
        return Err(StorageFailed);
      }
      rows := WithStatus(rows, id, status);
      r := Ok(true);
    }

    method MarkDisconnected(id: BindingId, works: bool) returns (r: Result<bool, Error>)
      requires Valid()
      modifies this`rows
      ensures Valid()
      ensures r == if works then Ok(id in old(rows)) else Err(StorageFailed)
      ensures rows == if works && id in old(rows) && IsCurrent(old(rows)[id].status)
                      then old(rows)[id := old(rows)[id].(status := Disconnected)] else old(rows)
    {
      if !works {
        return Err(StorageFailed);
      }
      r := Ok(id in rows);
      if id in rows && IsCurrent(rows[id].status) {
        rows := rows[id := rows[id].(status := Disconnected)];
      }
    }

    /** The latest row of a scope becomes lost and a fresh, unattached generation with a recovery
        record takes its place, in one transaction. */
    method BeginReplacement(source: BindingId, works: bool) returns (r: Result<Binding, Error>)
      requires Valid()
      modifies this
      ensures Valid() && activations == old(activations)
      ensures r.Ok? <==> works && old(IsLatest(source)) && old(rows)[source].status != Closed
      ensures r.Err? ==> r.error == StorageFailed
      ensures r.Err? ==>
                && rows == old(rows) && recoveries == old(recoveries)
                && latest == old(latest) && nextId == old(nextId)
      ensures r.Ok? ==> Unattached(r.value.id)
      ensures r.Ok? ==>
                && r.value == Binding(old(nextId), old(rows)[source].scope, None, Disconnected)
                && r.value.id !in old(rows) && r.value.id !in old(recoveries)
                && rows == old(rows)[source := old(rows)[source].(status := Lost)][r.value.id := r.value]
                && latest == old(latest)[r.value.scope := r.value.id] && nextId == old(nextId) + 1
                && recoveries == old(recoveries)[r.value.id := Recovery(source, false)]
    {
      if !works || !IsLatest(source) || rows[source].status == Closed {
        return Err(StorageFailed);
      }
      var replacement := Binding(nextId, rows[source].scope, None, Disconnected);
      rows := rows[source := rows[source].(status := Lost)][nextId := replacement];
      latest := latest[replacement.scope := nextId];
      recoveries := recoveries[nextId := Recovery(source, false)];
      nextId := nextId + 1;
      r := Ok(replacement);
    }

    /** A replacement that waits for a remote session, or already has this one. */
    predicate Attachable(id: BindingId, remote: string)
      reads this
    {
      && id in recoveries && id in rows
      && (if rows[id].remote.Some? then rows[id].remote == Some(remote)
          else !recoveries[id].capsuleDelivered && rows[id].status == Disconnected)
    }

    method AttachReplacement(id: BindingId, remote: string, works: bool) returns (stored: bool)
      requires Valid()
      modifies this`rows
      ensures Valid()
      ensures stored <==> works && old(Attachable(id, remote))
      ensures rows == if stored && old(rows)[id].remote.None?
                      then old(rows)[id := old(rows)[id].(remote := Some(remote), status := Active)] else old(rows)
    {
      stored := works && Attachable(id, remote);
      if stored && rows[id].remote.None? {
        rows := rows[id := rows[id].(remote := Some(remote), status := Active)];
      }
    }

    /** Recorded once, and only for an attached and active binding. */
    method MarkCapsuleDelivered(id: BindingId, works: bool) returns (ok: bool)
      requires Valid()
      modifies this`recoveries
      ensures Valid()
      ensures ok <==>
                && works && id in old(recoveries) && id in rows
                && (old(recoveries)[id].capsuleDelivered || (rows[id].remote.Some? && rows[id].status == Active))
      ensures recoveries == if ok then old(recoveries)[id := old(recoveries)[id].(capsuleDelivered := true)]
                            else old(recoveries)
    {
      ok := works && id in recoveries
            && (recoveries[id].capsuleDelivered || (rows[id].remote.Some? && rows[id].status == Active));
      if ok {
        recoveries := recoveries[id := recoveries[id].(capsuleDelivered := true)];
      }
    }

    predicate Busy(id: BindingId)
      reads this
    {
      exists message ::
        message in activations && activations[message].binding == id && !activations[message].progress.Done?
    }

    /** The place of the agent in the Room can take a turn: its newest row is lost or missing, or it
        is open and has no unfinished turn. */
    predicate Claimable(room: nat)
      reads this
    {
      Room(room) in latest && latest[Room(room)] in rows ==>
        var row := rows[latest[Room(room)]];
        row.status != Closed && (row.status != Lost ==> !Busy(row.id))
    }

    /** Claims a Room message for this agent once, with the binding to use: the latest one, or a
        fresh one when there is none or the latest is lost. */
    method ClaimActivation(message: nat, room: nat, works: bool) returns (r: Result<Option<Binding>, Error>)
      requires Valid()
      modifies this
      ensures Valid() && recoveries == old(recoveries)
      ensures r.Ok? <==> works && (message in old(activations) || old(Claimable(room)))
      ensures r.Ok? ==> (r.value.None? <==> message in old(activations))
      ensures r.Ok? && r.value.Some? ==>
                var binding := r.value.value;
                && binding.id in rows && rows[binding.id] == binding
                && binding.scope == Room(room) && IsCurrent(binding.status) && IsLatest(binding.id)
                && activations == old(activations)[message := Activation(binding.id, Claimed)]
                && (if Room(room) in old(latest) && old(rows)[old(latest)[Room(room)]].status != Lost
                    then binding.id == old(latest)[Room(room)] && rows == old(rows) && nextId == old(nextId)
                         && !old(Busy(binding.id))
                    else binding == Binding(old(nextId), Room(room), None, Disconnected)
                         && binding.id !in old(rows) && rows == old(rows)[binding.id := binding])
      ensures r.Err? || r.value.None? ==> activations == old(activations) && rows == old(rows)
    {
      if !works {
        return Err(StorageFailed);
      }
      if message in activations {
        return Ok(None);
      }
      var scope := Room(room);
      if !Claimable(room) {
        return Err(Unavailable);
      }
      if scope in latest && rows[latest[scope]].status != Lost {
        var binding := rows[latest[scope]];
        activations := activations[message := Activation(binding.id, Claimed)];
        return Ok(Some(binding));
      }
      var binding := AddRoomRow(scope);
      activations := activations[message := Activation(binding.id, Claimed)];
      r := Ok(Some(binding));
    }

    /** The progress of an unfinished turn; a finished one stays as it is. */
    method SetActivation(message: nat, progress: Progress, works: bool) returns (ok: bool)
      requires Valid()
      modifies this`activations
      ensures Valid() && ok == works
      ensures activations == if ok && message in old(activations) && !old(activations)[message].progress.Done?
                             then old(activations)[message := old(activations)[message].(progress := progress)]
                             else old(activations)
    {
      ok := works;
      if ok && message in activations && !activations[message].progress.Done? {
        activations := activations[message := activations[message].(progress := progress)];
      }
    }

    /** The newest generation of a Room's scope, which has no current row. */
    method AddRoomRow(scope: Scope) returns (binding: Binding)
      requires Valid() && (scope in latest ==> !IsCurrent(rows[latest[scope]].status))
      modifies this`rows, this`latest, this`nextId
      ensures Valid()
      ensures binding == Binding(old(nextId), scope, None, Disconnected)
      ensures binding.id !in old(rows) && rows == old(rows)[binding.id := binding]
      ensures latest == old(latest)[scope := binding.id]
    {
      binding := Binding(nextId, scope, None, Disconnected);
      rows := rows[nextId := binding];
      latest := latest[scope := nextId];
      nextId := nextId + 1;
    }

    /** A claimed, unsent turn whose remote session is gone moves to a fresh binding. */
    method ReplaceRoomBinding(message: nat, source: BindingId, works: bool) returns (r: Result<Binding, Error>)
      requires Valid()
      modifies this
      ensures Valid() && recoveries == old(recoveries)
      ensures r.Ok? <==>
                && works && old(IsLatest(source)) && old(rows)[source].status != Closed
                && message in old(activations) && old(activations)[message] == Activation(source, Claimed)
      ensures r.Err? ==> r.error == StorageFailed
      ensures r.Err? ==> rows == old(rows) && activations == old(activations)
      ensures r.Ok? ==>
                && r.value.id == old(nextId) && r.value.id !in old(rows) && IsLatest(r.value.id)
                && r.value == Binding(r.value.id, old(rows)[source].scope, None, Disconnected)
                && rows == old(rows)[source := old(rows)[source].(status := Lost)][r.value.id := r.value]
                && activations == old(activations)[message := Activation(r.value.id, Claimed)]
    {
      if !works || !IsLatest(source) || rows[source].status == Closed {
        return Err(StorageFailed);
      }
      if message !in activations || activations[message] != Activation(source, Claimed) {
        return Err(StorageFailed);
      }
      rows := rows[source := rows[source].(status := Lost)];
      var binding := AddRoomRow(rows[source].scope);
      activations := activations[message := Activation(binding.id, Claimed)];
      r := Ok(binding);
    }

    /** Only a current row of a Room is attached. */
    method AttachRoom(id: BindingId, remote: string, works: bool) returns (stored: bool)
      requires Valid()
      modifies this`rows
      ensures Valid()
      ensures stored <==> works && id in old(rows) && old(rows)[id].scope.Room? && IsCurrent(old(rows)[id].status)
      ensures rows == if stored then old(rows)[id := old(rows)[id].(remote := Some(remote), status := Active)]
                      else old(rows)
    {
      stored := works && id in rows && rows[id].scope.Room? && IsCurrent(rows[id].status);
      if stored {
        rows := rows[id := rows[id].(remote := Some(remote), status := Active)];
      }
    }
  }
  function WithStatus(rows: map<BindingId, Binding>, id: BindingId, status: Status): map<BindingId, Binding> {
    if id in rows && rows[id].status != Closed then rows[id := rows[id].(status := status)] else rows
  }
}
