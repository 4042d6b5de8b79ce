/** One agent's sessions: opening with recovery, recovery capsules, Room activation, detaching. What
    storage and transport answer comes with each operation. */
module SessionManagement {
  import opened Domain
  import opened SessionStore
  import opened SessionOpening
  import opened Permissions

  // ---- What is sent ----

  /** A recovery capsule that was recorded as delivered is never sent again. */
  ghost predicate CapsulesOnce(calls: seq<Call>) {
    calls == []
    || var before, call := calls[..|calls| - 1], calls[|calls| - 1];
       CapsulesOnce(before) && (call.SendCapsule? ==> RecordCapsule(call.id) !in before)
  }

  /** The prompt of a Room message is sent at most once. */
  ghost predicate PromptsOnce(calls: seq<Call>) {
    calls == []
    || var before, call := calls[..|calls| - 1], calls[|calls| - 1];
       PromptsOnce(before) && (call.SendPrompt? ==> call !in before)
  }

  lemma OneMoreCall(calls: seq<Call>, call: Call)
    requires CapsulesOnce(calls) && PromptsOnce(calls)
    requires call.SendCapsule? ==> RecordCapsule(call.id) !in calls
    requires call.SendPrompt? ==> call !in calls
    ensures CapsulesOnce(calls + [call]) && PromptsOnce(calls + [call])
  {
    assert (calls + [call])[..|calls|] == calls;
  }

  /** Nothing is sent twice; what was recorded or prompted is so in storage. */
  ghost predicate CallsStand(calls: seq<Call>, recoveries: map<BindingId, Recovery>,
                             activations: map<nat, Activation>)
  {
    && CapsulesOnce(calls) && PromptsOnce(calls)
    && (forall call :: call in calls && call.RecordCapsule? ==>
          call.id in recoveries && recoveries[call.id].capsuleDelivered)
    && (forall call :: call in calls && call.SendPrompt? ==> call.message in activations)
  }

  lemma CallsStandMore(calls: seq<Call>, call: Call, recoveries: map<BindingId, Recovery>,
                       activations: map<nat, Activation>)
    requires CallsStand(calls, recoveries, activations)
    requires call.SendCapsule? ==> !(call.id in recoveries && recoveries[call.id].capsuleDelivered)
    requires call.RecordCapsule? ==> call.id in recoveries && recoveries[call.id].capsuleDelivered
    requires call.SendPrompt? ==> call.message in activations && call !in calls
    ensures CallsStand(calls + [call], recoveries, activations)
  {
    OneMoreCall(calls, call);
    hide CapsulesOnce, PromptsOnce;
  }

  /** Storage only adds records and claims and never takes a delivery back. */
  lemma CallsStillStand(calls: seq<Call>, recoveries: map<BindingId, Recovery>, activations: map<nat, Activation>,
                        recoveries': map<BindingId, Recovery>, activations': map<nat, Activation>)
    requires CallsStand(calls, recoveries, activations)
    requires forall id :: id in recoveries && recoveries[id].capsuleDelivered ==>
               id in recoveries' && recoveries'[id].capsuleDelivered
    requires forall message :: message in activations ==> message in activations'
    ensures CallsStand(calls, recoveries', activations')
  {
    hide CapsulesOnce, PromptsOnce;
  }

  lemma UnclaimedUnprompted(calls: seq<Call>, recoveries: map<BindingId, Recovery>, activations: map<nat, Activation>,
                            message: nat)
    requires CallsStand(calls, recoveries, activations) && message !in activations
    ensures SendPrompt(message) !in calls
  {
    hide CapsulesOnce, PromptsOnce;
  }

  /** Every owned session is stored under its own id. */
  ghost predicate OwnedIn(owned: map<BindingId, SessionRef>, rows: map<BindingId, Binding>) {
    forall id :: id in owned ==> id in rows && owned[id].binding == id
  }

  lemma OwnedStill(owned: map<BindingId, SessionRef>, rows: map<BindingId, Binding>, rows': map<BindingId, Binding>)
    requires OwnedIn(owned, rows) && forall id :: id in rows ==> id in rows'
    ensures OwnedIn(owned, rows')
  {
  }

  lemma OwnedMore(owned: map<BindingId, SessionRef>, rows: map<BindingId, Binding>, session: SessionRef)
    requires OwnedIn(owned, rows) && session.binding in rows
    ensures OwnedIn(owned[session.binding := session], rows)
  {
  }

  lemma OwnedLess(owned: map<BindingId, SessionRef>, rows: map<BindingId, Binding>, id: BindingId)
    requires OwnedIn(owned, rows)
    ensures OwnedIn(owned - {id}, rows)
  {
  }

  /** Nothing recorded is sent again, and no prompt is sent twice, at any two points of a run. */
  lemma {:induction false} NeverResent(calls: seq<Call>, i: nat, j: nat)
    requires CapsulesOnce(calls) && PromptsOnce(calls) && i < j < |calls|
    ensures calls[i].RecordCapsule? ==> calls[j] != SendCapsule(calls[i].id)
    ensures calls[i].SendPrompt? ==> calls[j] != calls[i]
  {
    var before := calls[..|calls| - 1];
    if j < |calls| - 1 {
      NeverResent(before, i, j);
    } else {
      assert calls[i] in before;
    }
  }

  /** What an observer of all the calls relies on. */
  ghost predicate NothingResent(calls: seq<Call>) {
    forall i, j :: 0 <= i < j < |calls| ==>
      && (calls[i].RecordCapsule? ==> calls[j] != SendCapsule(calls[i].id))
      && (calls[i].SendPrompt? ==> calls[j] != calls[i])
  }

  lemma CallsNeverResent(calls: seq<Call>, recoveries: map<BindingId, Recovery>, activations: map<nat, Activation>)
    requires CallsStand(calls, recoveries, activations)
    ensures NothingResent(calls)
  {
    hide CapsulesOnce, PromptsOnce;
    forall i, j | 0 <= i < j < |calls|
      ensures calls[i].RecordCapsule? ==> calls[j] != SendCapsule(calls[i].id)
      ensures calls[i].SendPrompt? ==> calls[j] != calls[i]
    {
      NeverResent(calls, i, j);
    }
  }

  // ---- The answers to an activation of a Room message ----

  /** Each statement and call an activation makes, in order; `lostStored` and `failedStored` answer
      the same two statements wherever an activation fails, the last four only giving it up. */
  datatype RoomAnswers = RoomAnswers(
    claimed: bool, scopeReady: bool, open: TransportAnswer, attached: bool, replaced: bool, reopen: TransportAnswer,
    reattached: bool, validated: bool, sends: bool, sentStored: bool, lostStored: bool, failedStored: bool,
    cancelling: Answers, cancelSent: bool, detaching: Answers, marked: bool)

  /** The binding a claim gives out. */
  function ClaimedBinding(t: Table, room: nat): Binding {
    var scope := Room(room);
    if scope in t.latest && t.latest[scope] in t.rows && t.rows[t.latest[scope]].status != Lost
    then t.rows[t.latest[scope]]
    else Binding(t.nextId, scope, None, Disconnected)
  }

  /** The claim moves to a fresh binding because its session is gone. */
  predicate Moves(claimed: Binding, w: RoomAnswers) {
    w.open.SessionGone? && claimed.remote.Some? && w.replaced
  }

  /** What is opened for a claimed binding: its own session, or one on the binding it moved to. */
  function ClaimedSession(claimed: Binding, next: BindingId, w: RoomAnswers): Option<SessionRef> {
    if w.open.SessionOpen? && w.attached then Some(SessionRef(claimed.id, w.open.remote))
    else if Moves(claimed, w) && w.reopen.SessionOpen? && w.reattached then Some(SessionRef(next, w.reopen.remote))
    else None
  }

  lemma FreshNeverMoves(claimed: Binding, w: RoomAnswers)
    ensures claimed.remote.None? ==>
              forall a, b :: ClaimedSession(claimed, a, w) == ClaimedSession(claimed, b, w)
  {
  }

  function OpeningCall(binding: Binding): Call {
    if binding.remote.Some? then Resume(binding.id) else Create(binding.id)
  }

  /** The prompt goes out and that is recorded. */
  predicate Prompted(alive: bool, w: RoomAnswers) {
    w.validated && alive && w.sends && w.sentStored
  }

  /** How giving the session up goes: the binding stored as lost, the activation as failed, every
      pending request decided by one of the two audits, the row marked as disconnected. */
  ghost function StepsOf(books: Books, session: SessionRef, w: RoomAnswers): Steps {
    Steps(w.lostStored, w.failedStored,
          AllClear(Audited(books, Some(session), w.cancelling), Some(session), w.detaching), w.marked)
  }

  /** The session stays owned if and only if storage refuses to store it as lost, the activation as
      failed or its row as disconnected, or one of its pending requests: decided before, never
      answered, or refused in the first audit and not stored in the second. */
  lemma StaysOwnedIff(books: Books, session: SessionRef, w: RoomAnswers)
    ensures !StepsOf(books, session, w).All() <==>
            || !w.lostStored || !w.failedStored || !w.marked
            || exists key :: key in books.pending && books.pending[key].session == session
                             && (key in books.decisions
                                 || (!w.cancelling.Stores(key)
                                     && !(key in w.cancelling.refused && w.detaching.Stores(key))))
  {
    TwoAudits(books, Some(session), w.cancelling, w.detaching);
  }

  // ---- Disconnecting ----

  /** The current ones of these rows become disconnected; lost and closed rows stay. */
  function WithDisconnected(rows: map<BindingId, Binding>, ids: set<BindingId>): map<BindingId, Binding> {
    map id | id in rows :: if id in ids && IsCurrent(rows[id].status) then rows[id].(status := Disconnected)
                           else rows[id]
  }

  lemma OneMoreDisconnected(rows: map<BindingId, Binding>, ids: set<BindingId>, id: BindingId)
    requires id in rows && id !in ids
    ensures var now := WithDisconnected(rows, ids);
            && WithDisconnected(rows, {}) == rows
            && WithDisconnected(rows, ids + {id})
               == if IsCurrent(now[id].status) then now[id := now[id].(status := Disconnected)] else now
  {
  }

  lemma DisconnectedTwice(rows: map<BindingId, Binding>, ids: set<BindingId>, id: BindingId)
    requires id in rows
    ensures WithDisconnected(WithDisconnected(rows, ids), {id}) == WithDisconnected(rows, ids + {id})
    ensures WithDisconnected(rows, ids).Keys == rows.Keys && WithDisconnected(rows, {}) == rows
  {
  }

  lemma NoneActive(rows: map<BindingId, Binding>, ids: set<BindingId>)
    requires ids <= rows.Keys
    ensures forall id :: id in ids ==>
              id in WithDisconnected(rows, ids) && WithDisconnected(rows, ids)[id].status != Active
  {
  }

  lemma OneLess(all: set<BindingId>, ids: set<BindingId>, refused: set<BindingId>, id: BindingId)
    requires id in ids && ids <= all
    ensures all - (ids - {id}) - refused == if id in refused then all - ids - refused else all - ids - refused + {id}
    ensures (all - (ids - {id})) !! refused <==> (all - ids) !! refused && id !in refused
  {
    assert all - (ids - {id}) == all - ids + {id};
  }

  lemma LostIsStored(rows: map<BindingId, Binding>, id: BindingId)
    requires id in rows
    ensures var after := WithStatus(rows, id, Lost);
            && after.Keys == rows.Keys && after[id].status in {Lost, Closed}
            && WithDisconnected(after, {id}) == after
  {
  }

  lemma OwnedStored(owned: map<BindingId, SessionRef>, rows: map<BindingId, Binding>)
    requires OwnedIn(owned, rows)
    ensures owned.Keys <= rows.Keys
  {
  }

  /** Only an unfinished turn changes. */
  function WithProgress(activations: map<nat, Activation>, message: nat, progress: Progress): map<nat, Activation> {
    if message in activations && !activations[message].progress.Done?
    then activations[message := activations[message].(progress := progress)] else activations
  }

  // ---- Recovery capsules ----

  /** Whether the recovery record is read, the capsule goes out and that is recorded. */
  datatype CapsuleAnswers = CapsuleAnswers(read: bool, sends: bool, recorded: bool)

  predicate Owes(t: Table, id: BindingId) {
    id in t.recoveries && !t.recoveries[id].capsuleDelivered
  }

  predicate Markable(t: Table, id: BindingId) {
    id in t.rows && t.rows[id].remote.Some? && t.rows[id].status == Active
  }

  predicate Settles(t: Table, id: BindingId, w: CapsuleAnswers) {
    w.read && (Owes(t, id) ==> w.sends && w.recorded && Markable(t, id))
  }

  function CapsuleCalls(t: Table, id: BindingId, w: CapsuleAnswers): seq<Call> {
    if w.read && Owes(t, id) then [SendCapsule(id)] + Optional(Settles(t, id, w), RecordCapsule(id)) else []
  }

  class SessionManager {
    const agent: AgentId
    const store: Store
    const desk: PermissionDesk
    var owned: map<BindingId, SessionRef>
    ghost var calls: seq<Call>

    ghost predicate Valid()
      reads this, store
    {
      store.Valid() && OwnedIn(owned, store.rows) && CallsStand(calls, store.recoveries, store.activations)
    }

    constructor (agent: AgentId, store: Store, desk: PermissionDesk)
      requires store.Valid()
      ensures Valid() && owned == map[] && calls == []
      ensures this.agent == agent && this.store == store && this.desk == desk
    {
      this.agent, this.store, this.desk := agent, store, desk;
      owned, calls := map[], [];
    }

    /** The open came out as told: its session is answered and owned, its table stored, its calls made. */
    ghost predicate Did(o: Opened, r: Result<SessionRef, Error>, before: map<BindingId, SessionRef>, made: seq<Call>)
      reads `owned, `calls, store`rows, store`latest, store`recoveries, store`nextId
    {
      && store.Now() == o.table && calls == made + o.calls
      && (match o.session
          case Some(session) => r == Ok(session) && owned == before[session.binding := session]
          case None => r.Err? && owned == before)
    }

    /** The manager makes a call that repeats nothing. */
    ghost method Note(call: Call)
      requires Valid()
      requires call.SendCapsule? ==> Owes(store.Now(), call.id)
      requires call.RecordCapsule? ==> call.id in store.recoveries && store.recoveries[call.id].capsuleDelivered
      requires call.SendPrompt? ==> call.message in store.activations && call !in calls
      modifies this`calls
      ensures Valid() && calls == old(calls) + [call]
    {
      CallsStandMore(calls, call, store.recoveries, store.activations);
      hide CallsStand, OwnedIn, store.Valid;
      calls := calls + [call];
    }

    /** A session that is open and stored becomes owned. */
    method Own(session: SessionRef)
      requires Valid() && session.binding in store.rows
      modifies this`owned
      ensures Valid() && owned == old(owned)[session.binding := session]
    {
      OwnedMore(owned, store.rows, session);
      hide CallsStand, OwnedIn, store.Valid;
      owned := owned[session.binding := session];
    }

    method Disown(id: BindingId)
      requires Valid()
      modifies this`owned
      ensures Valid() && owned == old(owned) - {id}
    {
      OwnedLess(owned, store.rows, id);
      hide CallsStand, OwnedIn, store.Valid;
      owned := owned - {id};
    }

    /** Marks a known row as disconnected. */
    method MarkRow(id: BindingId, works: bool) returns (ok: bool)
      requires Valid() && id in store.rows
      modifies store`rows
      ensures Valid() && ok == works
      ensures store.rows == if ok then WithDisconnected(old(store.rows), {id}) else old(store.rows)
      ensures ok ==> id in store.rows && store.rows[id].status != Active
    {
      OneMoreDisconnected(store.rows, {}, id);
      assert {} + {id} == {id};
      OwnedStill(owned, store.rows, WithDisconnected(store.rows, {id}));
      hide CallsStand, OwnedIn, store.Valid, WithDisconnected;
      var marked := store.MarkDisconnected(id, works);
      ok := marked == Ok(true);
    }

    method SetProgress(message: nat, progress: Progress, works: bool) returns (ok: bool)
      requires Valid()
      modifies store`activations
      ensures Valid() && ok == works
      ensures ok && progress.Done? && message in old(store.activations) ==>
                message in store.activations && store.activations[message].progress.Done?
      ensures store.activations == if ok then WithProgress(old(store.activations), message, progress)
                                   else old(store.activations)
    {
      CallsStillStand(calls, store.recoveries, store.activations, store.recoveries,
                      WithProgress(store.activations, message, progress));
      hide CallsStand, OwnedIn, store.Valid;
      ok := store.SetActivation(message, progress, works);
    }

    // ---- Opening ----

    /** The remote session recorded for a binding, if that is the current row of its scope. */
    method FindResumable(binding: Binding, works: bool) returns (r: Result<string, Error>)
      requires Valid()
      ensures r.Ok? <==> works && Resumable(store.Now(), binding)
      ensures r.Ok? ==> store.rows[binding.id].remote == Some(r.value)
      ensures r.Ok? ==> store.IsLatest(binding.id) && store.rows[binding.id].id == binding.id
      ensures r.Err? ==> r.error != RemoteSessionLost
    {
      hide CallsStand, OwnedIn;
      var found := store.GetCurrent(binding.scope, works);
      if found.Err? {
        return Err(found.error);
      }
      if found.value.None? || found.value.value.id != binding.id {
        return Err(BindingNotFound);
      }
      r := if found.value.value.remote.None? then Err(MissingRemoteSession) else Ok(found.value.value.remote.value);
    }

    /** Stores a status; a row that is not there is an error. */
    method SetStatus(id: BindingId, status: Status, works: bool) returns (ok: bool)
      requires Valid()
      modifies store`rows
      ensures Valid()
      ensures ok <==> works && id in old(store.rows) && (IsCurrent(status) ==> old(store.IsLatest(id)))
      ensures store.rows == if ok then WithStatus(old(store.rows), id, status) else old(store.rows)
    {
      OwnedStill(owned, store.rows, WithStatus(store.rows, id, status));
      hide CallsStand, OwnedIn, store.Valid, WithStatus;
      var updated := store.UpdateStatus(id, status, works);
      ok := updated == Ok(true);
    }

    /** Resumes only a current row, through the remote session recorded for it. Success makes the
        row active, a session that is gone makes it lost, before the answer is given. */
    method ResumeSession(binding: Binding, w: Opening) returns (r: Result<SessionRef, Error>)
      requires Valid()
      modifies this, store`rows
      ensures Valid()
      ensures Did(OpenKnown(old(store.Now()), binding, w), r, old(owned), old(calls))
      ensures r == Err(RemoteSessionLost) <==>
              && w.currentRead && Resumable(old(store.Now()), binding)
              && ResumeSays(old(store.rows)[binding.id], w.(recoveryRead := true), true)
    {
      hide Round, CallsStand, OwnedIn, store.Valid;
      var found := FindResumable(binding, w.currentRead);
      if found.Err? {
        return Err(found.error);
      }
      r := ResumeRemote(binding.id, w.(recoveryRead := true));
    }

    method ResumeRemote(id: BindingId, w: Opening) returns (r: Result<SessionRef, Error>)
      requires Valid() && store.IsLatest(id) && store.rows[id].id == id && Resumes(store.rows[id], w)
      modifies this, store`rows
      ensures Valid()
      ensures Did(Round(old(store.Now()), id, w), r, old(owned), old(calls))
      ensures r == Err(RemoteSessionLost) <==> ResumeSays(old(store.rows)[id], w, true)
    {
      ResumedRound(store.Now(), id, w);
      hide Round, CallsStand, OwnedIn, store.Valid, WithStatus;
      Note(Resume(id));
      if w.resume.TransportError? {
        return Err(TransportFailed);
      }
      var stored := SetStatus(id, if w.resume.SessionGone? then Lost else Active, w.statusStored);
      if !stored {
        return Err(StorageFailed);
      }
      match w.resume {
        case SessionOpen(remote) =>
          StatusKeepsRows(old(store.rows), id, Active);
          r := Ok(SessionRef(id, remote));
          Own(r.value);
        case _ => r := Err(RemoteSessionLost);
      }
    }

    /** A first session: the row is stored only once the remote session exists. */
    method CreateSession(binding: Binding, w: Opening) returns (r: Result<SessionRef, Error>)
      requires Valid()
      modifies this, store
      ensures Valid() && store.activations == old(store.activations)
      ensures Did(OpenFirst(old(store.Now()), binding, w), r, old(owned), old(calls))
    {
      hide CallsStand, OwnedIn, WellFormed;
      Note(Create(binding.id));
      if !w.create.SessionOpen? {
        return Err(if w.create.SessionGone? then RemoteSessionLost else TransportFailed);
      }
      var row := binding.(remote := Some(w.create.remote), status := Active);
      OwnedStill(owned, store.rows, store.rows[row.id := row]);
      var stored := store.Insert(row, w.stored);
      if !stored {
        return Err(StorageFailed);
      }
      r := Ok(SessionRef(binding.id, w.create.remote));
      Own(r.value);
    }

    /** The remote session of a replacement that waits for one. */
    method CreateReplacementSession(binding: Binding, w: Opening) returns (r: Result<SessionRef, Error>)
      requires Valid() && binding.id in store.rows && store.rows[binding.id] == binding
      requires CreatesOwed(binding, RecoveryIn(store.Now(), binding.id), w)
      modifies this, store`rows
      ensures Valid()
      ensures Did(Round(old(store.Now()), binding.id, w), r, old(owned), old(calls))
    {
      CreatedRound(store.Now(), binding.id, w);
      hide Round, CallsStand, OwnedIn, store.Valid;
      Note(Create(binding.id));
      if !w.create.SessionOpen? {
        return Err(if w.create.SessionGone? then RemoteSessionLost else TransportFailed);
      }
      OwnedStill(owned, store.rows,
                 store.rows[binding.id := binding.(remote := Some(w.create.remote), status := Active)]);
      var stored := store.AttachReplacement(binding.id, w.create.remote, w.stored);
      if !stored {
        return Err(StorageFailed);
      }
      r := Ok(SessionRef(binding.id, w.create.remote));
      Own(r.value);
    }

    /** A successor for the latest row of a scope. */
    method BeginReplacement(source: Binding, w: Opening) returns (r: Result<Binding, Error>)
      requires Valid() && store.IsLatest(source.id) && store.rows[source.id].status != Closed
      modifies this`calls, store
      ensures Valid() && store.activations == old(store.activations)
      ensures r.Ok? <==> w.capsuleBuilt && w.replaced
      ensures r.Ok? ==>
                && store.Now() == Replaced(old(store.Now()), source.id)
                && r.value.id == old(store.nextId) && r.value.id in store.rows && store.rows[r.value.id] == r.value
                && store.IsLatest(r.value.id) && calls == old(calls) + [Replace(source.id, r.value.id)]
      ensures r.Err? ==> store.Now() == old(store.Now()) && calls == old(calls)
    {
      if !w.capsuleBuilt {
        return Err(StorageFailed);
      }
      ghost var next := Replaced(store.Now(), source.id);
      OwnedStill(owned, store.rows, next.rows);
      ReplacedRecoveries(store.Now(), source.id);
      CallsStillStand(calls, store.recoveries, store.activations, next.recoveries, store.activations);
      hide CallsStand, OwnedIn;
      r := store.BeginReplacement(source.id, w.replaced);
      if r.Ok? {
        Note(Replace(source.id, r.value.id));
      }
    }

    /** The recovering open, or a plain one. */
    method OpenSession(bindingAgent: AgentId, requested: Binding, recoverMissing: bool, w: Opening)
      returns (r: Result<SessionRef, Error>)
      requires Valid()
      modifies this, store
      ensures Valid() && store.activations == old(store.activations)
      ensures bindingAgent == agent ==>
                Did(OpenRequested(old(store.Now()), requested, recoverMissing, w), r, old(owned), old(calls))
      ensures bindingAgent != agent ==>
                r.Err? && owned == old(owned) && calls == old(calls) && store.Now() == old(store.Now())
    {
      hide OpenKnown, OpenFirst, OpenRow, CallsStand, OwnedIn;
      if bindingAgent != agent {
        return Err(WrongAgent);
      }
      if !recoverMissing {
        if requested.remote.Some? {
          r := ResumeSession(requested, w);
        } else {
          r := CreateSession(requested, w);
        }
        return;
      }
      var latest := store.GetLatest(requested.scope, w.latestRead);
      if latest.Err? {
        return Err(latest.error);
      }
      if latest.value.None? {
        r := CreateSession(requested, w);
        return;
      }
      if latest.value.value.id != requested.id {
        return Err(BindingNotFound);
      }
      r := OpenLatest(latest.value.value, w);
    }

    /** The loop of the recovering open, from the latest row of the scope. */
    method OpenLatest(row: Binding, w: Opening) returns (r: Result<SessionRef, Error>)
      requires Valid() && store.IsLatest(row.id) && store.rows[row.id] == row
      modifies this, store
      ensures Valid() && store.activations == old(store.activations)
      ensures Did(OpenRow(old(store.Now()), row.id, w), r, old(owned), old(calls))
    {
      var binding, answers := row, w;
      ghost var t, before, made, claimed := store.Now(), owned, calls, store.activations;
      ghost var again := false;
      assert calls == calls + [];
      hide Valid, OpenRow, Did, InLoop;
      assert InLoop(t, row, w, before, made, binding, answers, again) by { BeginLoop(row, w); }
      while true
        invariant InLoop(t, row, w, before, made, binding, answers, again) && store.activations == claimed
        decreases !again
      {
        var next;
        r, next := LoopOnce(binding, answers, t, row, w, before, made, again);
        if next.None? {
          return;
        }
        binding, answers, again := next.value, answers.(recoveryRead := answers.recoveryReadAgain), true;
      }
    }

    /** At the first round nothing has happened; at the second the replacement is begun. */
    ghost predicate InLoop(t: Table, row: Binding, w: Opening, before: map<BindingId, SessionRef>, made: seq<Call>,
                           binding: Binding, answers: Opening, again: bool)
      reads this, store
    {
      && Valid() && owned == before && row.id in t.rows && t.rows[row.id] == row
      && store.IsLatest(binding.id) && store.rows[binding.id] == binding
      && (if again then
            && Replaces(row, RecoveryIn(t, row.id), w) && store.Now() == Replaced(t, row.id)
            && binding.id == t.nextId && answers == Again(w)
            && calls == made + (RoundCalls(row, RecoveryIn(t, row.id), w) + [Replace(row.id, t.nextId)])
          else binding == row && answers == w && store.Now() == t && calls == made)
    }

    lemma BeginLoop(row: Binding, w: Opening)
      requires Valid() && store.IsLatest(row.id) && store.rows[row.id] == row
      ensures InLoop(store.Now(), row, w, owned, calls, row, w, false)
    {
    }

    lemma Later(o: Opened, r: Result<SessionRef, Error>, before: map<BindingId, SessionRef>, made: seq<Call>,
                more: seq<Call>)
      requires Did(o, r, before, made + more)
      ensures Did(o.(calls := more + o.calls), r, before, made)
    {
      assert made + more + o.calls == made + (more + o.calls);
    }

    method LoopOnce(binding: Binding, answers: Opening, ghost t: Table, ghost row: Binding, ghost w: Opening,
                    ghost before: map<BindingId, SessionRef>, ghost made: seq<Call>, ghost again: bool)
      returns (r: Result<SessionRef, Error>, next: Option<Binding>)
      requires InLoop(t, row, w, before, made, binding, answers, again)
      modifies this, store
      ensures store.activations == old(store.activations)
      ensures next.None? ==> Valid() && Did(OpenRow(t, row.id, w), r, before, made)
      ensures next.Some? ==> !again && InLoop(t, row, w, before, made, next.value, Again(answers), true)
    {
      OpenRowRounds(t, row.id, w);
      hide Valid, OpenRow, Round, RoundCalls, Replaces, Replaced, RecoveryIn, NewestIn, Did;
      r, next := OpenStep(binding, answers);
      if again {
        ghost var first := RoundCalls(row, RecoveryIn(t, row.id), w) + [Replace(row.id, t.nextId)];
        Later(Round(Replaced(t, row.id), t.nextId, answers), r, before, made, first);
      } else if next.Some? {
        assert made + (RoundCalls(row, RecoveryIn(t, row.id), w) + [Replace(row.id, t.nextId)])
            == made + RoundCalls(row, RecoveryIn(t, row.id), w) + [Replace(row.id, t.nextId)];
      }
    }

    /** One round of the loop: a final answer, or the replacement to go on with. */
    method OpenStep(binding: Binding, w: Opening) returns (r: Result<SessionRef, Error>, next: Option<Binding>)
      requires Valid() && store.IsLatest(binding.id) && store.rows[binding.id] == binding
      modifies this, store
      ensures Valid() && store.activations == old(store.activations)
      ensures next.Some? <==> Replaces(binding, RecoveryIn(old(store.Now()), binding.id), w)
      ensures next.Some? ==>
                && owned == old(owned) && store.Now() == Replaced(old(store.Now()), binding.id)
                && next.value.id == old(store.nextId) && store.IsLatest(next.value.id)
                && store.rows[next.value.id] == next.value
                && calls == old(calls) + RoundCalls(binding, RecoveryIn(old(store.Now()), binding.id), w)
                            + [Replace(binding.id, next.value.id)]
      ensures next.None? ==> Did(Round(old(store.Now()), binding.id, w), r, old(owned), old(calls))
    {
      r, next := Err(Unavailable), None;
      ghost var t := store.Now();
      RoundNothing(t, binding.id, w);
      hide CallsStand, OwnedIn, Round, RoundCalls, Replaced;
      if binding.status == Closed {
        return;
      }
      var goOn := true;
      if binding.status != Lost {
        r, goOn := OpenCurrent(binding, w);
      }
      if goOn {
        ReplacedAnyway(t, store.Now(), binding.id);
        hide Replaces;
        var begun := BeginReplacement(binding, w);
        if begun.Err? {
          r := Err(begun.error);
        } else {
          next := Some(begun.value);
        }
      }
    }

    /** A round on a current row, up to the decision whether to replace it. */
    method OpenCurrent(binding: Binding, w: Opening) returns (r: Result<SessionRef, Error>, goOn: bool)
      requires Valid() && store.IsLatest(binding.id) && store.rows[binding.id] == binding && IsCurrent(binding.status)
      modifies this, store`rows
      ensures Valid()
      ensures Did(Round(old(store.Now()), binding.id, w), r, old(owned), old(calls))
      ensures goOn <==> ResumeSays(binding, w, true)
                        || (w.recoveryRead && binding.remote.None? && binding.id !in old(store.recoveries))
      ensures goOn ==> r.Err? && store.IsLatest(binding.id) && store.rows[binding.id].status != Closed
    {
      r, goOn := Err(Unavailable), false;
      RoundNothing(store.Now(), binding.id, w);
      hide CallsStand, OwnedIn, Round, RoundCalls, store.Valid;
      var recovery := store.GetRecovery(binding.id, w.recoveryRead);
      if recovery.Err? {
        return Err(recovery.error), false;
      }
      if binding.remote.Some? {
        KnownIsRound(store.Now(), binding, w);
        hide OpenKnown;
        r := ResumeSession(binding, w);
        goOn := r == Err(RemoteSessionLost);
      } else if recovery.value.Some? {
        r := CreateReplacementSession(binding, w);
      } else {
        goOn := true;
      }
    }

    /** One attempt to open what is newest in a scope. */
    method OpenScope(scope: Scope, w: Opening) returns (r: Result<SessionRef, Error>)
      requires Valid()
      modifies this, store
      ensures Valid() && store.activations == old(store.activations)
      ensures Did(OpenNewest(old(store.Now()), scope, w), r, old(owned), old(calls))
    {
      hide OpenRow, CallsStand, OwnedIn;
      var latest := store.GetLatest(scope, w.latestRead);
      if latest.Err? { return Err(latest.error); }
      if latest.value.None? { return Err(BindingNotFound); }
      r := OpenLatest(latest.value.value, w);
    }

    /** Opens the newest of a scope again and again until it succeeds or no answers are left: exactly
        the tries from the table at hand, each with the calls it must make. */
    method OpenUntilAttached(scope: Scope, ws: seq<Opening>)
      returns (session: Option<SessionRef>, ghost opens: seq<Opened>)
      requires Valid()
      modifies this, store
      ensures Valid() && opens == Tries(old(store.Now()), scope, ws)
      ensures calls == old(calls) + CallsOf(opens) && Replacements(CallsOf(opens)) <= 1
      ensures opens != [] ==> session == opens[|opens| - 1].session && store.Now() == opens[|opens| - 1].table
      ensures session.None? ==> |opens| == |ws|
      ensures owned == if session.Some? then old(owned)[session.value.binding := session.value] else old(owned)
    {
      session, opens := None, [];
      ghost var t, before, made := store.Now(), owned, calls;
      BeginTrying(scope, ws);
      hide Valid, Trying, Tries, CallsOf, Replacements;
      var i := 0;
      while i < |ws| && session.None?
        invariant 0 <= i <= |ws| && Trying(t, before, made, scope, ws, i, opens, session)
      {
        session, opens := TryMore(scope, ws, i, t, before, made, opens);
        i := i + 1;
      }
      EndTrying(t, before, made, scope, ws, i, opens, session);
    }

    /** After the first `i` tries. */
    ghost predicate Trying(t: Table, before: map<BindingId, SessionRef>, made: seq<Call>, scope: Scope,
                           ws: seq<Opening>, i: nat, opens: seq<Opened>, session: Option<SessionRef>)
      reads this, store
    {
      && Valid() && WellFormed(t) && i <= |ws| && TriedSoFar(t, scope, ws, i, opens, session, store.Now())
      && calls == made + CallsOf(opens)
      && owned == if session.Some? then before[session.value.binding := session.value] else before
    }

    lemma BeginTrying(scope: Scope, ws: seq<Opening>)
      requires Valid()
      ensures Trying(store.Now(), owned, calls, scope, ws, 0, [], None)
    {
      NoOpens(store.Now(), scope, ws);
      hide Tries;
      assert calls + [] == calls;
    }

    lemma EndTrying(t: Table, before: map<BindingId, SessionRef>, made: seq<Call>, scope: Scope, ws: seq<Opening>,
                    i: nat, opens: seq<Opened>, session: Option<SessionRef>)
      requires Trying(t, before, made, scope, ws, i, opens, session) && (session.Some? || i == |ws|)
      ensures Valid() && opens == Tries(t, scope, ws)
      ensures calls == made + CallsOf(opens) && Replacements(CallsOf(opens)) <= 1
      ensures opens != [] ==> session == opens[|opens| - 1].session && store.Now() == opens[|opens| - 1].table
      ensures session.None? ==> |opens| == |ws|
      ensures owned == if session.Some? then before[session.value.binding := session.value] else before
    {
      hide Valid, TriedSoFar, Tries, CallsOf, Replacements;
      NoMoreTries(t, scope, ws, i, opens, session, store.Now());
      AtMostOneReplacement(t, scope, ws);
    }

    method TryMore(scope: Scope, ws: seq<Opening>, i: nat, ghost t: Table, ghost before: map<BindingId, SessionRef>,
                   ghost made: seq<Call>, ghost opens: seq<Opened>)
      returns (session: Option<SessionRef>, ghost more: seq<Opened>)
      requires i < |ws| && Trying(t, before, made, scope, ws, i, opens, None)
      modifies this, store
      ensures Trying(t, before, made, scope, ws, i + 1, more, session)
    {
      hide Valid, TriedSoFar, Tries, CallsOf, OpenNewest, WellFormed;
      ghost var now := store.Now();
      ghost var o;
      OneMoreTry(t, scope, ws, i, opens, now);
      session, o := TryOnce(scope, ws[i]);
      OneMoreOpened(opens, o);
      more := opens + [o];
      assert made + CallsOf(opens) + o.calls == made + (CallsOf(opens) + o.calls);
    }

    method TryOnce(scope: Scope, w: Opening) returns (session: Option<SessionRef>, ghost o: Opened)
      requires Valid()
      modifies this, store
      ensures Valid() && o == OpenNewest(old(store.Now()), scope, w)
      ensures session == o.session && store.Now() == o.table && calls == old(calls) + o.calls
      ensures owned == if session.Some? then old(owned)[session.value.binding := session.value] else old(owned)
    {
      hide Valid, OpenNewest;
      o := OpenNewest(store.Now(), scope, w);
      var opening := OpenScope(scope, w);
      session := if opening.Ok? then Some(opening.value) else None;
    }

    // ---- Capsules, turns, detaching ----

    /** Sends the recovery capsule of a session unless it is recorded as delivered already. */
    method DeliverRecoveryCapsule(session: SessionRef, w: CapsuleAnswers) returns (ok: bool)
      requires Valid()
      modifies this`calls, store`recoveries
      ensures Valid()
      ensures ok <==> Settles(old(store.Now()), session.binding, w)
      ensures var id := session.binding;
              var owed := id in old(store.recoveries) && !old(store.recoveries)[id].capsuleDelivered;
              var attached := id in store.rows && store.rows[id].remote.Some? && store.rows[id].status == Active;
              && (ok <==> w.read && (owed ==> w.sends && w.recorded && attached))
              && calls == old(calls) + (if w.read && owed then [SendCapsule(id)] else [])
                          + (if w.read && owed && ok then [RecordCapsule(id)] else [])
              && (owed && ok ==> id in store.recoveries && store.recoveries[id].capsuleDelivered)
      ensures var id, t := session.binding, old(store.Now());
              && calls == old(calls) + CapsuleCalls(t, id, w)
              && store.recoveries == if Owes(t, id) && Settles(t, id, w)
                                     then t.recoveries[id := t.recoveries[id].(capsuleDelivered := true)]
                                     else t.recoveries
    {
      hide CallsStand, OwnedIn, store.Valid;
      var recovery := store.GetRecovery(session.binding, w.read);
      if recovery.Err? {
        return false;
      }
      if recovery.value.None? || recovery.value.value.capsuleDelivered {
        return true;
      }
      Note(SendCapsule(session.binding));
      ok := w.sends;
      if ok {
        ok := RecordDelivered(session.binding, w.recorded);
      }
    }

    method RecordDelivered(id: BindingId, works: bool) returns (ok: bool)
      requires Valid() && Owes(store.Now(), id)
      modifies this`calls, store`recoveries
      ensures Valid()
      ensures ok <==> works && Markable(old(store.Now()), id)
      ensures calls == old(calls) + Optional(ok, RecordCapsule(id))
      ensures store.recoveries ==
              if ok then old(store.recoveries)[id := old(store.recoveries)[id].(capsuleDelivered := true)]
              else old(store.recoveries)
    {
      CallsStillStand(calls, store.recoveries, store.activations,
                      store.recoveries[id := store.recoveries[id].(capsuleDelivered := true)], store.activations);
      hide CallsStand, OwnedIn, store.Valid;
      ok := store.MarkCapsuleDelivered(id, works);
      if ok { Note(RecordCapsule(id)); }
    }

    predicate Owns(session: SessionRef)
      reads `owned
    {
      session.binding in owned && owned[session.binding] == session
    }

    /** Decides the pending permissions of a turn and asks the transport to stop it, whatever the
        first part answers. */
    method CancelTurn(session: SessionRef, answers: Answers, sends: bool) returns (ok: bool)
      requires desk.Valid()
      modifies desk
      ensures desk.Valid() && desk.Now() == Audited(old(desk.Now()), Some(session), answers)
      ensures ok <==> sends && AllClear(old(desk.Now()), Some(session), answers)
    {
      ok := desk.AuditCancelled(Some(session), answers);
      ok := ok && sends;
    }

    /** Gives a session up: its pending permissions are decided first, then its row is marked. */
    method DetachSession(session: SessionRef, answers: Answers, marks: bool) returns (ok: bool)
      requires Valid() && desk.Valid()
      modifies this`owned, store`rows, desk
      ensures Valid() && desk.Valid()
      ensures ok <==> old(Owns(session)) && AllClear(old(desk.Now()), Some(session), answers) && marks
      ensures owned == if ok then old(owned) - {session.binding} else old(owned)
      ensures store.rows == if ok then WithDisconnected(old(store.rows), {session.binding}) else old(store.rows)
      ensures ok ==> session.binding in store.rows && store.rows[session.binding].status != Active
      ensures desk.Now() == if old(Owns(session)) then Audited(old(desk.Now()), Some(session), answers)
                            else old(desk.Now())
    {
      OwnedStored(owned, store.rows);
      hide Valid, AllClear, Audited, WithDisconnected;
      if !Owns(session) {
        return false;
      }
      ok := desk.AuditCancelled(Some(session), answers);
      if ok {
        ok := MarkRow(session.binding, marks);
        if ok {
          Disown(session.binding);
        }
      }
    }

    /** Ownership goes first, whatever storage then says; both parts are tried. */
    method AbortSessionRecovery(session: SessionRef, answers: Answers, marks: bool) returns (ok: bool)
      requires Valid() && desk.Valid()
      modifies this`owned, store`rows, desk
      ensures Valid() && desk.Valid()
      ensures owned == if old(Owns(session)) then old(owned) - {session.binding} else old(owned)
      ensures ok <==> old(Owns(session)) && AllClear(old(desk.Now()), Some(session), answers) && marks
      ensures desk.Now() == if old(Owns(session)) then Audited(old(desk.Now()), Some(session), answers)
                            else old(desk.Now())
      ensures store.rows == if old(Owns(session)) && marks then WithDisconnected(old(store.rows), {session.binding})
                            else old(store.rows)
      ensures old(Owns(session)) && marks ==>
                session.binding in store.rows && store.rows[session.binding].status != Active
    {
      OwnedStored(owned, store.rows);
      hide Valid, AllClear, Audited, WithDisconnected;
      if !Owns(session) {
        return false;
      }
      Disown(session.binding);
      var audited := desk.AuditCancelled(Some(session), answers);
      var marked := MarkRow(session.binding, marks);
      ok := audited && marked;
    }

    /** Marks every owned row as disconnected. One that cannot be marked stays as it is, and the
        others are still tried. */
    method DisconnectOwned(unmarked: set<BindingId>) returns (ok: bool)
      requires Valid()
      modifies store`rows
      ensures Valid()
      ensures ok <==> owned.Keys !! unmarked
      ensures store.rows == WithDisconnected(old(store.rows), owned.Keys - unmarked)
      ensures forall id :: id in owned && id !in unmarked ==> id in store.rows && store.rows[id].status != Active
    {
      ok := true;
      var ids := owned.Keys;
      ghost var marked: set<BindingId> := {};
      hide Valid, MarkedSoFar;
      assert MarkedSoFar(store.rows, ids, {}, unmarked, true) by { NothingMarked(ids, unmarked); }
      while ids != {}
        invariant MarkedSoFar(old(store.rows), ids, marked, unmarked, ok)
      {
        ok, ids, marked := MarkNext(old(store.rows), ids, marked, unmarked, ok);
      }
      AllMarked(old(store.rows), marked, unmarked, ok);
    }

    /** The owned rows outside `ids` were tried, and those not refused are marked. */
    ghost predicate MarkedSoFar(rows: map<BindingId, Binding>, ids: set<BindingId>, marked: set<BindingId>,
                                unmarked: set<BindingId>, ok: bool)
      reads this, store
    {
      && Valid() && ids <= owned.Keys && marked == owned.Keys - ids - unmarked
      && (ok <==> (owned.Keys - ids) !! unmarked)
      && store.rows == WithDisconnected(rows, marked) && owned.Keys <= rows.Keys
    }

    lemma NothingMarked(ids: set<BindingId>, unmarked: set<BindingId>)
      requires Valid() && ids == owned.Keys
      ensures MarkedSoFar(store.rows, ids, {}, unmarked, true)
    {
      OwnedStored(owned, store.rows);
      hide CallsStand, OwnedIn, WellFormed;
      assert WithDisconnected(store.rows, {}) == store.rows;
    }

    lemma AllMarked(rows: map<BindingId, Binding>, marked: set<BindingId>, unmarked: set<BindingId>, ok: bool)
      requires MarkedSoFar(rows, {}, marked, unmarked, ok)
      ensures Valid() && (ok <==> owned.Keys !! unmarked)
      ensures store.rows == WithDisconnected(rows, owned.Keys - unmarked)
      ensures forall id :: id in owned && id !in unmarked ==> id in store.rows && store.rows[id].status != Active
    {
      hide Valid, WithDisconnected;
      NoneActive(rows, owned.Keys - unmarked);
      assert owned.Keys - {} == owned.Keys;
    }

    method MarkNext(ghost rows: map<BindingId, Binding>, ids: set<BindingId>, ghost marked: set<BindingId>,
                    unmarked: set<BindingId>, ok: bool)
      returns (ok': bool, ids': set<BindingId>, ghost marked': set<BindingId>)
      requires MarkedSoFar(rows, ids, marked, unmarked, ok) && ids != {}
      modifies store`rows
      ensures MarkedSoFar(rows, ids', marked', unmarked, ok') && ids' < ids
    {
      var id :| id in ids;
      ids' := ids - {id};
      DisconnectedTwice(rows, marked, id);
      OneLess(owned.Keys, ids, unmarked, id);
      hide Valid, WithDisconnected;
      var answer := MarkRow(id, id !in unmarked);
      ok' := ok && answer;
      marked' := if answer then marked + {id} else marked;
    }

    /** The bookkeeping for a disconnect of this agent: every pending permission is decided as
        cancelled and every owned row marked, each of them tried whatever the others answer. */
    method NoteDisconnect(answers: Answers, unmarked: set<BindingId>) returns (ok: bool)
      requires Valid() && desk.Valid()
      modifies store`rows, desk
      ensures Valid() && desk.Valid()
      ensures desk.Now() == Audited(old(desk.Now()), None, answers)
      ensures store.rows == WithDisconnected(old(store.rows), owned.Keys - unmarked)
      ensures ok <==> AllClear(old(desk.Now()), None, answers) && owned.Keys !! unmarked
      ensures ok ==> desk.pending == map[]
      ensures forall id :: id in owned && id !in unmarked ==> id in store.rows && store.rows[id].status != Active
    {
      var audited := desk.AuditCancelled(None, answers);
      var marked := DisconnectOwned(unmarked);
      ok := audited && marked;
    }

    // ---- Room activations ----

    /** The remote session of a claimed binding: resumed if it has one, else created. It is owned
        once the row is attached to it. */
    method OpenRoomSession(binding: Binding, answer: TransportAnswer, attaches: bool)
      returns (r: Result<SessionRef, Error>)
      requires Valid() && binding.id in store.rows && store.rows[binding.id].scope.Room?
      requires IsCurrent(store.rows[binding.id].status)
      modifies this, store`rows
      ensures Valid() && calls == old(calls) + [OpeningCall(binding)]
      ensures calls == old(calls) + [if binding.remote.Some? then Resume(binding.id) else Create(binding.id)]
      ensures r == match answer {
                     case SessionOpen(remote) =>
                       if attaches then Ok(SessionRef(binding.id, remote)) else Err(StorageFailed)
                     case SessionGone => Err(RemoteSessionLost)
                     case TransportError => Err(TransportFailed)
                   }
      ensures owned == if r.Ok? then old(owned)[binding.id := r.value] else old(owned)
      ensures var row := old(store.rows)[binding.id];
              store.rows ==
              if r.Ok? then old(store.rows)[binding.id := row.(remote := Some(r.value.remote), status := Active)]
              else old(store.rows)
    {
      Note(OpeningCall(binding));
      hide CallsStand, OwnedIn;
      if !answer.SessionOpen? {
        return Err(if answer.SessionGone? then RemoteSessionLost else TransportFailed);
      }
      var stored := store.AttachRoom(binding.id, answer.remote, attaches);
      if !stored {
        return Err(StorageFailed);
      }
      r := Ok(SessionRef(binding.id, answer.remote));
      owned := owned[binding.id := r.value];
    }

    /** The message is claimed on the newest, current binding of its Room. */
    ghost predicate Claims(message: nat, claimed: Binding)
      reads store
    {
      && store.IsLatest(claimed.id) && store.rows[claimed.id] == claimed
      && claimed.scope.Room? && IsCurrent(claimed.status)
      && message in store.activations && store.activations[message] == Activation(claimed.id, Claimed)
    }

    /** The claim moves to a fresh binding of the same Room. */
    method MoveClaim(message: nat, claimed: Binding, works: bool) returns (moved: Option<Binding>)
      requires Valid() && Claims(message, claimed)
      modifies store
      ensures Valid() && (moved.Some? <==> works)
      ensures moved.Some? ==>
                && Claims(message, moved.value) && moved.value.id == old(store.nextId)
                && moved.value.id !in old(store.rows) && moved.value.remote.None?
                && claimed.id in store.rows && store.rows[claimed.id].status == Lost
                && store.activations == old(store.activations)[message := Activation(moved.value.id, Claimed)]
      ensures moved.None? ==> store.rows == old(store.rows) && store.activations == old(store.activations)
    {
      ghost var owned', calls' := owned, calls;
      ghost var rows, recoveries, activations := store.rows, store.recoveries, store.activations;
      hide CallsStand, OwnedIn;
      var replacement := store.ReplaceRoomBinding(message, claimed.id, works);
      OwnedStill(owned', rows, store.rows);
      CallsStillStand(calls', recoveries, activations, store.recoveries, store.activations);
      moved := if replacement.Ok? then Some(replacement.value) else None;
    }

    /** A claimed Room message is opened on its binding. It moves to a fresh binding exactly when a
        resumed session is gone and storage agrees; then that one is created. */
    method OpenClaimed(message: nat, claimed: Binding, w: RoomAnswers)
      returns (r: Result<SessionRef, Error>, used: BindingId)
      requires Valid() && Claims(message, claimed) && claimed.id !in owned
      modifies this, store
      ensures Valid() && used in store.rows
      ensures used == if Moves(claimed, w) then old(store.nextId) else claimed.id
      ensures match ClaimedSession(claimed, old(store.nextId), w) {
                case Some(session) => r == Ok(session) && owned == old(owned)[session.binding := session]
                case None => r.Err? && owned == old(owned)
              }
      ensures r.Ok? ==> r.value.binding == used && used !in old(owned)
      ensures r.Ok? ==> store.rows[used].remote == Some(r.value.remote) && store.rows[used].status == Active
      ensures Moves(claimed, w) ==> claimed.id in store.rows && store.rows[claimed.id].status == Lost
      ensures calls == old(calls) + [OpeningCall(claimed)] + Optional(Moves(claimed, w), Create(used))
      ensures store.activations == old(store.activations)[message := Activation(used, Claimed)]
    {
      assert store.activations[message := Activation(claimed.id, Claimed)] == store.activations;
      hide Valid;
      used := claimed.id;
      r := OpenRoomSession(claimed, w.open, w.attached);
      if r == Err(RemoteSessionLost) && claimed.remote.Some? {
        r, used := OpenMoved(message, claimed, w);
      }
    }

    /** The session of a claimed binding is gone: the claim moves, if storage agrees, and a session is
        created for the binding it moved to. */
    method OpenMoved(message: nat, claimed: Binding, w: RoomAnswers)
      returns (r: Result<SessionRef, Error>, used: BindingId)
      requires Valid() && Claims(message, claimed) && claimed.id !in owned
      modifies this, store
      ensures Valid() && used in store.rows && used == if w.replaced then old(store.nextId) else claimed.id
      ensures if w.replaced && w.reopen.SessionOpen? && w.reattached then
                && r == Ok(SessionRef(used, w.reopen.remote))
                && owned == old(owned)[used := r.value] && used !in old(owned)
                && store.rows[used].remote == Some(r.value.remote) && store.rows[used].status == Active
              else r.Err? && owned == old(owned)
      ensures w.replaced ==> claimed.id in store.rows && store.rows[claimed.id].status == Lost
      ensures calls == old(calls) + Optional(w.replaced, Create(used))
      ensures store.activations == old(store.activations)[message := Activation(used, Claimed)]
    {
      OwnedStored(owned, store.rows);
      assert store.activations[message := Activation(claimed.id, Claimed)] == store.activations;
      hide Valid;
      used := claimed.id;
      var moved := MoveClaim(message, claimed, w.replaced);
      if moved.None? {
        return Err(StorageFailed), claimed.id;
      }
      used := moved.value.id;
      r := OpenRoomSession(moved.value, w.reopen, w.reattached);
    }

    /** Opens the claimed message; a failure makes its binding lost and the activation failed. */
    method OpenOrMarkLost(message: nat, claimed: Binding, w: RoomAnswers) returns (r: Result<SessionRef, Error>)
      requires Valid() && Claims(message, claimed) && claimed.id !in owned
      modifies this, store
      ensures Valid()
      ensures old(calls) <= calls && forall call :: call in calls && call.SendPrompt? ==> call in old(calls)
      ensures match ClaimedSession(claimed, old(store.nextId), w) {
                case Some(session) => r == Ok(session) && owned == old(owned)[session.binding := session]
                case None => r.Err? && owned == old(owned)
              }
      ensures r.Ok? ==> r.value.binding !in old(owned)
      ensures var used := if Moves(claimed, w) then old(store.nextId) else claimed.id;
              && used in store.rows && (r.Ok? ==> r.value.binding == used)
              && store.activations ==
                 old(store.activations)[message := Activation(used, if r.Err? && w.lostStored && w.failedStored
                                                                    then Done(false) else Claimed)]
              && (r.Err? && w.lostStored ==> store.rows[used].status in {Lost, Closed})
    {
      hide Valid, ClaimedSession;
      var used;
      r, used := OpenClaimed(message, claimed, w);
      if r.Err? {
        var lost := SetStatus(used, Lost, w.lostStored);
        if !lost { return Err(StorageFailed); }
        var failed := SetProgress(message, Done(false), w.failedStored);
        if !failed { return Err(StorageFailed); }
      }
    }

    /** Sends the prompt of a freshly claimed message, unless the activation was given up meanwhile. */
    method SendRoomPrompt(message: nat, alive: bool, w: RoomAnswers) returns (ok: bool)
      requires Valid() && message in store.activations && SendPrompt(message) !in calls
      requires store.activations[message].progress == Claimed
      modifies this`calls, store`activations
      ensures Valid() && ok == Prompted(alive, w)
      ensures ok <==> w.validated && alive && w.sends && w.sentStored
      ensures calls == old(calls) + Optional(w.validated && alive, SendPrompt(message))
      ensures store.activations ==
              if ok then old(store.activations)[message := old(store.activations)[message].(progress := Sent)]
              else old(store.activations)
    {
      if !w.validated || !alive {
        return false;
      }
      Note(SendPrompt(message));
      hide CallsStand, OwnedIn;
      if !w.sends {
        return false;
      }
      ok := SetProgress(message, Sent, w.sentStored);
    }

    /** The session an activation of this message opens, unless something stands in its way: it was
        claimed before, its Room cannot be claimed, its binding is owned, or the answers say no. */
    ghost function RoomSession(message: nat, room: nat, w: RoomAnswers): Option<SessionRef>
      reads this`owned, store
    {
      var claimed := ClaimedBinding(store.Now(), room);
      if w.claimed && message !in store.activations && store.Claimable(room)
         && claimed.id !in owned && w.scopeReady
      then ClaimedSession(claimed, store.nextId, w)
      else None
    }

    /** Exactly when an activation opens a session, and which: the message is new, the newest row of
        its Room is missing, lost, or open and free, and not owned; a session that opens is attached
        to it; one that is gone moves to a fresh binding. */
    lemma RoomOpens(message: nat, room: nat, w: RoomAnswers)
      requires Valid()
      ensures var known := Room(room) in store.latest && store.rows[store.latest[Room(room)]].status != Lost;
              var id := if known then store.latest[Room(room)] else store.nextId;
              var busy := exists other ::
                other in store.activations && store.activations[other].binding == id
                && !store.activations[other].progress.Done?;
              RoomSession(message, room, w) ==
              if !w.claimed || message in store.activations || id in owned || !w.scopeReady then None
              else if known && (store.rows[id].status == Closed || busy) then None
              else if w.open.SessionOpen? && w.attached then Some(SessionRef(id, w.open.remote))
              else if known && w.open.SessionGone? && store.rows[id].remote.Some? && w.replaced
                      && w.reopen.SessionOpen? && w.reattached
              then Some(SessionRef(store.nextId, w.reopen.remote))
              else None
    {
      hide CallsStand, OwnedIn;
    }

    /** Claims the message on the newest binding of its Room, or on a fresh one. */
    method ClaimRoom(message: nat, room: nat, works: bool) returns (r: Result<Option<Binding>, Error>)
      requires Valid()
      modifies store
      ensures Valid()
      ensures r == Ok(None) <==> works && message in old(store.activations)
      ensures r.Ok? && r.value.Some? <==> works && message !in old(store.activations) && old(store.Claimable(room))
      ensures r.Ok? && r.value.Some? ==>
                && r.value.value == ClaimedBinding(old(store.Now()), room) && Claims(message, r.value.value)
                && SendPrompt(message) !in calls
                && (r.value.value.remote.Some? ==> store.nextId == old(store.nextId))
    {
      ghost var owned', calls' := owned, calls;
      ghost var rows, recoveries, activations := store.rows, store.recoveries, store.activations;
      if message !in activations { UnclaimedUnprompted(calls, recoveries, activations, message); }
      hide CallsStand, OwnedIn, store.Busy;
      r := store.ClaimActivation(message, room, works);
      OwnedStill(owned', rows, store.rows);
      CallsStillStand(calls', recoveries, activations, store.recoveries, store.activations);
    }

    /** Activates a Room message at most once. A failed send may have been accepted, so it is never
        retried; the session is given up then. */
    method ActivateRoomMessage(message: nat, room: nat, alive: bool, w: RoomAnswers)
      returns (r: Result<Option<SessionRef>, Error>)
      requires Valid() && desk.Valid()
      modifies this, store, desk
      ensures Valid() && desk.Valid() && old(calls) <= calls
      ensures SendPrompt(message) in calls && SendPrompt(message) !in old(calls) ==>
                alive && message !in old(store.activations)
      ensures r == Ok(None) <==> w.claimed && message in old(store.activations)
      ensures r == Ok(None) ==> calls == old(calls)
      ensures CameOut(old(RoomSession(message, room, w)), message, alive, w, old(owned), old(desk.Now()), r)
    {
      FreshNeverMoves(ClaimedBinding(store.Now(), room), w);
      hide Valid, ClaimedSession, Claims, CameOut;
      var claim := ClaimRoom(message, room, w.claimed);
      if claim.Err? {
        r := Err(claim.error);
        NothingOpened(message, alive, w, r);
        return;
      }
      if claim.value.None? {
        r := Ok(None);
        NothingOpened(message, alive, w, r);
        return;
      }
      r := ActivateClaimed(claim.value.value, message, alive, w);
    }

    /** Without a session nothing is owned or decided; one that was opened is answered if its prompt
        went out, and else stays owned exactly when a step of giving it up is refused. */
    ghost predicate CameOut(opening: Option<SessionRef>, message: nat, alive: bool, w: RoomAnswers,
                            before: map<BindingId, SessionRef>, books: Books, r: Result<Option<SessionRef>, Error>)
      reads `owned, `calls, store`activations, desk
    {
      match opening
      case None => !(r.Ok? && r.value.Some?) && owned == before && desk.Now() == books
      case Some(session) =>
        && session.binding !in before
        && (if w.validated && alive && w.sends && w.sentStored then
              && r == Ok(Some(session)) && owned == before[session.binding := session]
              && SendPrompt(message) in calls && desk.Now() == books
              && message in store.activations && store.activations[message] == Activation(session.binding, Sent)
            else
              && r.Err?
              && owned == if StepsOf(books, session, w).All() then before else before[session.binding := session])
    }

    lemma NothingOpened(message: nat, alive: bool, w: RoomAnswers, r: Result<Option<SessionRef>, Error>)
      requires r.Err? || r.value.None?
      ensures CameOut(None, message, alive, w, owned, desk.Now(), r)
    {
    }

    method ActivateClaimed(claimed: Binding, message: nat, alive: bool, w: RoomAnswers)
      returns (r: Result<Option<SessionRef>, Error>)
      requires Valid() && desk.Valid() && Claims(message, claimed) && SendPrompt(message) !in calls
      modifies this, store, desk
      ensures Valid() && desk.Valid() && old(calls) <= calls && r != Ok(None)
      ensures SendPrompt(message) in calls ==> alive
      ensures var opening := if claimed.id in old(owned) || !w.scopeReady then None
                             else ClaimedSession(claimed, old(store.nextId), w);
              CameOut(opening, message, alive, w, old(owned), old(desk.Now()), r)
    {
      hide Valid, ClaimedSession, StepsOf;
      if claimed.id in owned || !w.scopeReady {
        var failed := SetProgress(message, Done(false), w.failedStored);
        r := Err(if !failed then StorageFailed else if w.scopeReady then AlreadyAttached else Unavailable);
        return;
      }
      ghost var before := owned;
      var session := OpenOrMarkLost(message, claimed, w);
      if session.Err? {
        return Err(session.error);
      }
      assert owned - {session.value.binding} == before;
      r := PromptOrGiveUp(session.value, message, alive, w);
    }

    /** The second half of an activation, once its session is open. */
    method PromptOrGiveUp(session: SessionRef, message: nat, alive: bool, w: RoomAnswers)
      returns (r: Result<Option<SessionRef>, Error>)
      requires Valid() && desk.Valid() && Owns(session)
      requires message in store.activations && SendPrompt(message) !in calls
      requires store.activations[message] == Activation(session.binding, Claimed)
      modifies this, store`rows, store`activations, desk
      ensures Valid() && desk.Valid()
      ensures calls == old(calls) + Optional(w.validated && alive, SendPrompt(message))
      ensures if Prompted(alive, w) then
                && r == Ok(Some(session)) && owned == old(owned) && desk.Now() == old(desk.Now())
                && store.activations == old(store.activations)[message := Activation(session.binding, Sent)]
              else
                && r.Err?
                && owned == if StepsOf(old(desk.Now()), session, w).All() then old(owned) - {session.binding}
                            else old(owned)
    {
      hide CallsStand, OwnedIn, store.Valid, StepsOf;
      var sent := SendRoomPrompt(message, alive, w);
      if sent {
        return Ok(Some(session));
      }
      var given := GiveUp(session, message, w);
      r := Err(if given then ActivationCancelled else StorageFailed);
    }

    /** Cancels, quarantines and detaches after a failed send. The session stays owned exactly when
        storage refuses one of the four steps. */
    method GiveUp(session: SessionRef, message: nat, w: RoomAnswers) returns (ok: bool)
      requires Valid() && desk.Valid() && Owns(session)
      modifies this`owned, store`rows, store`activations, desk
      ensures Valid() && desk.Valid()
      ensures ok <==> StepsOf(old(desk.Now()), session, w).All()
      ensures Owns(session) <==> !ok
      ensures owned == if ok then old(owned) - {session.binding} else old(owned)
      ensures w.lostStored ==> session.binding in store.rows && store.rows[session.binding].status in {Lost, Closed}
      ensures store.activations == if w.lostStored && w.failedStored
                                   then WithProgress(old(store.activations), message, Done(false))
                                   else old(store.activations)
      ensures w.lostStored && w.failedStored && message in old(store.activations) ==>
                message in store.activations && store.activations[message].progress.Done?
      ensures var books := Audited(old(desk.Now()), Some(session), w.cancelling);
              desk.Now() == if w.lostStored && w.failedStored then Audited(books, Some(session), w.detaching) else books
    {
      OwnedStored(owned, store.rows);
      hide Valid, AllClear, Audited, WithDisconnected;
      hide WithStatus, WithProgress;
      LostIsStored(store.rows, session.binding);
      var _ := CancelTurn(session, w.cancelling, w.cancelSent);
      ok := SetStatus(session.binding, Lost, w.lostStored);
      if !ok { return; }
      ok := SetProgress(message, Done(false), w.failedStored);
      if !ok { return; }
      ok := DetachSession(session, w.detaching, w.marked);
    }
  }

  // ---- A decision whose answer is lost ----

  const ASKED: PermissionRequest := PermissionRequest(SessionRef(7, "remote"), "ask", "", [])

  /** One request of the session is decided in storage and still pending. */
  const STUCK_BOOKS: Books := Books(map[(7, "ask") := ASKED], map[(7, "ask") := Cancelled])

  /** A session is open with one request pending. Recording a disconnect is cut off while the decision
      of that request is being written: it lands, its answer is lost. From then on, though storage
      refuses nothing, the session can be detached only if the request is answered first. */
  method LostAnswerBlocksDetach(agent: AgentId, answered: bool) returns (manager: SessionManager, detached: bool)
    ensures fresh(manager) && manager.Valid() && (detached <==> answered)
    ensures detached <==> 7 !in manager.owned
  {
    hide SessionManager.Valid, PermissionDesk.Valid;
    manager := OpenOne(agent);
    CutOff(manager);
    assert (7, "ask") in manager.desk.pending;
    if answered {
      AnswerIt(manager);
    }
    detached := DetachIt(manager);
  }

  method OpenOne(agent: AgentId) returns (manager: SessionManager)
    ensures fresh(manager) && fresh(manager.store) && fresh(manager.desk) && manager.Valid() && manager.desk.Valid()
    ensures manager.owned == map[7 := ASKED.session] && manager.desk.Now() == Books(map[], map[])
  {
    var store := new Store();
    var desk := new PermissionDesk();
    manager := new SessionManager(agent, store, desk);
    var all := Opening(true, true, true, SessionGone, true, true, true, true, SessionOpen("remote"), true);
    hide CallsStand, OwnedIn, WellFormed, LogInv, NothingForgotten, IsDecided;
    var _ := manager.OpenSession(agent, Binding(7, Conversation(0), None, Disconnected), false, all);
  }

  method CutOff(manager: SessionManager)
    requires manager.Valid() && manager.desk.Valid() && manager.desk.Now() == Books(map[], map[])
    modifies manager.desk, manager.store`rows
    ensures manager.Valid() && manager.desk.Valid() && manager.desk.Now() == STUCK_BOOKS
  {
    OneStuck();
    hide SessionManager.Valid, PermissionDesk.Valid, Audited, WithDisconnected;
    manager.desk.Track(ASKED);
    var _ := manager.NoteDisconnect(Answers({}, {(7, "ask")}), {});
  }

  lemma OneStuck()
    ensures Audited(Books(map[KeyOf(ASKED) := ASKED], map[]), None, Answers({}, {(7, "ask")})) == STUCK_BOOKS
  {
    assert Concerned(map[(7, "ask") := ASKED], None) == {(7, "ask")};
  }

  method AnswerIt(manager: SessionManager)
    requires manager.Valid() && manager.desk.Valid() && manager.desk.Now() == STUCK_BOOKS
    modifies manager.desk
    ensures manager.Valid() && manager.desk.Valid() && manager.desk.pending == map[]
  {
    hide SessionManager.Valid, PermissionDesk.Valid;
    var _ := manager.desk.Respond(ASKED.session, "ask", Cancelled, Stored, true);
    assert map[(7, "ask") := ASKED] - {(7, "ask")} == map[];
  }

  method DetachIt(manager: SessionManager) returns (detached: bool)
    requires manager.Valid() && manager.desk.Valid() && manager.owned == map[7 := ASKED.session]
    requires manager.desk.Now() == STUCK_BOOKS || manager.desk.pending == map[]
    modifies manager, manager.desk, manager.store`rows
    ensures manager.Valid() && (detached <==> old(manager.desk.pending) == map[])
    ensures detached <==> 7 !in manager.owned
  {
    hide SessionManager.Valid, PermissionDesk.Valid, Audited, WithDisconnected;
    assert (7, "ask") in STUCK_BOOKS.pending && STUCK_BOOKS.pending != map[];
    detached := manager.DetachSession(ASKED.session, Answers({}, {}), true);
  }

  // ---- Steps of repeated opens ----

  /** The first `i` tries, up to the first that opened a session, and where they led. */
  ghost predicate TriedSoFar(t: Table, scope: Scope, ws: seq<Opening>, i: nat, opens: seq<Opened>,
                             session: Option<SessionRef>, now: Table)
    requires i <= |ws|
  {
    && |opens| == i
    && Tries(t, scope, ws) == opens + (if session.Some? then [] else Tries(now, scope, ws[i..]))
    && session == (if opens == [] then None else opens[i - 1].session)
    && now == (if opens == [] then t else opens[i - 1].table)
  }

  lemma NoOpens(t: Table, scope: Scope, ws: seq<Opening>)
    ensures CallsOf([]) == [] && TriedSoFar(t, scope, ws, 0, [], None, t)
  {
    assert ws[0..] == ws;
  }

  lemma TriesFirst(t: Table, scope: Scope, ws: seq<Opening>)
    requires ws != []
    ensures var o := OpenNewest(t, scope, ws[0]);
            Tries(t, scope, ws) == [o] + if o.session.Some? then [] else Tries(o.table, scope, ws[1..])
  {
    hide OpenNewest;
  }

  lemma OneMoreTry(t: Table, scope: Scope, ws: seq<Opening>, i: nat, opens: seq<Opened>, now: Table)
    requires i < |ws| && TriedSoFar(t, scope, ws, i, opens, None, now)
    ensures var o := OpenNewest(now, scope, ws[i]);
            TriedSoFar(t, scope, ws, i + 1, opens + [o], o.session, o.table)
  {
    assert ws[i..][1..] == ws[i + 1..] && ws[i..][0] == ws[i];
    TriesFirst(now, scope, ws[i..]);
    hide OpenNewest, Tries;
    var o := OpenNewest(now, scope, ws[i]);
    var rest := if o.session.Some? then [] else Tries(o.table, scope, ws[i + 1..]);
    assert opens + ([o] + rest) == (opens + [o]) + rest;
  }

  lemma NoMoreTries(t: Table, scope: Scope, ws: seq<Opening>, i: nat, opens: seq<Opened>, session: Option<SessionRef>,
                    now: Table)
    requires i <= |ws| && TriedSoFar(t, scope, ws, i, opens, session, now) && (session.Some? || i == |ws|)
    ensures opens == Tries(t, scope, ws) && (session.None? ==> |opens| == |ws|)
    ensures opens != [] ==> session == opens[|opens| - 1].session && now == opens[|opens| - 1].table
  {
    if session.None? { assert ws[i..] == [] && opens + [] == opens; }
  }

  lemma {:induction false} OneMoreOpened(opens: seq<Opened>, o: Opened)
    ensures CallsOf(opens + [o]) == CallsOf(opens) + o.calls
  {
    if opens == [] {
      assert [] + [o] == [o] && [o][1..] == [];
    } else {
      assert (opens + [o])[1..] == opens[1..] + [o];
      OneMoreOpened(opens[1..], o);
    }
  }
}
