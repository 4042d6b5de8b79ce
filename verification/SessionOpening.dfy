/** What opening a session does to the table of bindings, as functions of the table and of what
    storage and transport answer. The session manager is proved to do exactly this. */
module SessionOpening {
  import opened Domain
  import opened SessionStore

  /** What the manager does to the outside world. */
  datatype Call =
    | Resume(id: BindingId)
    | Create(id: BindingId)
    | Replace(source: BindingId, replacement: BindingId)
    | SendCapsule(id: BindingId)
    | RecordCapsule(id: BindingId)
    | SendPrompt(message: nat)

  datatype TransportAnswer = SessionOpen(remote: string) | SessionGone | TransportError

  /** The answers to one open. Each is asked for at most once, the recovery record once more after a
      replacement; `true` says that the statement works. */
  datatype Opening = Opening(
    latestRead: bool, currentRead: bool, recoveryRead: bool, resume: TransportAnswer, statusStored: bool,
    capsuleBuilt: bool, replaced: bool, recoveryReadAgain: bool, create: TransportAnswer, stored: bool)

  /** What came of an open: the session if it succeeded, the table it left and the calls it made. */
  datatype Opened = Opened(session: Option<SessionRef>, table: Table, calls: seq<Call>)

  function Optional(happened: bool, call: Call): seq<Call> {
    if happened then [call] else []
  }

  // ---- One round ----

  /** The row is resumed: it is current and has a remote session. */
  predicate Resumes(row: Binding, w: Opening) {
    IsCurrent(row.status) && w.recoveryRead && row.remote.Some? && w.currentRead
  }

  predicate ResumeSays(row: Binding, w: Opening, gone: bool) {
    Resumes(row, w) && w.statusStored && (if gone then w.resume.SessionGone? else w.resume.SessionOpen?)
  }

  /** The row is a replacement that is owed its remote session. */
  predicate CreatesOwed(row: Binding, recovery: Option<Recovery>, w: Opening) {
    IsCurrent(row.status) && w.recoveryRead && row.remote.None? && recovery.Some?
  }

  predicate CreateAttaches(row: Binding, recovery: Option<Recovery>, w: Opening) {
    && CreatesOwed(row, recovery, w) && w.create.SessionOpen? && w.stored
    && row.status == Disconnected && !recovery.value.capsuleDelivered
  }

  /** A fresh generation takes over: the session is lost, was just reported gone, or never existed
      and is not owed. */
  predicate Replaces(row: Binding, recovery: Option<Recovery>, w: Opening) {
    && w.capsuleBuilt && w.replaced
    && (row.status == Lost || ResumeSays(row, w, true)
        || (IsCurrent(row.status) && w.recoveryRead && row.remote.None? && recovery.None?))
  }

  function RoundCalls(row: Binding, recovery: Option<Recovery>, w: Opening): seq<Call> {
    Optional(Resumes(row, w), Resume(row.id)) + Optional(CreatesOwed(row, recovery, w), Create(row.id))
  }

  function RoundSession(row: Binding, recovery: Option<Recovery>, w: Opening): Option<SessionRef> {
    if ResumeSays(row, w, false) then Some(SessionRef(row.id, w.resume.remote))
    else if CreateAttaches(row, recovery, w) then Some(SessionRef(row.id, w.create.remote))
    else None
  }

  /** What a round does to its row short of replacing it. */
  function RoundRow(row: Binding, recovery: Option<Recovery>, w: Opening): Binding {
    if ResumeSays(row, w, false) then row.(status := Active)
    else if ResumeSays(row, w, true) then row.(status := Lost)
    else if CreateAttaches(row, recovery, w) then row.(remote := Some(w.create.remote), status := Active)
    else row
  }

  /** A round that ends the open. */
  function Round(t: Table, id: BindingId, w: Opening): Opened
    requires id in t.rows
  {
    var row, recovery := t.rows[id], RecoveryIn(t, id);
    Opened(RoundSession(row, recovery, w), t.(rows := t.rows[id := RoundRow(row, recovery, w)]),
           RoundCalls(row, recovery, w))
  }

  /** The row is lost and its successor waits for a remote session and its capsule. */
  function Replaced(t: Table, id: BindingId): Table
    requires id in t.rows
  {
    var next := Binding(t.nextId, t.rows[id].scope, None, Disconnected);
    Table(t.rows[id := t.rows[id].(status := Lost)][t.nextId := next], t.latest[next.scope := t.nextId],
          t.recoveries[t.nextId := Recovery(id, false)], t.nextId + 1)
  }

  function Again(w: Opening): Opening {
    w.(recoveryRead := w.recoveryReadAgain)
  }

  /** The recovering open of a row: one round, or a replacement and then a round on it. */
  function OpenRow(t: Table, id: BindingId, w: Opening): Opened
    requires id in t.rows
  {
    var row, recovery := t.rows[id], RecoveryIn(t, id);
    if Replaces(row, recovery, w) then
      var second := Round(Replaced(t, id), t.nextId, Again(w));
      second.(calls := RoundCalls(row, recovery, w) + [Replace(id, t.nextId)] + second.calls)
    else Round(t, id, w)
  }

  lemma SecondRoundEnds(t: Table, id: BindingId, w: Opening)
    requires id in t.rows
    ensures var next := Replaced(t, id);
            && t.nextId in next.rows && next.rows[t.nextId] == Binding(t.nextId, t.rows[id].scope, None, Disconnected)
            && !Replaces(next.rows[t.nextId], RecoveryIn(next, t.nextId), w)
  {
  }

  lemma OpenRowRounds(t: Table, id: BindingId, w: Opening)
    requires id in t.rows
    ensures var row, recovery, next := t.rows[id], RecoveryIn(t, id), Replaced(t, id);
            if Replaces(row, recovery, w) then
              && t.nextId in next.rows && !Replaces(next.rows[t.nextId], RecoveryIn(next, t.nextId), Again(w))
              && OpenRow(t, id, w)
                 == var second := Round(next, t.nextId, Again(w));
                    second.(calls := RoundCalls(row, recovery, w) + [Replace(id, t.nextId)] + second.calls)
            else OpenRow(t, id, w) == Round(t, id, w)
  {
    SecondRoundEnds(t, id, Again(w));
    hide Round;
  }

  // ---- Rounds spelled out ----

  lemma ResumedRound(t: Table, id: BindingId, w: Opening)
    requires id in t.rows && t.rows[id].id == id && Resumes(t.rows[id], w)
    ensures Round(t, id, w) == Opened(
              if w.statusStored && w.resume.SessionOpen? then Some(SessionRef(id, w.resume.remote)) else None,
              if !w.statusStored || w.resume.TransportError? then t
              else t.(rows := WithStatus(t.rows, id, if w.resume.SessionGone? then Lost else Active)),
              [Resume(id)])
  {
    assert t.rows[id := t.rows[id]] == t.rows;
  }

  lemma CreatedRound(t: Table, id: BindingId, w: Opening)
    requires id in t.rows && t.rows[id].id == id && CreatesOwed(t.rows[id], RecoveryIn(t, id), w)
    ensures var row := t.rows[id];
            var attaches := w.create.SessionOpen? && w.stored && row.status == Disconnected
                            && !t.recoveries[id].capsuleDelivered;
            Round(t, id, w) == Opened(
              if attaches then Some(SessionRef(id, w.create.remote)) else None,
              if attaches then t.(rows := t.rows[id := row.(remote := Some(w.create.remote), status := Active)]) else t,
              [Create(id)])
  {
    assert t.rows[id := t.rows[id]] == t.rows;
  }

  /** A round that neither resumes nor creates. */
  lemma RoundNothing(t: Table, id: BindingId, w: Opening)
    requires id in t.rows
    ensures var row, recovery := t.rows[id], RecoveryIn(t, id);
            !Resumes(row, w) && !CreatesOwed(row, recovery, w) ==>
              Round(t, id, w) == Opened(None, t, []) && RoundCalls(row, recovery, w) == []
    ensures Round(t, id, w).calls == RoundCalls(t.rows[id], RecoveryIn(t, id), w)
  {
    assert t.rows[id := t.rows[id]] == t.rows;
  }

  /** A status written just before is overwritten by the replacement. */
  lemma ReplacedAnyway(t: Table, now: Table, id: BindingId)
    requires id in t.rows && id in now.rows
    requires now == t.(rows := now.rows)
    requires now.rows[id := now.rows[id].(status := Lost)] == t.rows[id := t.rows[id].(status := Lost)]
    ensures Replaced(now, id) == Replaced(t, id)
  {
    assert now.rows[id := now.rows[id].(status := Lost)][id] == t.rows[id := t.rows[id].(status := Lost)][id];
  }

  lemma ReplacedRecoveries(t: Table, id: BindingId)
    requires WellFormed(t) && id in t.rows
    ensures forall other :: other in t.recoveries ==>
              other in Replaced(t, id).recoveries && Replaced(t, id).recoveries[other] == t.recoveries[other]
  {
  }

  lemma StatusKeepsRows(rows: map<BindingId, Binding>, id: BindingId, status: Status)
    ensures WithStatus(rows, id, status).Keys == rows.Keys
  {
  }

  // ---- Whole opens ----

  /** A first session: the row is stored once the remote session exists. */
  function OpenFirst(t: Table, binding: Binding, w: Opening): Opened {
    if w.create.SessionOpen? && w.stored && binding.id !in t.rows && binding.scope !in t.latest then
      Opened(Some(SessionRef(binding.id, w.create.remote)),
             t.(rows := t.rows[binding.id := binding.(remote := Some(w.create.remote), status := Active)],
                latest := t.latest[binding.scope := binding.id],
                nextId := if t.nextId <= binding.id then binding.id + 1 else t.nextId),
             [Create(binding.id)])
    else Opened(None, t, [Create(binding.id)])
  }

  /** The binding is the current row of its scope and has a remote session. */
  predicate Resumable(t: Table, binding: Binding) {
    && binding.scope in t.latest && t.latest[binding.scope] == binding.id && binding.id in t.rows
    && IsCurrent(t.rows[binding.id].status) && t.rows[binding.id].remote.Some?
  }

  /** A plain resume of a binding, which is looked up first. */
  function OpenKnown(t: Table, binding: Binding, w: Opening): Opened {
    if Resumable(t, binding) && w.currentRead then Round(t, binding.id, w.(recoveryRead := true))
    else Opened(None, t, [])
  }

  /** For the newest row as it is stored a plain resume is the round on it. */
  lemma KnownIsRound(t: Table, binding: Binding, w: Opening)
    requires NewestIn(t, binding.id) && t.rows[binding.id] == binding && IsCurrent(binding.status)
    requires binding.remote.Some? && w.recoveryRead
    ensures OpenKnown(t, binding, w) == Round(t, binding.id, w) && Resumable(t, binding)
  {
    if !w.currentRead { RoundNothing(t, binding.id, w); }
    assert w.(recoveryRead := true) == w;
  }

  function OpenRequested(t: Table, requested: Binding, recoverMissing: bool, w: Opening): Opened {
    if !recoverMissing then
      if requested.remote.Some? then OpenKnown(t, requested, w) else OpenFirst(t, requested, w)
    else if !w.latestRead then Opened(None, t, [])
    else if requested.scope !in t.latest then OpenFirst(t, requested, w)
    else if t.latest[requested.scope] != requested.id || requested.id !in t.rows then Opened(None, t, [])
    else OpenRow(t, requested.id, w)
  }

  /** The recovering open of whatever is newest in a scope. */
  function OpenNewest(t: Table, scope: Scope, w: Opening): Opened {
    if !w.latestRead || scope !in t.latest || t.latest[scope] !in t.rows then Opened(None, t, [])
    else OpenRow(t, t.latest[scope], w)
  }

  /** Opens of a scope, each from where the one before left off, until one succeeds. */
  function Tries(t: Table, scope: Scope, ws: seq<Opening>): seq<Opened>
    decreases |ws|
  {
    if ws == [] then []
    else
      var first := OpenNewest(t, scope, ws[0]);
      [first] + (if first.session.Some? then [] else Tries(first.table, scope, ws[1..]))
  }

  function CallsOf(opens: seq<Opened>): seq<Call> {
    if opens == [] then [] else opens[0].calls + CallsOf(opens[1..])
  }

  // ---- Exactly when an open gives a session ----

  /** The recovering open of the newest row of a scope, from its status, its remote session and its
      recovery record. A lost session, one that turns out to be gone and one that never existed and
      is not owed are replaced; the replacement, or one begun before, gets a created session; a
      current session is resumed; a closed one stays closed. */
  lemma RecoveringOpen(t: Table, requested: Binding, w: Opening)
    requires w.latestRead && requested.scope in t.latest && t.latest[requested.scope] == requested.id
    requires requested.id in t.rows && t.rows[requested.id].id == requested.id && requested.id != t.nextId
    ensures var id, next, o := requested.id, t.nextId, OpenRequested(t, requested, true, w);
            var status, remote := t.rows[id].status, t.rows[id].remote;
            var current := (status == Active || status == Disconnected) && w.recoveryRead;
            var resumed := current && remote.Some? && w.currentRead;
            var owed := current && remote.None? && id in t.recoveries;
            var replaced :=
              && w.capsuleBuilt && w.replaced
              && (|| status == Lost
                  || (resumed && w.resume.SessionGone? && w.statusStored)
                  || (current && remote.None? && id !in t.recoveries));
            && o.calls == (if resumed then [Resume(id)] else []) + (if owed then [Create(id)] else [])
                          + (if replaced then [Replace(id, next)] else [])
                          + (if replaced && w.recoveryReadAgain then [Create(next)] else [])
            && o.session == (
                 if resumed && w.resume.SessionOpen? && w.statusStored then Some(SessionRef(id, w.resume.remote))
                 else if owed && w.create.SessionOpen? && w.stored && status == Disconnected
                         && !t.recoveries[id].capsuleDelivered then Some(SessionRef(id, w.create.remote))
                 else if replaced && w.recoveryReadAgain && w.create.SessionOpen? && w.stored
                 then Some(SessionRef(next, w.create.remote))
                 else None)
            && (replaced ==>
                  && id in o.table.rows && o.table.rows[id] == t.rows[id].(status := Lost)
                  && next in o.table.recoveries && o.table.recoveries[next] == Recovery(id, false)
                  && t.rows[id].scope in o.table.latest && o.table.latest[t.rows[id].scope] == next)
  {
    var row, recovery := t.rows[requested.id], RecoveryIn(t, requested.id);
    SecondRound(t, requested.id, w);
    hide Replaced;
  }

  /** What a recovering open leaves of its row when it does not replace it: a session that is gone is
      stored as lost, one that opens is active under the remote session it has; else nothing changes. */
  lemma RecoveringOpenLeaves(t: Table, id: BindingId, w: Opening)
    requires id in t.rows && t.rows[id].id == id && id != t.nextId
    requires Replace(id, t.nextId) !in OpenRow(t, id, w).calls
    ensures var row, o := t.rows[id], OpenRow(t, id, w);
            var gone := Resume(id) in o.calls && w.resume.SessionGone? && w.statusStored;
            && (gone ==> o.session.None? && o.table == t.(rows := t.rows[id := row.(status := Lost)]))
            && (o.session.None? && !gone ==> o.table == t)
            && (o.session.Some? ==>
                  o.table == t.(rows := t.rows[id := row.(
                    remote := if Resume(id) in o.calls then row.remote else Some(o.session.value.remote),
                    status := Active)]))
  {
    assert t.rows[id := t.rows[id]] == t.rows;
    hide Replaced;
  }

  /** A replacement that was just begun is owed its session. */
  lemma SecondRound(t: Table, id: BindingId, w: Opening)
    requires id in t.rows && id != t.nextId
    ensures var next, now := t.nextId, Replaced(t, id);
            && next in now.rows && now.rows[next] == Binding(next, t.rows[id].scope, None, Disconnected)
            && RecoveryIn(now, next) == Some(Recovery(id, false))
            && now.rows[next := now.rows[next]] == now.rows
            && id in now.rows && now.rows[id] == t.rows[id].(status := Lost)
            && now.latest == t.latest[t.rows[id].scope := next]
  {
  }

  /** The first session of a scope is created: by a recovering open that finds no row, or by a plain
      one of a binding without a remote session. */
  lemma FirstOpen(t: Table, requested: Binding, recoverMissing: bool, w: Opening)
    requires if recoverMissing then w.latestRead && requested.scope !in t.latest else requested.remote.None?
    ensures var id, o := requested.id, OpenRequested(t, requested, recoverMissing, w);
            && o.calls == [Create(id)]
            && o.session == (if w.create.SessionOpen? && w.stored && id !in t.rows && requested.scope !in t.latest
                             then Some(SessionRef(id, w.create.remote)) else None)
            && (o.session.None? ==> o.table == t)
            && (o.session.Some? ==>
                  && o.table.rows == t.rows[id := Binding(id, requested.scope, Some(w.create.remote), Active)]
                  && o.table.latest == t.latest[requested.scope := id])
  {
    hide OpenRow, OpenKnown;
  }

  /** A plain open of a binding with a remote session resumes it if it is the current row of its scope. */
  lemma PlainOpen(t: Table, requested: Binding, w: Opening)
    requires requested.remote.Some? && (requested.id in t.rows ==> t.rows[requested.id].id == requested.id)
    ensures var id, o := requested.id, OpenRequested(t, requested, false, w);
            var resumed := && w.currentRead && requested.scope in t.latest && t.latest[requested.scope] == id
                           && id in t.rows && t.rows[id].status in {Active, Disconnected} && t.rows[id].remote.Some?;
            && o.calls == (if resumed then [Resume(id)] else [])
            && o.session == (if resumed && w.resume.SessionOpen? && w.statusStored
                             then Some(SessionRef(id, w.resume.remote)) else None)
            && (!resumed ==> o.table == t)
  {
    hide OpenRow, OpenFirst;
  }

  /** A recovering open that cannot read the newest row, or finds another, does nothing. */
  lemma NothingToOpen(t: Table, requested: Binding, w: Opening)
    requires !w.latestRead || (requested.scope in t.latest && t.latest[requested.scope] != requested.id)
    ensures OpenRequested(t, requested, true, w) == Opened(None, t, [])
  {
    hide OpenRow, OpenFirst, OpenKnown;
  }

  /** Opening what is newest in a scope is the recovering open of that row. */
  lemma NewestIsRequested(t: Table, scope: Scope, w: Opening)
    requires scope in t.latest && t.latest[scope] in t.rows
    requires t.rows[t.latest[scope]].id == t.latest[scope] && t.rows[t.latest[scope]].scope == scope
    ensures OpenNewest(t, scope, w) == OpenRequested(t, t.rows[t.latest[scope]], true, w)
  {
    hide OpenRow;
  }

  // ---- What opens promise ----

  /** Whoever opens a session gets one whose row is active and has a remote session; only rows that
      were current are resumed; there is at most one resume, then at most one replacement, then at
      most one create. */
  lemma OpenedIsAttached(t: Table, id: BindingId, w: Opening)
    requires WellFormed(t) && id in t.rows
    ensures var o := OpenRow(t, id, w);
            && (o.session.Some? ==>
                  var binding := o.session.value.binding;
                  && (binding == id || binding == t.nextId) && binding in o.table.rows
                  && o.table.rows[binding].status == Active && o.table.rows[binding].remote.Some?)
            && (o.session.Some? ==> t.rows[id].status != Closed)
            && (Resume(id) in o.calls ==> IsCurrent(t.rows[id].status) && t.rows[id].remote.Some?)
            && |o.calls| <= 3
  {
    SecondRoundEnds(t, id, w);
  }

  /** A session is opened under the requested binding or under a fresh one, and has a row then. */
  lemma OpenedUnder(t: Table, requested: Binding, recoverMissing: bool, w: Opening)
    requires WellFormed(t) && OpenRequested(t, requested, recoverMissing, w).session.Some?
    ensures var o := OpenRequested(t, requested, recoverMissing, w);
            var id := o.session.value.binding;
            && (id == requested.id || id !in t.rows) && id in o.table.rows
            && o.table.rows[id].status == Active && o.table.rows[id].remote.Some?
  {
    if requested.id in t.rows { OpenedIsAttached(t, requested.id, w); }
    hide OpenRow, WellFormed;
  }

  /** A replacement begun earlier, still without its remote session, is the newest of the scope. */
  ghost predicate Waits(t: Table, scope: Scope, id: BindingId) {
    && scope in t.latest && t.latest[scope] == id && id in t.rows
    && t.rows[id] == Binding(id, scope, None, Disconnected)
    && id in t.recoveries && !t.recoveries[id].capsuleDelivered
  }

  /** Opening it again makes at most its own create, and a failure leaves it waiting. */
  lemma WaitingIsReused(t: Table, scope: Scope, id: BindingId, w: Opening)
    requires Waits(t, scope, id)
    ensures var o := OpenNewest(t, scope, w);
            && (o.calls == [] || o.calls == [Create(id)])
            && (o.session.None? ==> Waits(o.table, scope, id) && o.table == t)
  {
    var o := OpenNewest(t, scope, w);
    if o.session.None? { assert t.rows[id := t.rows[id]] == t.rows; }
  }

  /** The newest row of the scope is where the table says. */
  ghost predicate Found(t: Table, scope: Scope) {
    scope in t.latest ==>
      var id := t.latest[scope];
      id in t.rows && t.rows[id].scope == scope && t.rows[id].id == id
  }

  /** An open either begins a replacement, which waits if the open fails, or none. */
  lemma OpenBegins(t: Table, scope: Scope, w: Opening)
    requires Found(t, scope)
    ensures var o := OpenNewest(t, scope, w);
            && (o.session.None? && (exists call :: call in o.calls && call.Replace?) ==>
                  Waits(o.table, scope, t.nextId))
            && (forall call :: call in o.calls && call.Replace? ==> call.replacement == t.nextId)
            && ReplacedOnce(o.calls) && Found(o.table, scope)
  {
    if scope in t.latest { SecondRoundEnds(t, t.latest[scope], w); }
  }

  function Replacements(calls: seq<Call>): nat {
    if calls == [] then 0 else (if calls[0].Replace? then 1 else 0) + Replacements(calls[1..])
  }

  /** After a replacement nothing happens but creating a session for it. */
  ghost predicate ReplacedOnce(calls: seq<Call>) {
    forall i, j :: 0 <= i < j < |calls| && calls[i].Replace? ==> calls[j] == Create(calls[i].replacement)
  }

  lemma {:induction false} NoReplacement(calls: seq<Call>)
    requires forall call :: call in calls ==> !call.Replace?
    ensures Replacements(calls) == 0
  {
    if calls != [] {
      assert calls[0] in calls;
      NoReplacement(calls[1..]);
    }
  }

  lemma {:induction false} ReplacedOnceCounts(calls: seq<Call>)
    requires ReplacedOnce(calls)
    ensures Replacements(calls) <= 1
  {
    if calls != [] {
      var rest := calls[1..];
      assert forall i :: 0 <= i < |rest| ==> rest[i] == calls[i + 1];
      if calls[0].Replace? {
        NoReplacement(rest);
      } else {
        ReplacedOnceCounts(rest);
      }
    }
  }

  lemma ReplacedOnceAppend(a: seq<Call>, b: seq<Call>, replacement: BindingId)
    requires ReplacedOnce(a) && ReplacedOnce(b)
    requires forall call :: call in a && call.Replace? ==>
               call.replacement == replacement && forall more :: more in b ==> more == Create(replacement)
    ensures ReplacedOnce(a + b)
  {
    var all := a + b;
    forall i, j | 0 <= i < j < |all| && all[i].Replace? ensures all[j] == Create(all[i].replacement) {
      if j < |a| {
        assert all[i] == a[i] && all[j] == a[j];
      } else if i < |a| {
        assert all[i] in a && all[j] in b;
      } else {
        assert all[i] == b[i - |a|] && all[j] == b[j - |a|];
      }
    }
  }

  lemma {:induction false} WaitingTries(t: Table, scope: Scope, ws: seq<Opening>, id: BindingId)
    requires Waits(t, scope, id)
    ensures forall call :: call in CallsOf(Tries(t, scope, ws)) ==> call == Create(id)
    decreases |ws|
  {
    if ws != [] {
      var first := OpenNewest(t, scope, ws[0]);
      WaitingIsReused(t, scope, id, ws[0]);
      hide OpenNewest, Waits;
      if first.session.None? { WaitingTries(first.table, scope, ws[1..], id); }
      assert Tries(t, scope, ws)[1..] == if first.session.Some? then [] else Tries(first.table, scope, ws[1..]);
    }
  }

  /** Opens of a scope, however many of them fail and however, begin at most one replacement, and
      after it only create its session. */
  lemma {:induction false} AtMostOneReplacement(t: Table, scope: Scope, ws: seq<Opening>)
    requires WellFormed(t)
    ensures ReplacedOnce(CallsOf(Tries(t, scope, ws))) && Replacements(CallsOf(Tries(t, scope, ws))) <= 1
  {
    TriesReplaceOnce(t, scope, ws);
    ReplacedOnceCounts(CallsOf(Tries(t, scope, ws)));
  }

  lemma {:induction false} TriesReplaceOnce(t: Table, scope: Scope, ws: seq<Opening>)
    requires Found(t, scope)
    ensures ReplacedOnce(CallsOf(Tries(t, scope, ws)))
    decreases |ws|
  {
    if ws != [] {
      var first := OpenNewest(t, scope, ws[0]);
      OpenBegins(t, scope, ws[0]);
      hide OpenNewest, ReplacedOnce, Waits;
      if first.session.None? {
        var rest := Tries(first.table, scope, ws[1..]);
        TriesReplaceOnce(first.table, scope, ws[1..]);
        if call :| call in first.calls && call.Replace? { WaitingTries(first.table, scope, ws[1..], t.nextId); }
        ReplacedOnceAppend(first.calls, CallsOf(rest), t.nextId);
        assert Tries(t, scope, ws)[1..] == rest;
      } else {
        assert Tries(t, scope, ws)[1..] == [] && first.calls + [] == first.calls;
      }
    }
  }

  /** Tries stop at the first success and otherwise use every chance. */
  lemma {:induction false} TriesUseAll(t: Table, scope: Scope, ws: seq<Opening>)
    ensures var opens := Tries(t, scope, ws);
            && |opens| <= |ws| && (ws != [] ==> opens != [])
            && (forall i :: 0 <= i < |opens| - 1 ==> opens[i].session.None?)
            && (opens == [] || opens[|opens| - 1].session.None? ==> |opens| == |ws|)
    decreases |ws|
  {
    if ws != [] {
      var first := OpenNewest(t, scope, ws[0]);
      hide OpenNewest;
      if first.session.None? { TriesUseAll(first.table, scope, ws[1..]); }
    }
  }
}
