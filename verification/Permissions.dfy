/** Permission requests: tracked while pending, decided durably at most once, and only then
    answered. The log records what happened, in order. */
module Permissions {
  import opened Domain

  type Key = (BindingId, string)

  datatype Act =
    | Asked(key: Key, options: seq<string>)
    | Decided(key: Key, options: seq<string>, outcome: PermissionOutcome)
    | Told(key: Key, outcome: PermissionOutcome)

  /** What becomes of a storage write: it is stored, it is refused, or it lands and its answer is lost. */
  datatype Write = Stored | Refused | Unanswered

  /** Storage's answers to the writes of one audit, by the request they are for. */
  datatype Answers = Answers(refused: set<Key>, unanswered: set<Key>) {
    predicate Stores(key: Key) {
      key !in refused && key !in unanswered
    }

    function For(key: Key): Write {
      if key in refused then Refused else if key in unanswered then Unanswered else Stored
    }
  }

  datatype Answer = Answered | NotPending | NotStored | NotAdvertised | NotSent

  function KeyOf(request: PermissionRequest): Key {
    (request.session.binding, request.requestId)
  }

  ghost predicate IsDecided(log: seq<Act>, key: Key) {
    exists i :: 0 <= i < |log| && log[i].Decided? && log[i].key == key
  }

  ghost predicate IsDropped(log: seq<Act>, key: Key) {
    Told(key, Cancelled) in log
  }

  /** No key is ever decided twice. */
  ghost predicate DecidedOnce(log: seq<Act>) {
    forall i, j :: 0 <= i < j < |log| && log[i].Decided? && log[j].Decided? ==> log[i].key != log[j].key
  }

  /** A selection is told only after the same selection of an offered option was stored. */
  ghost predicate ToldAfterDecided(log: seq<Act>) {
    forall i :: 0 <= i < |log| && log[i].Told? && log[i].outcome.Selected? ==>
      exists j :: 0 <= j < i && log[j].Decided? && log[j].key == log[i].key && log[j].outcome == log[i].outcome
  }

  ghost predicate SelectionsOffered(log: seq<Act>) {
    forall i :: 0 <= i < |log| && log[i].Decided? && log[i].outcome.Selected? ==>
      log[i].outcome.option in log[i].options
  }

  /** Every request asked is still pending, durably decided, or dropped with a cancelled reply. */
  ghost predicate NothingForgotten(log: seq<Act>, pending: map<Key, PermissionRequest>) {
    forall i :: 0 <= i < |log| && log[i].Asked? ==>
      log[i].key in pending || IsDecided(log, log[i].key) || IsDropped(log, log[i].key)
  }

  ghost predicate LogInv(log: seq<Act>) {
    DecidedOnce(log) && ToldAfterDecided(log) && SelectionsOffered(log)
  }

  lemma LogAsked(log: seq<Act>, key: Key, options: seq<string>)
    requires LogInv(log)
    ensures LogInv(log + [Asked(key, options)])
  {
    OlderActs(log, [Asked(key, options)]);
  }

  lemma LogDecided(log: seq<Act>, key: Key, options: seq<string>, outcome: PermissionOutcome)
    requires LogInv(log) && !IsDecided(log, key)
    requires outcome.Selected? ==> outcome.option in options
    ensures LogInv(log + [Decided(key, options, outcome)])
  {
    OlderActs(log, [Decided(key, options, outcome)]);
  }

  lemma LogTold(log: seq<Act>, key: Key, outcome: PermissionOutcome)
    requires LogInv(log)
    requires outcome.Selected? ==>
               exists j :: 0 <= j < |log| && log[j].Decided? && log[j].key == key && log[j].outcome == outcome
    ensures LogInv(log + [Told(key, outcome)])
  {
    OlderActs(log, [Told(key, outcome)]);
    if outcome.Selected? {
      var j :| 0 <= j < |log| && log[j].Decided? && log[j].key == key && log[j].outcome == outcome;
      assert (log + [Told(key, outcome)])[j] == log[j];
    }
  }

  /** What was told stays explained when the log grows. */
  lemma OlderActs(log: seq<Act>, more: seq<Act>)
    requires ToldAfterDecided(log)
    ensures forall i :: 0 <= i < |log| && log[i].Told? && log[i].outcome.Selected? ==>
              exists j :: 0 <= j < i && (log + more)[j].Decided? && (log + more)[j].key == log[i].key
                          && (log + more)[j].outcome == log[i].outcome
    ensures forall key :: IsDecided(log, key) ==> IsDecided(log + more, key)
  {
    forall i | 0 <= i < |log| && log[i].Told? && log[i].outcome.Selected?
      ensures exists j :: 0 <= j < i && (log + more)[j].Decided? && (log + more)[j].key == log[i].key
                          && (log + more)[j].outcome == log[i].outcome
    {
      var j :| 0 <= j < i && log[j].Decided? && log[j].key == log[i].key && log[j].outcome == log[i].outcome;
      assert (log + more)[j] == log[j];
    }
    forall key | IsDecided(log, key) ensures IsDecided(log + more, key) {
      var i :| 0 <= i < |log| && log[i].Decided? && log[i].key == key;
      assert (log + more)[i] == log[i];
    }
  }

  lemma ForgottenLess(log: seq<Act>, more: seq<Act>, pending: map<Key, PermissionRequest>, pending': map<Key,
      PermissionRequest>)
    requires NothingForgotten(log, pending) && ToldAfterDecided(log)
    requires forall a :: a in more && a.Asked? ==> a.key in pending'
    requires forall key :: key in pending && key !in pending' ==>
               IsDecided(log + more, key) || IsDropped(log + more, key)
    ensures NothingForgotten(log + more, pending')
  {
    OlderActs(log, more);
    var all := log + more;
    forall i | 0 <= i < |all| && all[i].Asked?
      ensures all[i].key in pending' || IsDecided(all, all[i].key) || IsDropped(all, all[i].key)
    {
      if i < |log| {
        assert all[i] == log[i];
      } else {
        assert all[i] in more;
      }
    }
  }

  /** What is stored and told for an outcome: an option that was not offered counts as cancelled. */
  function Effective(request: PermissionRequest, outcome: PermissionOutcome): PermissionOutcome {
    if outcome.Selected? && outcome.option !in request.options then Cancelled else outcome
  }

  predicate Concerns(request: PermissionRequest, session: Option<SessionRef>) {
    session.None? || request.session == session.value
  }

  /** What is pending in the manager and what is decided in storage. */
  datatype Books = Books(pending: map<Key, PermissionRequest>, decisions: map<Key, PermissionOutcome>)

  /** The part of the session manager that holds pending permission requests, with the durable
      table of decisions, whose key is unique. */
  class PermissionDesk {
    var pending: map<Key, PermissionRequest>
    var decisions: map<Key, PermissionOutcome>
    ghost var log: seq<Act>

    ghost predicate Valid()
      reads this
    {
      && (forall key :: key in pending ==> KeyOf(pending[key]) == key)
      && (forall key :: key in decisions <==> IsDecided(log, key))
      && LogInv(log)
      && NothingForgotten(log, pending)
    }

    function Now(): Books
      reads this
    {
      Books(pending, decisions)
    }

    constructor ()
      ensures Valid() && Now() == Books(map[], map[]) && log == []
    {
      pending, decisions, log := map[], map[], [];
    }

    method Track(request: PermissionRequest)
      requires Valid()
      modifies this
      ensures Valid()
      ensures pending == old(pending)[(request.session.binding, request.requestId) := request]
      ensures log == old(log) + [Asked((request.session.binding, request.requestId), request.options)]
      ensures decisions == old(decisions)
    {
      var act := Asked(KeyOf(request), request.options);
      LogAsked(log, KeyOf(request), request.options);
      ForgottenLess(log, [act], pending, pending[KeyOf(request) := request]);
      SameDecided(log, act);
      pending := pending[KeyOf(request) := request];
      log := log + [act];
    }

    /** The durable insert: refused when the key is decided already, or when storage fails. One that
        lands without its answer counts as failed. */
    method InsertDecision(key: Key, options: seq<string>, outcome: PermissionOutcome, write: Write)
      returns (stored: bool)
      requires Valid() && (outcome.Selected? ==> outcome.option in options)
      modifies this`log, this`decisions
      ensures Valid()
      ensures stored <==> write.Stored? && key !in old(decisions)
      ensures if write.Refused? || key in old(decisions) then log == old(log) && decisions == old(decisions)
              else decisions == old(decisions)[key := outcome] && log == old(log) + [Decided(key, options, outcome)]
    {
      var lands := !write.Refused? && key !in decisions;
      stored := write.Stored? && lands;
      if lands {
        LogDecided(log, key, options, outcome);
        ForgottenLess(log, [Decided(key, options, outcome)], pending, pending);
        NowDecided(log, key, options, outcome);
        decisions := decisions[key := outcome];
        log := log + [Decided(key, options, outcome)];
      }
    }

    /** The pending entry goes once the request is decided, or with a cancelled reply. */
    method Settle(key: Key, outcome: PermissionOutcome)
      requires Valid() && key in pending
      requires outcome == Cancelled || (log != [] && log[|log| - 1] == Decided(key, pending[key].options, outcome))
      modifies this`log, this`pending
      ensures Valid()
      ensures pending == old(pending) - {key} && log == old(log) + [Told(key, outcome)]
    {
      LogTold(log, key, outcome);
      SameDecided(log, Told(key, outcome));
      assert outcome == Cancelled ==> (log + [Told(key, outcome)])[|log|] == Told(key, Cancelled);
      ForgottenLess(log, [Told(key, outcome)], pending, pending - {key});
      pending := pending - {key};
      log := log + [Told(key, outcome)];
    }

    /** An answer to a pending request: stored first, then told. A cancellation or an offered option
        is kept as it is, an option that was not offered counts as cancelled. A write that fails, in
        whatever way, drops the request with a cancelled reply. */
    method Respond(session: SessionRef, requestId: string, outcome: PermissionOutcome, write: Write, sends: bool)
      returns (answer: Answer)
      requires Valid()
      modifies this
      ensures Valid() && old(log) <= log
      ensures var key := (session.binding, requestId);
              if key !in old(pending) || old(pending)[key].session != session then
                answer == NotPending && Now() == old(Now()) && log == old(log)
              else if write != Stored || key in old(decisions) then
                && answer == NotStored && pending == old(pending) - {key}
                && log != [] && log[|log| - 1] == Told(key, Cancelled)
              else if outcome == Cancelled || outcome.option in old(pending)[key].options then
                && answer == (if sends then Answered else NotSent) && pending == old(pending) - {key}
                && decisions == old(decisions)[key := outcome]
                && log == old(log) + [Decided(key, old(pending)[key].options, outcome), Told(key, outcome)]
              else
                && answer == (if sends then NotAdvertised else NotSent) && pending == old(pending) - {key}
                && decisions == old(decisions)[key := Cancelled]
                && log == old(log) + [Decided(key, old(pending)[key].options, Cancelled), Told(key, Cancelled)]
      ensures Served(Turn(Op.Respond(session, requestId, outcome, write, sends), Some(answer), log[|old(log)|..],
                          old(Now()), Now()))
    {
      hide LogInv, NothingForgotten, IsDecided;
      var key := (session.binding, requestId);
      if key !in pending || pending[key].session != session {
        return NotPending;
      }
      var request := pending[key];
      var effective := Effective(request, outcome);
      var stored := InsertDecision(key, request.options, effective, write);
      if !stored {
        Settle(key, Cancelled);
        return NotStored;
      }
      Settle(key, effective);
      answer := if !sends then NotSent else if effective != outcome then NotAdvertised else Answered;
    }

    method AuditOne(key: Key, write: Write) returns (stored: bool)
      requires Valid() && key in pending
      modifies this
      ensures Valid()
      ensures stored <==> write.Stored? && key !in old(decisions)
      ensures pending == if stored then old(pending) - {key} else old(pending)
      ensures if write.Refused? || key in old(decisions) then log == old(log) && decisions == old(decisions)
              else && decisions == old(decisions)[key := Cancelled]
                   && log == old(log) + [Decided(key, old(pending)[key].options, Cancelled)]
    {
      stored := InsertDecision(key, pending[key].options, Cancelled, write);
      if stored {
        assert log + [] == log;
        ForgottenLess(log, [], pending, pending - {key});
        pending := pending - {key};
      }
    }

    /** Every pending request of the session, or of all sessions, is stored as cancelled. One
        that cannot be stored stays pending, and the others are still tried. */
    method AuditCancelled(session: Option<SessionRef>, answers: Answers) returns (ok: bool)
      requires Valid()
      modifies this
      ensures Valid() && old(log) <= log && Now() == Audited(old(Now()), session, answers)
      ensures Cancels(log[|old(log)|..], old(pending), Landed(old(Now()), session, answers))
      ensures ok <==> AllClear(old(Now()), session, answers)
      ensures ok <==> Concerned(pending, session) == {}
    {
      var requests := Concerned(pending, session);
      ghost var tried: set<Key> := {};
      ghost var acts: seq<Act> := [];
      ok := true;
      NothingTried(pending, decisions, answers);
      hide Valid, Cancels, Concerned, LandedOf, ClearedOf, WithCancelled;
      while requests != {}
        invariant Valid() && log == old(log) + acts && tried !! requests
        invariant tried + requests == Concerned(old(pending), session)
        invariant pending == old(pending) - ClearedOf(tried, old(decisions), answers)
        invariant decisions == WithCancelled(old(decisions), LandedOf(tried, old(decisions), answers))
        invariant Cancels(acts, old(pending), LandedOf(tried, old(decisions), answers))
        invariant ok <==> ClearedOf(tried, old(decisions), answers) == tried
      {
        var key :| key in requests;
        requests := requests - {key};
        OneMoreTried(old(pending), old(decisions), session, answers, tried, key);
        OneMoreDecided(old(decisions), LandedOf(tried, old(decisions), answers), key);
        ghost var before := pending;
        var stored := AuditOne(key, answers.For(key));
        if key !in old(decisions) && key !in answers.refused {
          OneMoreCancel(acts, old(pending), LandedOf(tried, old(decisions), answers), key);
          acts := acts + [Decided(key, before[key].options, Cancelled)];
        }
        tried := tried + {key};
        ok := ok && stored;
      }
      assert log[|old(log)|..] == acts;
      assert tried == Concerned(old(pending), session);
      ClearIffNoneConcerned(old(Now()), session, answers);
    }
  }

  // ---- What an audit does ----

  function Concerned(pending: map<Key, PermissionRequest>, session: Option<SessionRef>): set<Key> {
    set key | key in pending && Concerns(pending[key], session)
  }

  /** The keys among these that get their decision now: undecided so far and not refused. */
  function LandedOf(keys: set<Key>, decisions: map<Key, PermissionOutcome>, answers: Answers): set<Key> {
    set key | key in keys && key !in decisions && key !in answers.refused
  }

  /** Those of them that are not pending any more: their write was answered as well. */
  function ClearedOf(keys: set<Key>, decisions: map<Key, PermissionOutcome>, answers: Answers): set<Key> {
    set key | key in keys && key !in decisions && answers.Stores(key)
  }

  function Landed(books: Books, session: Option<SessionRef>, answers: Answers): set<Key> {
    LandedOf(Concerned(books.pending, session), books.decisions, answers)
  }

  /** After an audit: what landed is decided, and only what was answered is not pending any more. */
  function Audited(books: Books, session: Option<SessionRef>, answers: Answers): Books {
    Books(books.pending - ClearedOf(Concerned(books.pending, session), books.decisions, answers),
          WithCancelled(books.decisions, Landed(books, session, answers)))
  }

  /** No concerned request is decided already, refused or left without an answer. */
  ghost predicate AllClear(books: Books, session: Option<SessionRef>, answers: Answers) {
    forall key :: key in books.pending && Concerns(books.pending[key], session) ==>
      key !in books.decisions && answers.Stores(key)
  }

  function WithCancelled(decisions: map<Key, PermissionOutcome>, keys: set<Key>): map<Key, PermissionOutcome> {
    decisions + map key | key in keys :: Cancelled
  }

  /** The acts decide exactly these requests, as cancelled and with their options. */
  ghost predicate Cancels(acts: seq<Act>, pending: map<Key, PermissionRequest>, keys: set<Key>) {
    && (forall act :: act in acts ==>
          && act.Decided? && act.outcome == Cancelled
          && act.key in keys && act.key in pending && act.options == pending[act.key].options)
    && (forall key :: key in keys && key in pending ==> Decided(key, pending[key].options, Cancelled) in acts)
  }

  lemma NothingTried(pending: map<Key, PermissionRequest>, decisions: map<Key, PermissionOutcome>, answers: Answers)
    ensures LandedOf({}, decisions, answers) == {} == ClearedOf({}, decisions, answers)
    ensures pending - {} == pending && WithCancelled(decisions, {}) == decisions && Cancels([], pending, {})
  {
  }

  lemma OneMoreTried(pending: map<Key, PermissionRequest>, decisions: map<Key, PermissionOutcome>,
                     session: Option<SessionRef>, answers: Answers, tried: set<Key>, key: Key)
    requires key !in tried && key in Concerned(pending, session)
    ensures key in pending && key !in ClearedOf(tried, decisions, answers)
    ensures var landed := key !in decisions && key !in answers.refused;
            var clears := key !in decisions && answers.Stores(key);
            && LandedOf(tried + {key}, decisions, answers)
               == (if landed then LandedOf(tried, decisions, answers) + {key} else LandedOf(tried, decisions, answers))
            && ClearedOf(tried + {key}, decisions, answers)
               == (if clears then ClearedOf(tried, decisions, answers) + {key}
                   else ClearedOf(tried, decisions, answers))
            && (ClearedOf(tried + {key}, decisions, answers) == tried + {key}
                <==> clears && ClearedOf(tried, decisions, answers) == tried)
    ensures key !in LandedOf(tried, decisions, answers)
  {
    assert ClearedOf(tried, decisions, answers) <= tried;
  }

  lemma OneMoreDecided(decisions: map<Key, PermissionOutcome>, keys: set<Key>, key: Key)
    requires key !in keys
    ensures key in WithCancelled(decisions, keys) <==> key in decisions
    ensures WithCancelled(decisions, keys + {key}) == WithCancelled(decisions, keys)[key := Cancelled]
  {
  }

  lemma OneMoreCancel(acts: seq<Act>, pending: map<Key, PermissionRequest>, keys: set<Key>, key: Key)
    requires Cancels(acts, pending, keys) && key in pending
    ensures Cancels(acts + [Decided(key, pending[key].options, Cancelled)], pending, keys + {key})
  {
  }

  lemma ClearIffNoneConcerned(books: Books, session: Option<SessionRef>, answers: Answers)
    ensures var concerned := Concerned(books.pending, session);
            AllClear(books, session, answers) <==> ClearedOf(concerned, books.decisions, answers) == concerned
    ensures AllClear(books, session, answers) <==> Concerned(Audited(books, session, answers).pending, session) == {}
  {
    var concerned := Concerned(books.pending, session);
    var cleared := ClearedOf(concerned, books.decisions, answers);
    assert cleared <= concerned && Concerned(books.pending - cleared, session) == concerned - cleared;
    assert concerned == cleared + (concerned - cleared);
    if cleared == concerned {
      forall key | key in books.pending && Concerns(books.pending[key], session)
        ensures key !in books.decisions && answers.Stores(key)
      {
        assert key in cleared;
      }
    }
  }

  /** An audit of one session, or of all, request by request: what is of another session, decided
      already, refused or unanswered stays pending; what was undecided and not refused is decided as
      cancelled; nothing else changes; and it succeeds exactly if none of its requests stays. */
  lemma AuditExactly(books: Books, session: Option<SessionRef>, answers: Answers)
    ensures forall key :: key in Audited(books, session, answers).pending <==>
              && key in books.pending
              && (|| (session.Some? && books.pending[key].session != session.value)
                  || key in books.decisions || key in answers.refused || key in answers.unanswered)
    ensures forall key :: key in Audited(books, session, answers).pending ==>
              Audited(books, session, answers).pending[key] == books.pending[key]
    ensures forall key :: key in books.decisions ==>
              key in Audited(books, session, answers).decisions
              && Audited(books, session, answers).decisions[key] == books.decisions[key]
    ensures forall key :: key !in books.decisions ==>
              (key in Audited(books, session, answers).decisions <==>
               && key in books.pending && key !in answers.refused
               && (session.None? || books.pending[key].session == session.value))
    ensures forall key :: key in Audited(books, session, answers).decisions && key !in books.decisions ==>
              Audited(books, session, answers).decisions[key] == Cancelled
    ensures AllClear(books, session, answers) <==> forall key ::
              key in Audited(books, session, answers).pending ==>
                session.Some? && books.pending[key].session != session.value
  {
    ClearIffNoneConcerned(books, session, answers);
  }

  /** Two audits in a row leave nothing pending if and only if none of it was decided before, and
      each write is stored by the first, or refused by it and stored by the second. */
  lemma TwoAudits(books: Books, session: Option<SessionRef>, first: Answers, second: Answers)
    ensures AllClear(Audited(books, session, first), session, second) <==>
            forall key :: key in books.pending && Concerns(books.pending[key], session) ==>
              key !in books.decisions && (first.Stores(key) || (key in first.refused && second.Stores(key)))
  {
    var after := Audited(books, session, first);
    forall key | key in books.pending && Concerns(books.pending[key], session)
      ensures key in after.pending <==> key in books.decisions || !first.Stores(key)
      ensures key in after.decisions <==> key in books.decisions || key !in first.refused
    {
      assert key in Concerned(books.pending, session);
    }
  }

  /** Decided in storage while still pending. */
  predicate Stuck(books: Books, key: Key) {
    key in books.pending && key in books.decisions
  }

  /** A stuck request blocks every audit that concerns it and is stuck afterwards. */
  lemma StuckBlocksAudit(books: Books, session: Option<SessionRef>, answers: Answers, key: Key)
    requires Stuck(books, key)
    ensures Stuck(Audited(books, session, answers), key)
    ensures Concerns(books.pending[key], session) ==> !AllClear(books, session, answers)
  {
  }

  // ---- Any sequence of operations ----

  datatype Op =
    | Track(request: PermissionRequest)
    | Respond(session: SessionRef, requestId: string, outcome: PermissionOutcome, write: Write, sends: bool)
    | Audit(concerning: Option<SessionRef>, answers: Answers)
    | RefuseAtShutdown(request: PermissionRequest, write: Write)

  /** One operation with what it answered and logged, and the books around it. */
  datatype Turn = Turn(op: Op, answer: Option<Answer>, acts: seq<Act>, before: Books, after: Books)

  /** A write lands unless it is refused or its key is decided already. */
  predicate Lands(write: Write, key: Key, books: Books) {
    !write.Refused? && key !in books.decisions
  }

  /** What an operation must do, log and answer, given what it found. */
  ghost predicate Served(turn: Turn) {
    var before, after, acts := turn.before, turn.after, turn.acts;
    match turn.op
    case Track(request) =>
      && acts == [Asked(KeyOf(request), request.options)]
      && after == before.(pending := before.pending[KeyOf(request) := request])
    case Respond(session, requestId, outcome, write, sends) =>
      var key := (session.binding, requestId);
      if key !in before.pending || before.pending[key].session != session then
        turn.answer == Some(NotPending) && acts == [] && after == before
      else
        var request := before.pending[key];
        var effective, lands := Effective(request, outcome), Lands(write, key, before);
        var stored := lands && write.Stored?;
        && after.pending == before.pending - {key}
        && after.decisions == (if lands then before.decisions[key := effective] else before.decisions)
        && acts == (if lands then [Decided(key, request.options, effective)] else [])
                   + [Told(key, if stored then effective else Cancelled)]
        && turn.answer == Some(if !stored then NotStored else if !sends then NotSent
                               else if effective != outcome then NotAdvertised else Answered)
    case Audit(session, answers) =>
      && after == Audited(before, session, answers)
      && Cancels(acts, before.pending, Landed(before, session, answers))
    case RefuseAtShutdown(request, write) =>
      var key := KeyOf(request);
      if Lands(write, key, before) then
        && after == before.(decisions := before.decisions[key := Cancelled])
        && acts == [Decided(key, request.options, Cancelled)]
      else after == before && acts == []
  }

  /** The turns follow one another from the first books to the last. */
  ghost predicate Linked(turns: seq<Turn>, first: Books, last: Books) {
    if turns == [] then first == last
    else
      var turn := turns[|turns| - 1];
      turn.after == last && Served(turn) && Linked(turns[..|turns| - 1], first, turn.before)
  }

  function Logged(turns: seq<Turn>): seq<Act> {
    if turns == [] then [] else Logged(turns[..|turns| - 1]) + turns[|turns| - 1].acts
  }

  function OpsOf(turns: seq<Turn>): seq<Op> {
    if turns == [] then [] else OpsOf(turns[..|turns| - 1]) + [turns[|turns| - 1].op]
  }

  /** The requests asked, in order. */
  function Asks(log: seq<Act>): seq<Act> {
    if log == [] then []
    else Asks(log[..|log| - 1]) + (if log[|log| - 1].Asked? then [log[|log| - 1]] else [])
  }

  function Tracked(ops: seq<Op>): seq<Act> {
    if ops == [] then []
    else
      var op := ops[|ops| - 1];
      Tracked(ops[..|ops| - 1]) + (if op.Track? then [Asked(KeyOf(op.request), op.request.options)] else [])
  }

  lemma {:induction false} AsksAppend(a: seq<Act>, b: seq<Act>)
    ensures Asks(a + b) == Asks(a) + Asks(b)
    decreases |b|
  {
    if b == [] {
      assert a + b == a;
    } else {
      var all := a + b;
      assert all[..|all| - 1] == a + b[..|b| - 1];
      AsksAppend(a, b[..|b| - 1]);
    }
  }

  lemma {:induction false} NoAsks(acts: seq<Act>)
    requires forall act :: act in acts ==> !act.Asked?
    ensures Asks(acts) == []
  {
    if acts != [] {
      assert acts[|acts| - 1] in acts;
      NoAsks(acts[..|acts| - 1]);
    }
  }

  lemma ServedAsks(turn: Turn)
    requires Served(turn)
    ensures Asks(turn.acts) == if turn.op.Track? then [Asked(KeyOf(turn.op.request), turn.op.request.options)] else []
  {
    if turn.op.Track? {
      assert turn.acts[..0] == [];
    } else {
      NoAsks(turn.acts);
    }
  }

  lemma OneMoreTurn(turns: seq<Turn>, turn: Turn, first: Books)
    requires Linked(turns, first, turn.before) && Served(turn) && Asks(Logged(turns)) == Tracked(OpsOf(turns))
    ensures Linked(turns + [turn], first, turn.after)
    ensures Logged(turns + [turn]) == Logged(turns) + turn.acts && OpsOf(turns + [turn]) == OpsOf(turns) + [turn.op]
    ensures Asks(Logged(turns + [turn])) == Tracked(OpsOf(turns + [turn]))
  {
    hide Served, Asks;
    assert (turns + [turn])[..|turns|] == turns;
    AsksAppend(Logged(turns), turn.acts);
    ServedAsks(turn);
    assert (OpsOf(turns) + [turn.op])[..|OpsOf(turns)|] == OpsOf(turns);
  }

  /** What an answer comes to: a cancellation or an offered option that is stored is what is decided
      and told; an option that was not offered is decided and told as cancelled. */
  ghost predicate AnsweredFairly(turn: Turn) {
    turn.op.Respond? ==>
      var key, outcome := (turn.op.session.binding, turn.op.requestId), turn.op.outcome;
      if key !in turn.before.pending || turn.before.pending[key].session != turn.op.session then
        turn.answer == Some(NotPending) && turn.acts == [] && turn.after == turn.before
      else if turn.op.write != Stored || key in turn.before.decisions then
        turn.answer == Some(NotStored) && Told(key, Cancelled) in turn.acts && key !in turn.after.pending
      else
        var options := turn.before.pending[key].options;
        if outcome == Cancelled || outcome.option in options then
          && turn.answer == Some(if turn.op.sends then Answered else NotSent) && key !in turn.after.pending
          && turn.after.decisions == turn.before.decisions[key := outcome]
          && turn.acts == [Decided(key, options, outcome), Told(key, outcome)]
        else
          && turn.answer == Some(if turn.op.sends then NotAdvertised else NotSent) && key !in turn.after.pending
          && turn.after.decisions == turn.before.decisions[key := Cancelled]
          && turn.acts == [Decided(key, options, Cancelled), Told(key, Cancelled)]
  }

  /** Over any operations every answer is kept and told as it was given, if it could be. */
  lemma {:induction false} AllAnsweredFairly(turns: seq<Turn>, first: Books, last: Books)
    requires Linked(turns, first, last)
    ensures forall turn :: turn in turns ==> AnsweredFairly(turn)
  {
    if turns != [] {
      var front, turn := turns[..|turns| - 1], turns[|turns| - 1];
      assert AnsweredFairly(turn);
      AllAnsweredFairly(front, first, turn.before);
      assert turns == front + [turn];
    }
  }

  method ServeOne(desk: PermissionDesk, op: Op) returns (answer: Option<Answer>, ghost acts: seq<Act>)
    requires desk.Valid()
    modifies desk
    ensures desk.Valid() && desk.log == old(desk.log) + acts
    ensures Served(Turn(op, answer, acts, old(desk.Now()), desk.Now()))
  {
    hide LogInv, NothingForgotten, Cancels, Audited, Landed;
    answer := None;
    match op {
      case Track(request) => desk.Track(request);
      case Respond(session, requestId, outcome, write, sends) =>
        var told := desk.Respond(session, requestId, outcome, write, sends);
        answer := Some(told);
      case Audit(concerning, answers) => var _ := desk.AuditCancelled(concerning, answers);
      case RefuseAtShutdown(request, write) =>
        var _ := desk.InsertDecision(KeyOf(request), request.options, Cancelled, write);
    }
    acts := desk.log[|old(desk.log)|..];
  }

  /** Any interleaving of requests, answers, audits and failed writes. Every operation logs what it
      did, the requests asked are those tracked, in order, and over all of it no key is decided
      twice, nothing is selected that was not offered and stored first, no request is forgotten. */
  method Serve(desk: PermissionDesk, ops: seq<Op>) returns (answers: seq<Option<Answer>>, ghost turns: seq<Turn>)
    requires desk.Valid()
    modifies desk
    ensures DecidedOnce(desk.log) && ToldAfterDecided(desk.log) && SelectionsOffered(desk.log)
    ensures NothingForgotten(desk.log, desk.pending)
    ensures OpsOf(turns) == ops && AnswersOf(turns) == answers
    ensures Linked(turns, old(desk.Now()), desk.Now()) && forall turn :: turn in turns ==> AnsweredFairly(turn)
    ensures desk.log == old(desk.log) + Logged(turns) && Asks(Logged(turns)) == Tracked(ops)
  {
    hide Served, LogInv, NothingForgotten, Asks, Tracked, AnsweredFairly;
    answers, turns := [], [];
    NothingServed();
    for i := 0 to |ops|
      invariant desk.Valid() && OpsOf(turns) == ops[..i] && AnswersOf(turns) == answers
      invariant Linked(turns, old(desk.Now()), desk.Now())
      invariant desk.log == old(desk.log) + Logged(turns) && Asks(Logged(turns)) == Tracked(OpsOf(turns))
    {
      ghost var before := desk.Now();
      var answer, acts := ServeOne(desk, ops[i]);
      ghost var turn := Turn(ops[i], answer, acts, before, desk.Now());
      OneMoreTurn(turns, turn, old(desk.Now()));
      OneMoreAnswer(turns, turn);
      turns := turns + [turn];
      answers := answers + [answer];
      assert ops[..i + 1] == ops[..i] + [ops[i]];
    }
    assert ops[..|ops|] == ops;
    AllAnsweredFairly(turns, old(desk.Now()), desk.Now());
    DeskIsValid(desk);
  }

  function AnswersOf(turns: seq<Turn>): seq<Option<Answer>> {
    if turns == [] then [] else AnswersOf(turns[..|turns| - 1]) + [turns[|turns| - 1].answer]
  }

  lemma OneMoreAnswer(turns: seq<Turn>, turn: Turn)
    ensures AnswersOf(turns + [turn]) == AnswersOf(turns) + [turn.answer]
  {
    assert (turns + [turn])[..|turns|] == turns;
  }

  lemma NothingServed()
    ensures Asks([]) == [] && Tracked([]) == []
  {
  }

  lemma DeskIsValid(desk: PermissionDesk)
    requires desk.Valid()
    ensures DecidedOnce(desk.log) && ToldAfterDecided(desk.log) && SelectionsOffered(desk.log)
    ensures NothingForgotten(desk.log, desk.pending)
  {
    hide DecidedOnce, ToldAfterDecided, SelectionsOffered, NothingForgotten;
  }

  /** The turn answers this pending request. */
  predicate AnswersTo(turn: Turn, key: Key) {
    && turn.op.Respond? && (turn.op.session.binding, turn.op.requestId) == key
    && key in turn.before.pending && turn.before.pending[key].session == turn.op.session
  }

  lemma StuckIffUnanswered(turn: Turn, key: Key)
    requires Served(turn) && Stuck(turn.before, key)
    ensures Stuck(turn.after, key) <==> !AnswersTo(turn, key)
  {
    if turn.op.Audit? { StuckBlocksAudit(turn.before, turn.op.concerning, turn.op.answers, key); }
  }

  /** Over any operations a stuck request stays so until it is answered; so long every audit that
      concerns it fails. */
  lemma {:induction false} StuckUntilAnswered(turns: seq<Turn>, first: Books, last: Books, key: Key)
    requires Linked(turns, first, last) && Stuck(first, key)
    requires forall turn :: turn in turns ==> !AnswersTo(turn, key)
    ensures Stuck(last, key)
  {
    if turns != [] {
      var turn := turns[|turns| - 1];
      StuckUntilAnswered(turns[..|turns| - 1], first, turn.before, key);
      StuckIffUnanswered(turn, key);
    }
  }

  lemma SameDecided(log: seq<Act>, act: Act)
    requires !act.Decided?
    ensures forall key :: IsDecided(log + [act], key) <==> IsDecided(log, key)
  {
    forall key | IsDecided(log, key) ensures IsDecided(log + [act], key) {
      var i :| 0 <= i < |log| && log[i].Decided? && log[i].key == key;
      assert (log + [act])[i] == log[i];
    }
  }

  lemma NowDecided(log: seq<Act>, key: Key, options: seq<string>, outcome: PermissionOutcome)
    ensures forall k :: IsDecided(log + [Decided(key, options, outcome)], k) <==> IsDecided(log, k) || k == key
  {
    var all := log + [Decided(key, options, outcome)];
    assert all[|log|].Decided? && all[|log|].key == key;
    forall k | IsDecided(log, k) ensures IsDecided(all, k) {
      var i :| 0 <= i < |log| && log[i].Decided? && log[i].key == k;
      assert all[i] == log[i];
    }
  }
}
