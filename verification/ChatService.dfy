/** The chat services for direct messages and threads: they gather an agent's text, persist each
    completed message and only then emit it. */
module ChatService {
  import opened Domain

  type MessageId = nat

  datatype RuntimeEvent =
    | TextDelta(text: string)
    | AgentMessageCompleted
    | PermissionRequested(requestId: string)
    | TurnCompleted
    | TurnFailed
    | Disconnected
    | SessionLost
    | StreamEnded

  /** What asking the runtime for an event yields. */
  datatype Yielded = Event(event: RuntimeEvent) | RuntimeError

  datatype Message = Message(id: MessageId, inbound: bool, body: string)

  datatype ChatEvent =
    | Text(text: string)
    | MessageCompleted(message: Message)
    | Permission(requestId: string)
    | TurnDone
    | TurnLost
    | Gone

  datatype Error = NotOpen | EmptyAgentMessage | EmptyMessage | AlreadyOpen | Lost | FromRuntime | FromStorage

  datatype Write = Answers | ErrsUnwritten | ErrsWritten

  /** Who the chat is between. */
  datatype Parties = Parties(conversation: nat, agent: AgentId, sender: string)

  // ---- The meaning of what was read: the agent's messages and the text still open ----

  datatype Gathered = Gathered(bodies: seq<string>, open: string)

  predicate Clears(event: RuntimeEvent) {
    event.TurnFailed? || event.Disconnected? || event.SessionLost? || event.StreamEnded?
  }

  function Gather(read: seq<RuntimeEvent>): Gathered {
    if read == [] then Gathered([], "")
    else
      var before := Gather(read[..|read| - 1]);
      match read[|read| - 1]
      case TextDelta(text) => before.(open := before.open + text)
      case AgentMessageCompleted => if Blank(before.open) then before else Gathered(before.bodies + [before.open], "")
      case event => if Clears(event) then before.(open := "") else before
  }

  function AllText(read: seq<RuntimeEvent>): string {
    if read == [] then ""
    else AllText(read[..|read| - 1]) + (if read[|read| - 1].TextDelta? then read[|read| - 1].text else "")
  }

  function Concat(bodies: seq<string>): string {
    if bodies == [] then "" else Concat(bodies[..|bodies| - 1]) + bodies[|bodies| - 1]
  }

  lemma GatherMore(read: seq<RuntimeEvent>, event: RuntimeEvent)
    ensures Gather(read + [event]) ==
            var before := Gather(read);
            match event {
              case TextDelta(text) => before.(open := before.open + text)
              case AgentMessageCompleted => if Blank(before.open) then before
                  else Gathered(before.bodies + [before.open], "")
              case _ => if Clears(event) then before.(open := "") else before
            }
  {
    assert (read + [event])[..|read|] == read;
  }

  /** While nothing fails, no text is lost, repeated or reordered: not at the end of a turn and not
      at a completion with nothing to say. */
  lemma {:induction false} TextConserved(read: seq<RuntimeEvent>)
    requires forall event :: event in read ==>
               !event.TurnFailed? && !event.Disconnected? && !event.SessionLost? && !event.StreamEnded?
    ensures Concat(Gather(read).bodies) + Gather(read).open == AllText(read)
  {
    hide Blank;
    if read != [] {
      var init, last := read[..|read| - 1], read[|read| - 1];
      assert last in read;
      TextConserved(init);
      GatherMore(init, last);
      assert read == init + [last];
      hide Gather;
      var before := Gather(init);
      if last.AgentMessageCompleted? && !Blank(before.open) {
        ConcatMore(before.bodies, before.open);
      } else if last.TextDelta? {
        assert (Concat(before.bodies) + before.open) + last.text == Concat(before.bodies) + (before.open + last.text);
      }
    }
  }

  lemma ConcatMore(bodies: seq<string>, body: string)
    ensures Concat(bodies + [body]) == Concat(bodies) + body
  {
    assert (bodies + [body])[..|bodies|] == bodies;
  }

  /** No message is blank. */
  lemma {:induction false} NoBlankMessage(read: seq<RuntimeEvent>, i: nat)
    requires i < |Gather(read).bodies|
    ensures exists k :: 0 <= k < |Gather(read).bodies[i]| && !IsWhitespace(Gather(read).bodies[i][k])
  {
    hide IsWhitespace;
    if read != [] {
      var init := read[..|read| - 1];
      if i < |Gather(init).bodies| {
        NoBlankMessage(init, i);
        assert Gather(read).bodies[i] == Gather(init).bodies[i];
      } else {
        assert !Blank(Gather(read).bodies[i]);
      }
    }
  }

  /** What an event that completes no message is to the chat. */
  function Shown(event: RuntimeEvent): Result<Option<ChatEvent>, Error> {
    match event
    case TextDelta(text) => Ok(Some(Text(text)))
    case AgentMessageCompleted => Err(EmptyAgentMessage)
    case PermissionRequested(requestId) => Ok(Some(Permission(requestId)))
    case TurnCompleted => Ok(Some(TurnDone))
    case TurnFailed => Ok(Some(TurnLost))
    case Disconnected => Ok(Some(Gone))
    case SessionLost => Err(Lost)
    case StreamEnded => Ok(None)
  }

  /** The event completes a message that cannot be stored yet. */
  predicate Waits(open: string, event: RuntimeEvent, write: Write) {
    event.AgentMessageCompleted? && !Blank(open) && !write.Answers?
  }

  // ---- What a run of `next_event` calls takes in ----

  /** How many yields were taken, and whether a message waits to be stored. */
  datatype Progress = Progress(taken: nat, waiting: bool)

  /** The events among what was yielded, as far as a chat is there to take them in. */
  function EventsOf(open: bool, incoming: seq<Yielded>): seq<RuntimeEvent> {
    if incoming == [] then []
    else
      var last := incoming[|incoming| - 1];
      EventsOf(open, incoming[..|incoming| - 1]) + (if open && last.Event? then [last.event] else [])
  }

  /** One call: while a message waits it is only tried again, otherwise the next yield is taken, if
      there is one. `open` says whether a chat is there and `text` what was gathered so far. */
  function PlayOne(p: Progress, text: string, open: bool, incoming: seq<Yielded>, write: Write): (next: Progress)
    requires p.taken <= |incoming|
    ensures next.taken <= |incoming|
  {
    if p.waiting then p.(waiting := !write.Answers?)
    else if p.taken == |incoming| then p
    else
      var yielded := incoming[p.taken];
      Progress(p.taken + 1, open && yielded.Event? && Waits(text, yielded.event, write))
  }

  /** One call for each write. */
  function Play(first: Progress, read: seq<RuntimeEvent>, open: bool, incoming: seq<Yielded>,
                writes: seq<Write>): (p: Progress)
    requires first.taken <= |incoming|
    ensures p.taken <= |incoming|
    decreases |writes|
  {
    if writes == [] then first
    else
      var p := Play(first, read, open, incoming, writes[..|writes| - 1]);
      var text := Gather(read + EventsOf(open, incoming[..p.taken])).open;
      PlayOne(p, text, open, incoming, writes[|writes| - 1])
  }

  lemma NothingTaken(open: bool, incoming: seq<Yielded>)
    ensures EventsOf(open, incoming[..0]) == []
  {
  }

  lemma EventsMore(open: bool, incoming: seq<Yielded>, n: nat)
    requires n < |incoming|
    ensures EventsOf(open, incoming[..n + 1])
         == EventsOf(open, incoming[..n]) + (if open && incoming[n].Event? then [incoming[n].event] else [])
  {
    assert incoming[..n + 1][..n] == incoming[..n];
  }

  // ---- The messages in the store ----

  function Inbound(store: seq<Message>): seq<Message> {
    if store == [] then []
    else Inbound(store[..|store| - 1]) + (if store[|store| - 1].inbound then [store[|store| - 1]] else [])
  }

  lemma InboundMore(store: seq<Message>, message: Message)
    ensures Inbound(store + [message]) == Inbound(store) + (if message.inbound then [message] else [])
  {
    assert (store + [message])[..|store|] == store;
  }

  lemma {:induction false} InboundIn(store: seq<Message>, message: Message)
    ensures message in Inbound(store) <==> message in store && message.inbound
  {
    if store != [] {
      assert store == store[..|store| - 1] + [store[|store| - 1]];
      InboundIn(store[..|store| - 1], message);
    }
  }

  function Bodies(messages: seq<Message>): (bodies: seq<string>)
    ensures |bodies| == |messages| && forall i | 0 <= i < |bodies| :: bodies[i] == messages[i].body
  {
    seq(|messages|, i requires 0 <= i < |messages| => messages[i].body)
  }

  lemma BodiesMore(messages: seq<Message>, message: Message)
    ensures Bodies(messages + [message]) == Bodies(messages) + [message.body]
  {
  }

  /** All agent messages in the store were emitted, except perhaps the pending one, which may have
      been written by a try that did not answer. */
  ghost predicate Stored(store: seq<Message>, emitted: seq<Message>, pending: Option<Message>) {
    && (Inbound(store) == emitted || (pending.Some? && Inbound(store) == emitted + [pending.value]))
    && (pending.Some? ==> pending.value.inbound && pending.value !in emitted)
  }

  function Insert(store: seq<Message>, message: Message): seq<Message> {
    if message in store then store else store + [message]
  }

  lemma InsertPending(store: seq<Message>, emitted: seq<Message>, message: Message)
    requires Stored(store, emitted, Some(message))
    ensures Inbound(Insert(store, message)) == emitted + [message]
    ensures Stored(Insert(store, message), emitted, Some(message))
              && Stored(Insert(store, message), emitted + [message], None)
  {
    InboundIn(store, message);
    InboundMore(store, message);
    hide Inbound;
    if message in store {
      assert Inbound(store) != emitted;
    }
  }

  ghost predicate Below(messages: seq<Message>, id: MessageId) {
    forall message :: message in messages ==> message.id < id
  }

  lemma BelowNext(messages: seq<Message>, id: MessageId)
    requires Below(messages, id)
    ensures Below(messages, id + 1)
  {
  }

  lemma OutboundKeeps(store: seq<Message>, emitted: seq<Message>, pending: Option<Message>, message: Message)
    requires Stored(store, emitted, pending) && !message.inbound
    ensures Stored(store + [message], emitted, pending) && Inbound(store + [message]) == Inbound(store)
  {
    InboundMore(store, message);
    hide Inbound;
    assert Inbound(store) + [] == Inbound(store);
  }

  /** The agent's messages: those emitted and the one that waits to be. */
  function Completed(emitted: seq<Message>, pending: Option<Message>): seq<Message> {
    if pending.Some? then emitted + [pending.value] else emitted
  }

  lemma EmittingCompletesNothing(emitted: seq<Message>, message: Message)
    ensures Completed(emitted + [message], None) == Completed(emitted, Some(message))
  {
  }

  class ChatSession {
    var active: Option<Parties>
    var response: string
    var pendingCompletion: Option<Message>
    var nextId: MessageId
    /** The durable messages, in the order they were written. */
    var store: seq<Message>
    ghost var read: seq<RuntimeEvent>
    ghost var emitted: seq<Message>

    /** The agent's messages are the meaning of what was read, and all but perhaps a pending one are
        stored and emitted. */
    ghost predicate Valid()
      reads this
    {
      && Gather(read) == Gathered(Bodies(Completed(emitted, pendingCompletion)), response)
      && (active.None? ==> response == "")
      && Stored(store, emitted, pendingCompletion)
      && Below(Completed(emitted, pendingCompletion), nextId)
    }

    constructor ()
      ensures Valid() && read == [] && store == [] && active.None?
    {
      active, response, pendingCompletion, nextId, store := None, "", None, 0, [];
      read, emitted := [], [];
    }

    /** A message is written once, however often it is tried. */
    method PersistMessage(message: Message, write: Write) returns (ok: bool)
      modifies `store
      ensures ok <==> write.Answers?
      ensures store == if write.ErrsUnwritten? then old(store) else Insert(old(store), message)
    {
      if !write.ErrsUnwritten? && message !in store { store := store + [message]; }
      ok := write.Answers?;
    }

    method PersistCompletion(write: Write) returns (result: Result<ChatEvent, Error>)
      requires Valid() && pendingCompletion.Some?
      modifies `store, `pendingCompletion, `emitted
      ensures Valid()
      ensures if write.Answers?
              then result == Ok(MessageCompleted(old(pendingCompletion).value)) && pendingCompletion.None?
                   && emitted == old(emitted) + [old(pendingCompletion).value] && Inbound(store) == emitted
              else result == Err(FromStorage) && pendingCompletion == old(pendingCompletion) && emitted == old(emitted)
    {
      var message := pendingCompletion.value;
      InsertPending(store, emitted, message);
      EmittingCompletesNothing(emitted, message);
      hide Gather, Bodies, Inbound, Insert, Stored, Below, Completed;
      var ok := PersistMessage(message, write);
      if !ok { return Err(FromStorage); }
      pendingCompletion := None;
      emitted := emitted + [message];
      result := Ok(MessageCompleted(message));
    }

    /** The text so far becomes a message under a fresh id. */
    method BeginCompletion()
      requires Valid() && pendingCompletion.None? && active.Some? && !Blank(response)
      modifies `pendingCompletion, `response, `nextId, `read
      ensures Valid() && response == "" && read == old(read) + [RuntimeEvent.AgentMessageCompleted]
      ensures pendingCompletion == Some(Message(old(nextId), true, old(response)))
    {
      GatherMore(read, RuntimeEvent.AgentMessageCompleted);
      hide Gather, Bodies, Blank, Inbound;
      var message := Message(nextId, true, response);
      BodiesMore(emitted, message);
      assert message !in emitted;
      nextId := nextId + 1;
      pendingCompletion := Some(message);
      response := "";
      read := read + [RuntimeEvent.AgentMessageCompleted];
    }

    /** Takes in an event that completes no message: text is kept, a failure drops it. */
    method Observe(event: RuntimeEvent)
      requires Valid() && active.Some?
      requires event.AgentMessageCompleted? ==> Blank(response)
      modifies `response, `read
      ensures Valid() && read == old(read) + [event]
      ensures response == if event.TurnFailed? || event.Disconnected? || event.SessionLost? || event.StreamEnded?
                          then ""
                          else if event.TextDelta? then old(response) + event.text
                          else old(response)
    {
      GatherMore(read, event);
      hide Gather, Bodies, Blank, Stored;
      if Clears(event) {
        response := "";
      } else if event.TextDelta? {
        response := response + event.text;
      }
      read := read + [event];
    }

    /** One event of the chat. A message that could not be persisted is tried again before anything
        new is read. */
    method NextEvent(yielded: Yielded, write: Write) returns (result: Result<Option<ChatEvent>, Error>)
      requires Valid()
      modifies `response, `pendingCompletion, `nextId, `store, `read, `emitted
      ensures Valid()
      ensures old(pendingCompletion).Some? ==>
                && read == old(read) && response == old(response)
                && pendingCompletion == (if write.Answers? then None else old(pendingCompletion))
      ensures old(pendingCompletion).None? ==>
                read == if yielded.Event? && active.Some? then old(read) + [yielded.event] else old(read)
      ensures old(pendingCompletion).None? ==>
                (pendingCompletion.Some? <==>
                   yielded.Event? && active.Some? && Waits(old(response), yielded.event, write))
      ensures old(pendingCompletion).None? && yielded.Event? && active.Some? ==>
                match yielded.event {
                  case TextDelta(text) => result == Ok(Some(Text(text))) && response == old(response) + text
                  case AgentMessageCompleted =>
                    if Blank(old(response)) then result == Err(EmptyAgentMessage) && response == old(response)
                    else
                      var message := Message(old(nextId), true, old(response));
                      && response == "" && pendingCompletion == (if write.Answers? then None else Some(message))
                      && result == if write.Answers? then Ok(Some(MessageCompleted(message))) else Err(FromStorage)
                  case PermissionRequested(id) => result == Ok(Some(Permission(id))) && response == old(response)
                  case TurnCompleted => result == Ok(Some(TurnDone)) && response == old(response)
                  case TurnFailed => result == Ok(Some(TurnLost)) && response == ""
                  case Disconnected => result == Ok(Some(Gone)) && response == ""
                  case SessionLost => result == Err(Lost) && response == ""
                  case StreamEnded => result == Ok(None) && response == ""
                }
      ensures emitted == if result.Ok? && result.value.Some? && result.value.value.MessageCompleted?
                         then old(emitted) + [result.value.value.message] else old(emitted)
      ensures result.Ok? && result.value.Some? && result.value.value.MessageCompleted? ==>
                Inbound(store) == emitted && pendingCompletion.None?
      ensures result == Err(EmptyAgentMessage) ==> response == old(response) && pendingCompletion.None?
      ensures old(pendingCompletion).None? && yielded.RuntimeError? ==> unchanged(this) && result == Err(FromRuntime)
      ensures old(pendingCompletion).None? && yielded.Event? && active.None? ==>
                && unchanged(this)
                && result == (if yielded.event.PermissionRequested? || yielded.event.TurnCompleted?
                              then Shown(yielded.event) else Err(NotOpen))
      ensures old(pendingCompletion).None? && yielded.Event? && active.Some? ==>
                if yielded.event.AgentMessageCompleted? && !Blank(old(response))
                then result.Err? <==> !write.Answers? else result == Shown(yielded.event)
    {
      hide Valid, Blank, Inbound, Bodies;
      if pendingCompletion.Some? {
        var persisted := PersistCompletion(write);
        return Wrap(persisted);
      }
      if yielded.RuntimeError? { return Err(FromRuntime); }
      var event := yielded.event;
      if active.None? {
        match event {
          case PermissionRequested(requestId) => return Ok(Some(Permission(requestId)));
          case TurnCompleted => return Ok(Some(TurnDone));
          case _ => return Err(NotOpen);
        }
      }
      if event.AgentMessageCompleted? && !Blank(response) {
        BeginCompletion();
        var persisted := PersistCompletion(write);
        return Wrap(persisted);
      }
      Observe(event);
      match event {
        case TextDelta(text) => result := Ok(Some(Text(text)));
        case AgentMessageCompleted => result := Err(EmptyAgentMessage);
        case PermissionRequested(requestId) => result := Ok(Some(Permission(requestId)));
        case TurnCompleted => result := Ok(Some(TurnDone));
        case TurnFailed => result := Ok(Some(TurnLost));
        case Disconnected => result := Ok(Some(Gone));
        case SessionLost => result := Err(Lost);
        case StreamEnded => result := Ok(None);
      }
    }

    function Wrap(persisted: Result<ChatEvent, Error>): (result: Result<Option<ChatEvent>, Error>) {
      match persisted
      case Ok(event) => Ok(Some(event))
      case Err(error) => Err(error)
    }

    /** An outgoing message is stored before it is sent, beside the agent's messages. */
    method SendMessage(content: string, write: Write, sends: bool) returns (result: Result<(), Error>)
      requires Valid()
      modifies `store, `nextId
      ensures Valid() && Inbound(store) == Inbound(old(store))
      ensures Blank(content) ==> result == Err(EmptyMessage) && store == old(store)
      ensures result == Err(EmptyMessage) <==> forall i :: 0 <= i < |content| ==> IsWhitespace(content[i])
      ensures result.Ok? <==> result != Err(EmptyMessage) && active.Some? && write.Answers? && sends
      ensures result.Ok? ==> active.Some? && store == old(store) + [Message(old(nextId), false, content)]
    {
      hide Gather, Bodies, Inbound, IsWhitespace, Stored, Completed, Below;
      if Blank(content) { return Err(EmptyMessage); }
      if active.None? { return Err(NotOpen); }
      var message := Message(nextId, false, content);
      OutboundKeeps(store, emitted, pendingCompletion, message);
      BelowNext(Completed(emitted, pendingCompletion), nextId);
      nextId := nextId + 1;
      if !write.ErrsUnwritten? { store := store + [message]; }
      if !write.Answers? { return Err(FromStorage); }
      result := if sends then Ok(()) else Err(FromRuntime);
    }

    /** Opening what is already open keeps the text; opening anything else beside it is refused. */
    method Activate(parties: Parties) returns (result: Result<(), Error>)
      requires Valid()
      modifies `active
      ensures Valid() && response == old(response)
      ensures result == if old(active).None? || old(active).value == parties then Ok(()) else Err(AlreadyOpen)
      ensures active == if old(active).None? then Some(parties) else old(active)
    {
      if active.Some? {
        return if active.value == parties then Ok(()) else Err(AlreadyOpen);
      }
      active := Some(parties);
      result := Ok(());
    }

    /** A pending message is persisted before the chat closes, or the chat stays open. */
    method Shutdown(write: Write, detaches: bool) returns (result: Result<(), Error>)
      requires Valid()
      modifies `active, `response, `pendingCompletion, `store, `read, `emitted
      ensures Valid()
      ensures result.Ok? ==> active.None? && pendingCompletion.None? && Bodies(Inbound(store)) == Gather(read).bodies
      ensures result.Err? ==> active == old(active) && response == old(response) && read == old(read)
    {
      hide Gather, Bodies, Inbound, Blank;
      if pendingCompletion.Some? {
        var persisted := PersistCompletion(write);
        if persisted.Err? { return Err(persisted.error); }
      }
      if !detaches { return Err(FromRuntime); }
      if active.Some? { Observe(StreamEnded); }
      active := None;
      result := Ok(());
    }

    /** Any sequence of events and failures of the store. What was read is exactly what the calls
        took of the incoming events, in order and none skipped; a call takes none while a message
        waits to be stored. The agent's messages emitted are the meaning of what was read, up to the
        one that waits. */
    method Chat(incoming: seq<Yielded>, writes: seq<Write>) returns (events: seq<ChatEvent>, taken: nat)
      requires Valid()
      modifies `response, `pendingCompletion, `nextId, `store, `read, `emitted
      ensures Valid() && emitted == old(emitted) + MessagesOf(events)
      ensures Progress(taken, pendingCompletion.Some?)
           == Play(Progress(0, old(pendingCompletion).Some?), old(read), active.Some?, incoming, writes)
      ensures read == old(read) + EventsOf(active.Some?, incoming[..taken])
      ensures Bodies(emitted) <= Gather(read).bodies && |Gather(read).bodies| <= |emitted| + 1
      ensures pendingCompletion.None? ==> Bodies(Inbound(store)) == Bodies(emitted) == Gather(read).bodies
    {
      events, taken := [], 0;
      ghost var was, said, pends := read, emitted, pendingCompletion.Some?;
      BeginChat(incoming, writes);
      hide Valid, Chatting, Play, EventsOf, Inbound, Bodies, Gather, MessagesOf;
      for i := 0 to |writes|
        invariant Chatting(was, said, pends, incoming, writes, i, events, taken)
      {
        events, taken := OneCall(was, said, pends, incoming, writes, i, events, taken);
      }
      EndChat(was, said, pends, incoming, writes, events, taken);
      Standing();
    }

    /** After the first `n` calls. */
    ghost predicate Chatting(was: seq<RuntimeEvent>, said: seq<Message>, pends: bool, incoming: seq<Yielded>,
                             writes: seq<Write>, n: nat, events: seq<ChatEvent>, taken: nat)
      reads this
    {
      && Valid() && n <= |writes| && taken <= |incoming| && emitted == said + MessagesOf(events)
      && Progress(taken, pendingCompletion.Some?)
         == Play(Progress(0, pends), was, active.Some?, incoming, writes[..n])
      && read == was + EventsOf(active.Some?, incoming[..taken])
    }

    lemma BeginChat(incoming: seq<Yielded>, writes: seq<Write>)
      requires Valid()
      ensures Chatting(read, emitted, pendingCompletion.Some?, incoming, writes, 0, [], 0)
    {
      hide Valid, Blank, Inbound, Bodies, Gather, PlayOne;
      NothingTaken(active.Some?, incoming);
      assert writes[..0] == [] && emitted + [] == emitted && read + [] == read;
    }

    lemma EndChat(was: seq<RuntimeEvent>, said: seq<Message>, pends: bool, incoming: seq<Yielded>, writes: seq<Write>,
                  events: seq<ChatEvent>, taken: nat)
      requires Chatting(was, said, pends, incoming, writes, |writes|, events, taken)
      ensures Valid() && taken <= |incoming| && emitted == said + MessagesOf(events)
      ensures Progress(taken, pendingCompletion.Some?) == Play(Progress(0, pends), was, active.Some?, incoming, writes)
      ensures read == was + EventsOf(active.Some?, incoming[..taken])
    {
      hide Valid, Play, EventsOf, MessagesOf;
      assert writes[..|writes|] == writes;
    }

    method OneCall(ghost was: seq<RuntimeEvent>, ghost said: seq<Message>, ghost pends: bool, incoming: seq<Yielded>,
                   writes: seq<Write>, n: nat, events: seq<ChatEvent>, taken: nat)
      returns (events': seq<ChatEvent>, taken': nat)
      requires n < |writes| && Chatting(was, said, pends, incoming, writes, n, events, taken)
      modifies `response, `pendingCompletion, `nextId, `store, `read, `emitted
      ensures Chatting(was, said, pends, incoming, writes, n + 1, events', taken')
    {
      hide Valid, Blank, Inbound, Bodies, Gather, PlayOne, EventsOf;
      assert writes[..n + 1][..n] == writes[..n];
      TextIsGathered();
      var event;
      events' := events;
      event, taken' := Call(incoming, taken, writes[n]);
      if event.Some? {
        MessagesMore(events, event.value);
        events' := events + [event.value];
      }
    }

    /** One call of `next_event`, with the incoming events from `taken` on ready to be read. */
    method Call(incoming: seq<Yielded>, taken: nat, write: Write) returns (event: Option<ChatEvent>, next: nat)
      requires Valid() && taken <= |incoming|
      modifies `response, `pendingCompletion, `nextId, `store, `read, `emitted
      ensures Valid() && taken <= next <= |incoming|
      ensures Progress(next, pendingCompletion.Some?)
           == PlayOne(Progress(taken, old(pendingCompletion).Some?), old(response), active.Some?, incoming, write)
      ensures forall before :: old(read) == before + EventsOf(active.Some?, incoming[..taken]) ==>
                read == before + EventsOf(active.Some?, incoming[..next])
      ensures emitted == if event.Some? && event.value.MessageCompleted? then old(emitted) + [event.value.message]
                 else old(emitted)
    {
      hide Valid, Blank, Inbound, Bodies, Gather, Waits, EventsOf;
      event, next := None, taken;
      if pendingCompletion.None? {
        if taken == |incoming| { return; }
        EventsMore(active.Some?, incoming, taken);
        next := taken + 1;
      }
      var yielded := if pendingCompletion.Some? then RuntimeError else incoming[taken];
      var result := NextEvent(yielded, write);
      if result.Ok? { event := result.value; }
    }

    lemma TextIsGathered()
      requires Valid()
      ensures Gather(read).open == response
    {
      hide Gather;
    }

    lemma Standing()
      requires Valid()
      ensures Bodies(emitted) <= Gather(read).bodies && |Gather(read).bodies| <= |emitted| + 1
      ensures pendingCompletion.None? ==> Bodies(Inbound(store)) == Bodies(emitted) == Gather(read).bodies
    {
      hide Gather, Inbound, Blank;
    }
  }

  function MessagesOf(events: seq<ChatEvent>): seq<Message> {
    if events == [] then []
    else
      var last := events[|events| - 1];
      MessagesOf(events[..|events| - 1]) + (if last.MessageCompleted? then [last.message] else [])
  }

  lemma MessagesMore(events: seq<ChatEvent>, event: ChatEvent)
    ensures MessagesOf(events + [event]) == MessagesOf(events)
           + (if event.MessageCompleted? then [event.message] else [])
  {
    assert (events + [event])[..|events|] == events;
  }
}
