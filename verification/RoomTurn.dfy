/** One Room turn of the client: the agents at work, the recipients that wait for a busy agent, the
    one startup under way, the queue of permission requests and cancellation. */
module RoomTurns {
  import opened Domain

  type MessageId = nat

  /** One mention of one published message. */
  datatype Recipient = Recipient(message: MessageId, target: AgentId)

  datatype Asked = Asked(owner: nat, request: PermissionRequest)

  datatype Reply = Reply(owner: nat, request: PermissionRequest, outcome: PermissionOutcome)

  datatype Startup = Activated | AlreadyTaken | Refused

  datatype Responded = Sent | Gone | Broken

  type RequestKey = (BindingId, string)

  function KeyOf(request: PermissionRequest): RequestKey {
    (request.session.binding, request.requestId)
  }

  /** What one `select!` of the turn yields. The indexes in `failing` are activations whose cancel
      fails, `Broken` a reply that could not be sent, `InputClosed` an input that ended or could not be
      read. */
  datatype Wake =
    | Started(startup: Startup)
    | SharedMessage(index: nat, message: MessageId, mentions: seq<AgentId>)
    | Progress(index: nat)
    | PermissionAsked(index: nat, request: PermissionRequest, responded: Responded)
    | Terminal(index: nat)
    | Line(number: Option<nat>, responded: Responded)
    | Answer(key: RequestKey, outcome: PermissionOutcome, responded: Responded)
    | CancelKey(failing: set<nat>)
    | CtrlC(failing: set<nat>)
    | InputClosed

  /** How a turn ends: by itself, at a failure, not yet for want of wakes, or because the next wake
      is none the turn waits for. */
  datatype End = Finished | Failed | StillRunning | NotAwaited

  // ---- Recipients ----

  /** The messages waiting for one target, in order. */
  function Only(target: AgentId, recipients: seq<Recipient>): seq<MessageId> {
    if recipients == [] then []
    else if recipients[0].target == target then [recipients[0].message] + Only(target, recipients[1..])
    else Only(target, recipients[1..])
  }

  lemma {:induction false} OnlyAppend(target: AgentId, a: seq<Recipient>, b: seq<Recipient>)
    ensures Only(target, a + b) == Only(target, a) + Only(target, b)
  {
    if a == [] {
      assert a + b == b;
    } else {
      assert (a + b)[1..] == a[1..] + b && (a + b)[0] == a[0];
      OnlyAppend(target, a[1..], b);
    }
  }

  lemma {:induction false} OnlyNone(target: AgentId, recipients: seq<Recipient>)
    requires forall r :: r in recipients ==> r.target != target
    ensures Only(target, recipients) == []
  {
    if recipients != [] {
      assert recipients[0] in recipients;
      OnlyNone(target, recipients[1..]);
    }
  }

  function Without(recipients: seq<Recipient>, position: nat): seq<Recipient>
    requires position < |recipients|
  {
    recipients[..position] + recipients[position + 1..]
  }

  /** Taking a recipient out of the middle keeps every target's order when no earlier one waits for
      the same target. */
  lemma TakeKeepsOrder(target: AgentId, started: seq<Recipient>, pending: seq<Recipient>, position: nat)
    requires position < |pending|
    requires forall r :: r in pending[..position] ==> r.target != pending[position].target
    ensures Only(target, started + [pending[position]]) + Only(target, Without(pending, position))
         == Only(target, started) + Only(target, pending)
  {
    hide Only;
    var a, x, b := pending[..position], pending[position], pending[position + 1..];
    assert pending == a + ([x] + b);
    OnlyAppend(target, a, [x] + b);
    OnlyAppend(target, [x], b);
    OnlyAppend(target, a, b);
    OnlyAppend(target, started, [x]);
    if target == x.target {
      OnlyNone(target, a);
    } else {
      OnlyNone(target, [x]);
    }
  }

  function Recipients(message: MessageId, mentions: seq<AgentId>): (rs: seq<Recipient>)
    ensures forall r :: r in rs <==> r.message == message && r.target in mentions
  {
    if mentions == [] then [] else [Recipient(message, mentions[0])] + Recipients(message, mentions[1..])
  }

  /** One recipient for each mention, in the order of the mentions. */
  lemma {:induction false} RecipientsInOrder(message: MessageId, mentions: seq<AgentId>)
    ensures |Recipients(message, mentions)| == |mentions|
    ensures forall i :: 0 <= i < |mentions| ==> Recipients(message, mentions)[i] == Recipient(message, mentions[i])
  {
    if mentions != [] { RecipientsInOrder(message, mentions[1..]); }
  }

  predicate Distinct(mentions: seq<AgentId>) {
    forall i, j :: 0 <= i < j < |mentions| ==> mentions[i] != mentions[j]
  }

  ghost predicate Once(recipients: seq<Recipient>) {
    forall r :: multiset(recipients)[r] <= 1
  }

  lemma {:induction false} RecipientsOnce(message: MessageId, mentions: seq<AgentId>)
    requires Distinct(mentions)
    ensures Once(Recipients(message, mentions))
  {
    var rs := Recipients(message, mentions);
    if mentions != [] {
      RecipientsOnce(message, mentions[1..]);
      assert rs == [rs[0]] + Recipients(message, mentions[1..]);
      forall r ensures multiset(rs)[r] <= 1 {
        if r == rs[0] {
          assert r !in Recipients(message, mentions[1..]);
        }
      }
    }
  }

  lemma OnceAppend(a: seq<Recipient>, b: seq<Recipient>)
    requires Once(a) && Once(b) && forall r :: r in a ==> r !in b
    ensures Once(a + b)
  {
    forall r ensures multiset(a + b)[r] <= 1 {
      if r in a { assert r !in b; }
    }
  }

  /** For every target: what was started, then what waits, is what arrived for it, in order. */
  ghost predicate Ordered(started: seq<Recipient>, waiting: seq<Recipient>, arrived: seq<Recipient>) {
    forall target :: Only(target, started) + Only(target, waiting) == Only(target, arrived)
  }

  /** Nothing is lost and no recipient is there twice. */
  ghost predicate Counted(started: seq<Recipient>, waiting: seq<Recipient>, arrived: seq<Recipient>) {
    multiset(started) + multiset(waiting) == multiset(arrived) && Once(arrived)
  }

  ghost predicate Queued(started: seq<Recipient>, waiting: seq<Recipient>, arrived: seq<Recipient>) {
    Ordered(started, waiting, arrived) && Counted(started, waiting, arrived)
  }

  lemma PickKeepsQueued(started: seq<Recipient>, pending: seq<Recipient>, arrived: seq<Recipient>, position: nat)
    requires Queued(started, pending, arrived) && position < |pending|
    requires forall r :: r in pending[..position] ==> r.target != pending[position].target
    ensures Queued(started + [pending[position]], Without(pending, position), arrived)
  {
    hide Only, Once;
    forall target ensures Only(target, started + [pending[position]]) + Only(target, Without(pending, position))
        == Only(target, arrived) {
      TakeKeepsOrder(target, started, pending, position);
    }
    assert pending == pending[..position] + [pending[position]] + pending[position + 1..];
  }

  lemma ArriveKeepsQueued(started: seq<Recipient>, pending: seq<Recipient>,
                          arrived: seq<Recipient>, news: seq<Recipient>)
    requires Queued(started, pending, arrived) && Once(news) && forall r :: r in arrived ==> r !in news
    ensures Queued(started, pending + news, arrived + news)
  {
    OnceAppend(arrived, news);
    hide Only, Once;
    forall target ensures Only(target, started) + Only(target, pending + news) == Only(target, arrived + news) {
      OnlyAppend(target, arrived, news);
      OnlyAppend(target, pending, news);
    }
  }

  // ---- What is displayed ----

  /** A shared message as one activation handed it over. */
  datatype Heard = Heard(index: nat, message: MessageId)

  function Ids(heard: seq<Heard>): seq<MessageId> {
    if heard == [] then [] else Ids(heard[..|heard| - 1]) + [heard[|heard| - 1].message]
  }

  /** What one activation handed over. */
  function From(index: nat, heard: seq<Heard>): seq<MessageId> {
    if heard == [] then []
    else
      var last := heard[|heard| - 1];
      From(index, heard[..|heard| - 1]) + (if last.index == index then [last.message] else [])
  }

  /** Each message where it first appears. */
  function FirstSeen(messages: seq<MessageId>): seq<MessageId> {
    if messages == [] then []
    else
      var before := FirstSeen(messages[..|messages| - 1]);
      if messages[|messages| - 1] in before then before else before + [messages[|messages| - 1]]
  }

  lemma HeardMore(heard: seq<Heard>, next: Heard)
    ensures Ids(heard + [next]) == Ids(heard) + [next.message]
    ensures FirstSeen(Ids(heard + [next]))
         == var before := FirstSeen(Ids(heard)); if next.message in before then before else before + [next.message]
  {
    assert (heard + [next])[..|heard|] == heard;
    assert (Ids(heard) + [next.message])[..|Ids(heard)|] == Ids(heard);
  }

  /** First appearances keep every message and repeat none. */
  lemma {:induction false} FirstSeenOnce(messages: seq<MessageId>)
    ensures forall m :: m in messages <==> m in FirstSeen(messages)
    ensures forall i, j :: 0 <= i < j < |FirstSeen(messages)| ==> FirstSeen(messages)[i] != FirstSeen(messages)[j]
  {
    if messages != [] {
      FirstSeenOnce(messages[..|messages| - 1]);
      assert messages == messages[..|messages| - 1] + [messages[|messages| - 1]];
    }
  }

  lemma {:induction false} FromIsHeard(index: nat, heard: seq<Heard>)
    ensures forall m :: m in From(index, heard) ==> m in Ids(heard)
  {
    if heard != [] { FromIsHeard(index, heard[..|heard| - 1]); }
  }

  lemma {:induction false} FromAll(index: nat, heard: seq<Heard>)
    requires forall h :: h in heard ==> h.index == index
    ensures From(index, heard) == Ids(heard)
  {
    if heard != [] {
      assert heard[|heard| - 1] in heard;
      FromAll(index, heard[..|heard| - 1]);
    }
  }

  // ---- Activations and permissions ----

  predicate AnyLive(activations: seq<Option<AgentId>>) {
    exists i :: 0 <= i < |activations| && activations[i].Some?
  }

  predicate IsLive(activations: seq<Option<AgentId>>, index: nat) {
    index < |activations| && activations[index].Some?
  }

  lemma FreeTarget(activations: seq<Option<AgentId>>, target: AgentId)
    requires !AnyLive(activations)
    ensures Some(target) !in activations
  {
  }

  /** No agent has two activations, or an activation and a startup. */
  predicate OnePerAgent(activations: seq<Option<AgentId>>, starting: Option<AgentId>) {
    && (forall i, j :: 0 <= i < j < |activations| && activations[i].Some? ==> activations[i] != activations[j])
    && (starting.Some? ==> starting !in activations)
  }

  function Retain(permissions: seq<Asked>, gone: set<nat>): (kept: seq<Asked>)
    ensures forall asked :: asked in kept <==> asked in permissions && asked.owner !in gone
    ensures permissions != [] && permissions[0].owner !in gone ==> kept != [] && kept[0] == permissions[0]
  {
    if permissions == [] then []
    else if permissions[0].owner in gone then Retain(permissions[1..], gone)
    else [permissions[0]] + Retain(permissions[1..], gone)
  }

  lemma {:induction false} RetainNone(permissions: seq<Asked>, gone: set<nat>)
    requires forall asked :: asked in permissions ==> asked.owner in gone
    ensures Retain(permissions, gone) == []
  {
    if permissions != [] {
      assert permissions[0] in permissions;
      RetainNone(permissions[1..], gone);
    }
  }

  /** What is retained keeps its order: a request at the end stays there unless its owner is gone. */
  lemma {:induction false} RetainAppend(permissions: seq<Asked>, asked: Asked, gone: set<nat>)
    ensures Retain(permissions + [asked], gone)
         == Retain(permissions, gone) + if asked.owner in gone then [] else [asked]
  {
    if permissions == [] {
      assert [] + [asked] == [asked];
    } else {
      assert (permissions + [asked])[1..] == permissions[1..] + [asked];
      RetainAppend(permissions[1..], asked, gone);
    }
  }

  ghost predicate Owned(permissions: seq<Asked>, activations: seq<Option<AgentId>>) {
    forall asked :: asked in permissions ==> IsLive(activations, asked.owner)
  }

  lemma OwnerIsLive(permissions: seq<Asked>, activations: seq<Option<AgentId>>)
    requires permissions != [] && Owned(permissions, activations)
    ensures AnyLive(activations)
  {
    assert permissions[0] in permissions;
  }

  /** A typed line chooses by the number in front of the option; anything else declines. */
  function Choice(number: Option<nat>, request: PermissionRequest): (outcome: PermissionOutcome)
    ensures outcome.Selected? ==> outcome.option in request.options
  {
    if number.Some? && 1 <= number.value <= |request.options| then Selected(request.options[number.value - 1])
    else Cancelled
  }

  // ---- What the wakes alone decide ----

  /** Everything in a turn but the choice of when a recipient starts: who is at work, who was asked
      to cancel, the queue of requests, the replies, what was heard and what has to be started. */
  datatype Past = Past(live: seq<bool>, gone: set<nat>, cancelled: bool, queue: seq<Asked>, replies: seq<Reply>,
                       heard: seq<Heard>, arrived: seq<Recipient>)

  function LiveIn(live: seq<bool>): set<nat> {
    set i | 0 <= i < |live| && live[i]
  }

  function Resolve(p: Past, outcome: PermissionOutcome): Past
    requires p.queue != []
  {
    p.(queue := p.queue[1..], replies := p.replies + [Reply(p.queue[0].owner, p.queue[0].request, outcome)])
  }

  function Heed(p: Past, wake: Wake): Past {
    match wake
    case Started(startup) => if startup.Activated? then p.(live := p.live + [true]) else p
    case SharedMessage(index, message, mentions) =>
      p.(heard := p.heard + [Heard(index, message)],
         arrived := p.arrived + (if message in Ids(p.heard) || p.cancelled then [] else Recipients(message, mentions)))
    case Progress(_) => p
    case PermissionAsked(index, request, _) =>
      if index in p.gone then p.(replies := p.replies + [Reply(index, request, Cancelled)])
      else p.(queue := p.queue + [Asked(index, request)])
    case Terminal(index) =>
      p.(live := if index < |p.live| then p.live[index := false] else p.live, queue := Retain(p.queue, {index}))
    case Line(number, _) => if p.queue == [] then p else Resolve(p, Choice(number, p.queue[0].request))
    case Answer(key, outcome, _) => if p.queue == [] || KeyOf(p.queue[0].request) != key then p else Resolve(p, outcome)
    case CancelKey(failing) =>
      var gone := p.gone + (LiveIn(p.live) - failing);
      p.(cancelled := true, gone := gone, queue := Retain(p.queue, gone))
    case CtrlC(_) => p.(cancelled := true, gone := p.gone + LiveIn(p.live), queue := [])
    case InputClosed => p
  }

  function HeedAll(p: Past, wakes: seq<Wake>): Past {
    if wakes == [] then p else Heed(HeedAll(p, wakes[..|wakes| - 1]), wakes[|wakes| - 1])
  }

  /** The wake ends the turn with an error: the input is gone, a reply that is needed cannot be sent,
      or an agent at work cannot be interrupted. */
  ghost predicate Breaks(p: Past, wake: Wake) {
    match wake
    case InputClosed => true
    case Line(_, responded) => p.queue != [] && responded.Broken?
    case Answer(key, _, responded) =>
      && p.queue != [] && (p.queue[0].request.session.binding, p.queue[0].request.requestId) == key
      && responded.Broken?
    case PermissionAsked(index, _, responded) => index in p.gone && responded.Broken?
    case CtrlC(failing) => exists i :: 0 <= i < |p.live| && p.live[i] && i in failing
    case _ => false
  }

  /** What the turn waits for: its agents at work, a startup under way, an interrupt until it is
      cancelled, and the user while there is a terminal or a request to answer. */
  ghost predicate Awaited(p: Past, wake: Wake, tui: bool) {
    match wake
    case Started(_) => true  // of a startup under way
    case SharedMessage(index, _, _) => index < |p.live| && p.live[index]
    case Progress(index) => index < |p.live| && p.live[index]
    case PermissionAsked(index, _, _) => index < |p.live| && p.live[index]
    case Terminal(index) => index < |p.live| && p.live[index]
    case CtrlC(_) => !p.cancelled
    case Line(_, _) => tui || p.queue != []
    case Answer(_, _, _) => tui || p.queue != []
    case CancelKey(_) => tui || p.queue != []
    case InputClosed => tui || p.queue != []
  }

  /** Each of these wakes was awaited when it was taken, and none of them ended the turn. */
  ghost predicate Survived(p: Past, wakes: seq<Wake>, tui: bool) {
    forall i :: 0 <= i < |wakes| ==>
      Awaited(HeedAll(p, wakes[..i]), wakes[i], tui) && !Breaks(HeedAll(p, wakes[..i]), wakes[i])
  }

  /** What a typed line does, spelled out. */
  lemma LineHeeded(p: Past, number: Option<nat>, responded: Responded)
    ensures p.queue == [] ==> Heed(p, Line(number, responded)) == p
    ensures p.queue != [] ==>
              var Asked(owner, request) := p.queue[0];
              var outcome := if number.Some? && 1 <= number.value <= |request.options|
                             then Selected(request.options[number.value - 1]) else Cancelled;
              Heed(p, Line(number, responded))
              == p.(queue := p.queue[1..], replies := p.replies + [Reply(owner, request, outcome)])
    ensures Breaks(p, Line(number, responded)) <==> p.queue != [] && responded.Broken?
  {
  }

  lemma KeyBreaksNothing(p: Past, wake: Wake)
    requires wake.CancelKey?
    ensures !Breaks(p, wake)
  {
  }

  lemma NothingRead(p: Past, tui: bool)
    ensures forall wakes: seq<Wake> :: wakes[..0] == [] && HeedAll(p, wakes[..0]) == p && Survived(p, wakes[..0], tui)
  {
  }

  /** No wake that was survived closed the input. */
  lemma ClosedInputEnds(p: Past, wakes: seq<Wake>, tui: bool)
    requires Survived(p, wakes, tui)
    ensures forall wake :: wake in wakes ==> !wake.InputClosed?
  {
  }

  lemma OneMoreRead(p: Past, wakes: seq<Wake>, wake: Wake, tui: bool)
    requires Survived(p, wakes, tui)
    requires Awaited(HeedAll(p, wakes), wake, tui) && !Breaks(HeedAll(p, wakes), wake)
    ensures HeedAll(p, wakes + [wake]) == Heed(HeedAll(p, wakes), wake) && Survived(p, wakes + [wake], tui)
  {
    hide Awaited, Breaks, Survived, Heed;
    assert (wakes + [wake])[..|wakes|] == wakes;
    SurvivedMore(p, wakes, wake, tui);
  }

  lemma SurvivedMore(p: Past, wakes: seq<Wake>, wake: Wake, tui: bool)
    requires Survived(p, wakes, tui)
    requires Awaited(HeedAll(p, wakes), wake, tui) && !Breaks(HeedAll(p, wakes), wake)
    ensures Survived(p, wakes + [wake], tui)
  {
    hide HeedAll, Awaited, Breaks;
    var all := wakes + [wake];
    assert all[..|wakes|] == wakes;
    forall i | 0 <= i < |wakes| ensures all[..i] == wakes[..i] && all[i] == wakes[i] {}
  }

  function LiveFlags(activations: seq<Option<AgentId>>): (live: seq<bool>)
    ensures |live| == |activations| && forall i | 0 <= i < |live| :: live[i] == activations[i].Some?
  {
    seq(|activations|, i requires 0 <= i < |activations| => activations[i].Some?)
  }

  lemma LiveFlagsMore(activations: seq<Option<AgentId>>, agent: Option<AgentId>)
    requires agent.Some?
    ensures LiveFlags(activations + [agent]) == LiveFlags(activations) + [true]
  {
  }

  lemma LiveFlagsLess(activations: seq<Option<AgentId>>, index: nat)
    requires index < |activations|
    ensures LiveFlags(activations[index := None]) == LiveFlags(activations)[index := false]
  {
  }

  class RoomTurn {
    var activations: seq<Option<AgentId>>
    var permissions: seq<Asked>
    var shown: bool
    var cancelled: bool
    var cancelledAgents: set<nat>
    var publications: set<MessageId>
    var pending: seq<Recipient>
    var starting: Option<AgentId>

    /** Every recipient that was queued, that a startup was begun for, and that a cancellation dropped. */
    ghost var arrived: seq<Recipient>
    ghost var started: seq<Recipient>
    ghost var dropped: seq<Recipient>
    /** What had been started when the turn was first cancelled. */
    ghost var frozen: Option<seq<Recipient>>
    /** Every agent at work has been asked to cancel. */
    ghost var everyone: bool
    ghost var heard: seq<Heard>
    ghost var displayed: seq<MessageId>
    ghost var screen: Option<Asked>
    ghost var replies: seq<Reply>

    ghost function History(): Past
      reads `activations, `cancelledAgents, `cancelled, `permissions, `replies, `heard, `arrived
    {
      Past(LiveFlags(activations), cancelledAgents, cancelled, permissions, replies, heard, arrived)
    }

    ghost predicate Shown()
      reads `publications, `displayed, `arrived, `heard
    {
      && (forall message :: message in publications <==> message in displayed)
      && displayed == FirstSeen(Ids(heard))
      && (forall r :: r in arrived ==> r.message in publications)
    }

    ghost predicate Prompted()
      reads `permissions, `activations, `shown, `screen
    {
      && Owned(permissions, activations)
      && (shown ==> permissions != [] && screen == Some(permissions[0]))
    }

    ghost predicate Stopped()
      reads this
    {
      && (cancelled ==> pending == [] && starting.None? && frozen == Some(started))
      && (!cancelled ==> dropped == [])
      && (everyone ==> cancelled && permissions == [] && forall i | 0 <= i < |activations| :: activations[i].Some? ==>
          i in cancelledAgents)
    }

    ghost predicate Valid()
      reads this
    {
      OnePerAgent(activations, starting) && Queued(started, pending + dropped, arrived)
      && Shown() && Prompted() && Stopped()
    }

    constructor (agents: seq<AgentId>)
      requires Distinct(agents)
      ensures Valid() && !cancelled && pending == [] && starting.None? && replies == [] && arrived == []
      ensures |activations| == |agents| && forall i | 0 <= i < |agents| :: activations[i] == Some(agents[i])
    {
      activations := seq(|agents|, i requires 0 <= i < |agents| => Some(agents[i]));
      permissions, shown, cancelled, cancelledAgents, publications := [], false, false, {}, {};
      pending, starting := [], None;
      arrived, started, dropped, frozen, everyone, heard, displayed, screen, replies := [], [], [], None, false, [],
          [], None, [];
    }

    // ---- Before the select ----

    /** The first recipient whose agent has no activation. */
    method NextRecipient() returns (position: Option<nat>)
      ensures position.None? ==> forall r :: r in pending ==> Some(r.target) in activations
      ensures position.Some? ==>
                && position.value < |pending| && Some(pending[position.value].target) !in activations
                && forall r :: r in pending[..position.value] ==> Some(r.target) in activations
    {
      var i := 0;
      while i < |pending|
        invariant 0 <= i <= |pending|
        invariant forall r :: r in pending[..i] ==> Some(r.target) in activations
      {
        if Some(pending[i].target) !in activations { return Some(i); }
        i := i + 1;
      }
      assert pending[..i] == pending;
      position := None;
    }

    /** A waiting recipient starts as soon as its agent is free and nothing else is starting; others
        may overtake it, but not another message for the same agent. */
    method PickRecipient() returns (position: Option<nat>)
      requires Valid()
      modifies `pending, `starting, `started
      ensures Valid() && old(started) <= started
      ensures position.None? ==> unchanged(this)
      ensures position.None? && starting.None? ==> forall r :: r in pending ==> Some(r.target) in activations
      ensures position.Some? ==>
                && old(starting).None? && !cancelled && position.value < |old(pending)|
                && var picked := old(pending)[position.value];
                   && (forall r :: r in old(pending)[..position.value] ==> Some(r.target) in activations)
                   && Some(picked.target) !in activations
                   && starting == Some(picked.target) && started == old(started) + [picked]
                   && pending == Without(old(pending), position.value)
    {
      if starting.Some? { return None; }
      position := NextRecipient();
      if position.Some? {
        var p := position.value;
        assert pending + dropped == pending && Without(pending, p) + dropped == Without(pending, p);
        PickKeepsQueued(started, pending, arrived, p);
        hide Queued;
        starting := Some(pending[p].target);
        started := started + [pending[p]];
        pending := pending[..p] + pending[p + 1..];
      }
    }

    /** Puts the first queued request on the screen. */
    method Prompt()
      requires Valid()
      modifies `shown, `screen
      ensures Valid() && (permissions != [] ==> shown) && (old(shown) ==> screen == old(screen))
    {
      if !shown && permissions != [] {
        screen := Some(permissions[0]);
        shown := true;
      }
    }

    // ---- The arms ----

    method OnStarted(startup: Startup)
      requires Valid() && starting.Some?
      modifies `starting, `activations
      ensures Valid() && starting.None?
      ensures activations == if startup.Activated? then old(activations) + [old(starting)] else old(activations)
    {
      if startup.Activated? { activations := activations + [starting]; }
      starting := None;
    }

    method OnShared(index: nat, message: MessageId, mentions: seq<AgentId>)
      requires Valid() && Distinct(mentions)
      modifies `publications, `heard, `displayed, `pending, `arrived
      ensures Valid() && heard == old(heard) + [Heard(index, message)]
      ensures displayed == if message in old(displayed) then old(displayed) else old(displayed) + [message]
      ensures var news := if message in old(displayed) || cancelled then [] else Recipients(message, mentions);
              pending == old(pending) + news && arrived == old(arrived) + news
    {
      HeardMore(heard, Heard(index, message));
      hide Queued, Once, Ids, FirstSeen;
      heard := heard + [Heard(index, message)];
      if message in publications { return; }
      publications := publications + {message};
      displayed := displayed + [message];
      if !cancelled {
        var news := Recipients(message, mentions);
        assert pending + dropped == pending && (pending + news) + dropped == pending + news;
        RecipientsOnce(message, mentions);
        ArriveKeepsQueued(started, pending, arrived, news);
        pending := pending + news;
        arrived := arrived + news;
      }
    }

    method OnPermission(index: nat, request: PermissionRequest, responded: Responded) returns (ok: bool)
      requires Valid() && IsLive(activations, index)
      modifies `permissions, `replies
      ensures Valid()
      ensures index in cancelledAgents ==>
                permissions == old(permissions) && replies == old(replies) + [Reply(index, request, Cancelled)]
      ensures index !in cancelledAgents ==>
                permissions == old(permissions) + [Asked(index, request)] && replies == old(replies)
      ensures ok <==> index in cancelledAgents ==> !responded.Broken?
    {
      if index in cancelledAgents {
        replies := replies + [Reply(index, request, Cancelled)];
        return !responded.Broken?;
      }
      permissions := permissions + [Asked(index, request)];
      ok := true;
    }

    method OnTerminal(index: nat)
      requires Valid() && IsLive(activations, index)
      modifies `activations, `permissions, `shown
      ensures Valid()
      ensures activations == old(activations)[index := None] && permissions == Retain(old(permissions), {index})
      ensures shown ==> old(shown) && old(permissions)[0].owner != index
    {
      hide Queued, Shown;
      activations := activations[index := None];
      if permissions != [] && permissions[0].owner == index { shown := false; }
      permissions := Retain(permissions, {index});
    }

    /** An answer reaches the request it names only while that is the first of the queue. */
    method Respond(key: RequestKey, outcome: PermissionOutcome, responded: Responded) returns (ok: bool)
      requires Valid()
      modifies `permissions, `shown, `replies
      ensures ok ==> Valid()
      ensures var front := if old(permissions) == [] then None else Some(old(permissions)[0].request);
              var answered := front.Some? && (front.value.session.binding, front.value.requestId) == key;
              && (ok <==> answered ==> !responded.Broken?)
              && permissions == (if answered then old(permissions)[1..] else old(permissions))
              && replies == (if answered then old(replies) + [Reply(old(permissions)[0].owner,
                  old(permissions)[0].request, outcome)] else old(replies))
              && (!answered ==> shown == old(shown))
    {
      if permissions == [] || KeyOf(permissions[0].request) != key { return true; }
      var front := permissions[0];
      permissions := permissions[1..];
      replies := replies + [Reply(front.owner, front.request, outcome)];
      if responded.Broken? { return false; }
      shown := false;
      ok := true;
    }

    /** A typed line answers the request on the screen, whichever agent it belongs to: the number of
        an option selects it, anything else declines. */
    method OnLine(number: Option<nat>, responded: Responded) returns (ok: bool)
      requires Valid() && (permissions != [] ==> shown)
      modifies `permissions, `shown, `replies
      ensures ok ==> Valid()
      ensures old(permissions) == [] ==> ok && unchanged(this)
      ensures old(permissions) != [] ==>
                && old(screen).Some?
                && var asked := old(screen).value;
                   var options := asked.request.options;
                   && old(permissions) == [asked] + permissions && permissions == old(permissions)[1..]
                   && replies == old(replies) + [Reply(
                        asked.owner, asked.request,
                        if number.Some? && 1 <= number.value <= |options| then Selected(options[number.value - 1])
                        else Cancelled)]
                   && (ok <==> !responded.Broken?)
    {
      if permissions == [] { return true; }
      var front := permissions[0];
      ok := Respond(KeyOf(front.request), Choice(number, front.request), responded);
    }

    // ---- Cancellation ----

    /** Nothing waits or starts any more. */
    method Stop()
      requires Valid()
      modifies `cancelled, `pending, `starting, `dropped, `frozen
      ensures Valid() && cancelled && started == old(started)
    {
      hide Queued, Shown;
      assert pending + dropped == [] + (pending + dropped);
      cancelled := true;
      dropped := pending + dropped;
      pending := [];
      starting := None;
      frozen := Some(started);
    }

    ghost function Live(): set<nat>
      reads `activations
    {
      set i | 0 <= i < |activations| && activations[i].Some?
    }

    /** Asks every agent at work to cancel; `strict` gives up at the first failure. */
    method CancelLive(failing: set<nat>, strict: bool) returns (ok: bool)
      requires Valid()
      modifies `cancelledAgents
      ensures Valid()
      ensures ok <==> Live() !! failing
      ensures ok || !strict ==> cancelledAgents == old(cancelledAgents) + (Live() - failing)
      ensures old(cancelledAgents) <= cancelledAgents <= old(cancelledAgents) + (Live() - failing)
    {
      hide Queued, OnePerAgent, Shown, Prompted;
      ok := true;
      var i := 0;
      while i < |activations|
        invariant 0 <= i <= |activations|
        invariant ok <==> forall k | 0 <= k < i :: activations[k].Some? ==> k !in failing
        invariant cancelledAgents == old(cancelledAgents)
                  + (set k | 0 <= k < i && activations[k].Some? && k !in failing)
      {
        if activations[i].Some? {
          if i in failing {
            ok := false;
            if strict { return; }
          } else {
            cancelledAgents := cancelledAgents + {i};
          }
        }
        i := i + 1;
      }
    }

    ghost method Confirm()
      requires Valid() && cancelled && permissions == [] && Live() <= cancelledAgents
      modifies `everyone
      ensures Valid() && everyone
    {
      hide Queued, OnePerAgent, Shown, Prompted;
      everyone := true;
    }

    /** The requests of agents that were asked to cancel leave the queue. */
    method DismissCancelled()
      requires Valid() && cancelled
      modifies `permissions, `shown, `everyone
      ensures Valid() && !shown && permissions == Retain(old(permissions), cancelledAgents)
      ensures everyone <==> old(everyone) || Live() <= cancelledAgents
    {
      if Live() <= cancelledAgents {
        assert forall asked :: asked in permissions ==> asked.owner in Live();
        RetainNone(permissions, cancelledAgents);
      }
      hide Queued, OnePerAgent, Shown, Retain;
      permissions := Retain(permissions, cancelledAgents);
      shown := false;
      everyone := everyone || Live() <= cancelledAgents;
    }

    /** The cancel key: requests of agents that were reached are dismissed; an agent whose cancel
        failed keeps its requests. */
    method OnCancel(failing: set<nat>)
      requires Valid()
      modifies `cancelled, `pending, `starting, `dropped, `frozen, `cancelledAgents, `permissions, `shown, `everyone
      ensures Valid() && cancelled && !shown
      ensures cancelledAgents == old(cancelledAgents) + (Live() - failing)
      ensures permissions == Retain(old(permissions), cancelledAgents)
      ensures Live() !! failing ==> everyone
    {
      hide Valid;
      Stop();
      var _ := CancelLive(failing, false);
      DismissCancelled();
    }

    method OnCtrlC(failing: set<nat>) returns (ok: bool)
      requires Valid()
      modifies `cancelled, `pending, `starting, `dropped, `frozen, `cancelledAgents, `permissions, `shown, `everyone
      ensures Valid() && cancelled
      ensures ok <==> Live() !! failing
      ensures ok ==> permissions == [] && everyone && cancelledAgents == old(cancelledAgents) + Live()
    {
      hide Queued, OnePerAgent, Shown;
      Stop();
      ok := CancelLive(failing, true);
      if !ok { return; }
      permissions := [];
      shown := false;
      everyone := true;
    }

    // ---- The whole turn ----

    /** What the `select!` waits for in this state. */
    predicate CanWake(wake: Wake, tui: bool)
      reads `activations, `starting, `permissions, `cancelled
    {
      match wake
      case Started(_) => starting.Some?
      case SharedMessage(index, _, _) => IsLive(activations, index)
      case Progress(index) => IsLive(activations, index)
      case PermissionAsked(index, _, _) => IsLive(activations, index)
      case Terminal(index) => IsLive(activations, index)
      case CtrlC(_) => !cancelled
      case _ => tui || permissions != []
    }

    lemma MessagesHeard()
      requires Valid()
      ensures forall message :: message in displayed <==> message in Ids(heard)
    {
      FirstSeenOnce(Ids(heard));
      hide Ids, FirstSeen, Queued, OnePerAgent;
    }

    method HeedStarted(startup: Startup)
      requires Valid() && starting.Some?
      modifies `starting, `activations
      ensures Valid() && History() == Heed(old(History()), Started(startup))
    {
      if startup.Activated? { LiveFlagsMore(activations, starting); }
      hide Valid, LiveFlags;
      OnStarted(startup);
    }

    method HeedShared(index: nat, message: MessageId, mentions: seq<AgentId>)
      requires Valid() && Distinct(mentions)
      modifies `publications, `heard, `displayed, `pending, `arrived
      ensures Valid() && History() == Heed(old(History()), SharedMessage(index, message, mentions))
    {
      MessagesHeard();
      hide Valid, LiveFlags, Recipients, Ids;
      OnShared(index, message, mentions);
    }

    method HeedTerminal(index: nat)
      requires Valid() && IsLive(activations, index)
      modifies `activations, `permissions, `shown
      ensures Valid() && History() == Heed(old(History()), Terminal(index))
    {
      LiveFlagsLess(activations, index);
      hide Valid, LiveFlags, Retain;
      OnTerminal(index);
    }

    method HeedPermission(index: nat, request: PermissionRequest, responded: Responded) returns (ok: bool)
      requires Valid() && IsLive(activations, index)
      modifies `permissions, `replies
      ensures Valid() && History() == Heed(old(History()), PermissionAsked(index, request, responded))
      ensures ok <==> !Breaks(old(History()), PermissionAsked(index, request, responded))
    {
      hide Valid, LiveFlags;
      ok := OnPermission(index, request, responded);
    }

    /** An event of one activation, or the startup under way. */
    method OnEvent(wake: Wake) returns (ok: bool)
      requires Valid() && CanWake(wake, false)
      requires wake.Started? || wake.SharedMessage? || wake.Progress? || wake.PermissionAsked? || wake.Terminal?
      requires wake.SharedMessage? ==> Distinct(wake.mentions)
      modifies `activations, `permissions, `shown, `publications, `pending, `starting, `arrived,
               `heard, `displayed, `replies
      ensures Valid() && History() == Heed(old(History()), wake)
      ensures ok <==> !Breaks(old(History()), wake)
    {
      NoProgress(History());
      hide Valid, History, Heed;
      ok := true;
      match wake {
        case Started(startup) => HeedStarted(startup);
        case SharedMessage(index, message, mentions) => HeedShared(index, message, mentions);
        case PermissionAsked(index, request, responded) => ok := HeedPermission(index, request, responded);
        case Terminal(index) => HeedTerminal(index);
        case _ =>
      }
    }

    lemma NoProgress(p: Past)
      ensures forall index :: Heed(p, Progress(index)) == p
    {
    }

    lemma LiveIsFlagged()
      ensures Live() == LiveIn(LiveFlags(activations))
    {
    }

    method HeedLine(number: Option<nat>, responded: Responded) returns (ok: bool)
      requires Valid() && (permissions != [] ==> shown)
      modifies `permissions, `shown, `replies
      ensures ok ==> Valid() && History() == Heed(old(History()), Line(number, responded))
      ensures ok <==> !Breaks(old(History()), Line(number, responded))
      ensures old(permissions) != [] ==> Resolves(old(permissions), number, old(replies))
    {
      if shown { FrontOnScreen(); }
      LineHeeded(History(), number, responded);
      hide Valid, LiveFlags, Heed, Breaks;
      ok := OnLine(number, responded);
    }

    method HeedAnswer(key: RequestKey, outcome: PermissionOutcome, responded: Responded) returns (ok: bool)
      requires Valid()
      modifies `permissions, `shown, `replies
      ensures ok ==> Valid() && History() == Heed(old(History()), Answer(key, outcome, responded))
      ensures ok <==> !Breaks(old(History()), Answer(key, outcome, responded))
    {
      hide Valid, LiveFlags;
      ok := Respond(key, outcome, responded);
    }

    lemma FrontOnScreen()
      requires Valid() && shown
      ensures permissions != [] && screen == Some(permissions[0])
    {
    }

    method HeedCancel(wake: Wake) returns (ok: bool)
      requires Valid() && (wake.CancelKey? || wake.CtrlC?)
      modifies `permissions, `shown, `cancelled, `pending, `starting, `dropped, `frozen, `cancelledAgents, `everyone
      ensures Valid() && cancelled
      ensures ok ==> History() == Heed(old(History()), wake)
      ensures ok <==> !Breaks(old(History()), wake)
    {
      LiveIsFlagged();
      if wake.CtrlC? { InterruptBreaks(wake.failing); }
      hide Valid, LiveFlags, LiveIn, Live, Retain, Breaks;
      ok := true;
      if wake.CancelKey? {
        KeyBreaksNothing(History(), wake);
        OnCancel(wake.failing);
      } else {
        ok := OnCtrlC(wake.failing);
      }
    }

    lemma InterruptBreaks(failing: set<nat>)
      ensures Breaks(History(), CtrlC(failing)) <==> !(Live() !! failing)
    {
      var live := LiveFlags(activations);
      if i :| i in Live() && i in failing { assert live[i]; }
    }

    /** A line, an answer or a key of the user. */
    method OnControl(wake: Wake) returns (ok: bool)
      requires Valid() && (permissions != [] ==> shown)
      requires wake.Line? || wake.Answer? || wake.CancelKey? || wake.CtrlC? || wake.InputClosed?
      modifies `permissions, `shown, `replies, `cancelled, `pending, `starting, `dropped, `frozen, `cancelledAgents,
          `everyone
      ensures ok ==> Valid() && History() == Heed(old(History()), wake)
      ensures old(cancelled) ==> cancelled
      ensures ok <==> !Breaks(old(History()), wake)
      ensures wake.Line? && old(permissions) != [] ==> Resolves(old(permissions), wake.number, old(replies))
    {
      hide Valid, History, Heed, Resolves;
      if wake.InputClosed? {
        ok := false;
      } else if wake.CancelKey? || wake.CtrlC? {
        ok := HeedCancel(wake);
      } else if wake.Line? {
        ok := HeedLine(wake.number, wake.responded);
      } else {
        ok := HeedAnswer(wake.key, wake.outcome, wake.responded);
      }
    }

    /** The line was the answer to the request on the screen, and that one left the queue. */
    ghost predicate Resolves(queue: seq<Asked>, number: Option<nat>, before: seq<Reply>)
      requires queue != []
      reads `screen, `permissions, `replies
    {
      && screen == Some(queue[0]) && queue == [queue[0]] + permissions
      && var options := queue[0].request.options;
      replies == before + [Reply(queue[0].owner, queue[0].request,
                                 if number.Some? && 1 <= number.value <= |options|
                                 then Selected(options[number.value - 1]) else Cancelled)]
    }

    /** One wake; it never begins a startup and never takes a cancellation back. */
    method OnWake(wake: Wake, tui: bool) returns (ok: bool)
      requires Valid() && CanWake(wake, tui) && (permissions != [] ==> shown)
      requires wake.SharedMessage? ==> Distinct(wake.mentions)
      modifies this
      ensures ok ==> Valid() && History() == Heed(old(History()), wake)
      ensures started == old(started) && (old(cancelled) ==> cancelled)
      ensures ok <==> !Breaks(old(History()), wake)
      ensures wake.Line? && old(permissions) != [] ==> Resolves(old(permissions), wake.number, old(replies))
    {
      hide Valid, Resolves, Heed, History;
      if wake.Line? || wake.Answer? || wake.CancelKey? || wake.CtrlC? || wake.InputClosed? {
        ok := OnControl(wake);
      } else {
        ok := OnEvent(wake);
      }
    }

    predicate Busy()
      reads `activations, `pending, `starting
    {
      AnyLive(activations) || pending != [] || starting.Some?
    }

    /** Everything above the `select!`. Without an activation or a startup nothing can be waiting,
        so going round again ends the turn. */
    method BeforeSelect() returns (again: bool)
      requires Valid()
      modifies `pending, `starting, `started, `shown, `screen
      ensures Valid() && old(started) <= started && (cancelled ==> started == old(started))
      ensures History() == old(History())
      ensures again <==> !AnyLive(activations) && starting.None?
      ensures again ==> !Busy()
      ensures !again ==> (permissions != [] ==> shown)
      ensures !again ==> starting.Some? || forall r :: r in pending ==> Some(r.target) in activations
    {
      hide AnyLive, Valid, Without;
      ClearWhenCancelled();
      var _ := PickRecipient();
      again := !AnyLive(activations) && starting.None?;
      if again {
        if pending != [] { FreeTarget(activations, pending[0].target); }
      } else {
        Prompt();
      }
    }

    method ClearWhenCancelled()
      requires Valid()
      modifies `pending, `starting
      ensures Valid() && pending == old(pending) && starting == old(starting)
      ensures cancelled ==> pending == [] && starting.None?
    {
      if cancelled {
        pending := [];
        starting := None;
      }
    }

    method InitialCancel(failing: set<nat>) returns (ok: bool)
      requires Valid() && permissions == [] && pending == [] && starting.None?
      modifies `cancelledAgents, `cancelled, `pending, `starting, `dropped, `frozen, `everyone
      ensures Valid() && started == old(started)
      ensures ok <==> Live() !! failing
      ensures ok ==> cancelled && everyone
    {
      hide Valid;
      ok := CancelLive(failing, true);
      if !ok { return; }
      Stop();
      Confirm();
    }

    /** Up to the wakes that were read, the turn is what these wakes make of it, each awaited, taken in
        order and none skipped; it stops reading only when it ends, does not wait for the next one, or
        fails, and it fails exactly at the first wake that must end it. A turn that ends by itself has
        started every recipient that arrived, each once and each agent's in the order they arrived,
        unless it was cancelled; then nothing was started since. */
    method Drain(wakes: seq<Wake>, tui: bool) returns (end: End, read: nat)
      requires Valid()
      requires forall wake :: wake in wakes && wake.SharedMessage? ==> Distinct(wake.mentions)
      modifies this
      ensures read <= |wakes|
      ensures !end.Failed? ==> Valid() && History() == HeedAll(old(History()), wakes[..read])
      ensures !end.Failed? ==> Survived(old(History()), wakes[..read], tui)
      ensures !end.Failed? ==> forall wake :: wake in wakes[..read] ==> !wake.InputClosed?
      ensures end.Failed? ==>
                && read > 0 && Survived(old(History()), wakes[..read - 1], tui)
                && Awaited(HeedAll(old(History()), wakes[..read - 1]), wakes[read - 1], tui)
                && Breaks(HeedAll(old(History()), wakes[..read - 1]), wakes[read - 1])
      ensures end.StillRunning? ==> read == |wakes| && Busy()
      ensures end.NotAwaited? ==>
                && read < |wakes|
                && (!Awaited(History(), wakes[read], tui) || (wakes[read].Started? && starting.None?))
      ensures end.StillRunning? || end.NotAwaited? ==>
                && (permissions != [] ==> shown)
                && (starting.Some? || forall r :: r in pending ==> Some(r.target) in activations)
      ensures end.Finished? ==>
                && (forall i :: 0 <= i < |activations| ==> activations[i].None?)
                && pending == [] && starting.None? && permissions == []
      ensures end.Finished? && !cancelled ==> forall target :: Only(target, started) == Only(target, arrived)
      ensures !end.Failed? && cancelled ==> frozen == Some(started)
      ensures !end.Failed? ==> Once(started) && displayed == FirstSeen(Ids(heard))
      ensures old(started) <= started && (old(cancelled) ==> cancelled && started == old(started))
    {
      hide Valid, Heed, History, CanWake, Breaks, Awaited, Survived;
      ghost var p := History();
      read := 0;
      NothingRead(p, tui);
      while Busy()
        invariant 0 <= read <= |wakes| && Valid()
        invariant History() == HeedAll(p, wakes[..read]) && Survived(p, wakes[..read], tui)
        invariant old(started) <= started && (old(cancelled) ==> cancelled && started == old(started))
        decreases |wakes| - read, Busy()
      {
        var again := BeforeSelect();
        if again { continue; }
        AtEveryPoint();
        ClosedInputEnds(p, wakes[..read], tui);
        if read == |wakes| { return StillRunning, read; }
        IsAwaited(wakes[read], tui);
        if !CanWake(wakes[read], tui) { return NotAwaited, read; }
        assert wakes[read] in wakes && wakes[..read + 1] == wakes[..read] + [wakes[read]];
        var ok := OnWake(wakes[read], tui);
        read := read + 1;
        if !ok { return Failed, read; }
        OneMoreRead(p, wakes[..read - 1], wakes[read - 1], tui);
      }
      AtEveryPoint();
      ClosedInputEnds(p, wakes[..read], tui);
      AtTheEnd();
      end := Finished;
    }

    /** What the code waits for is what the past says it waits for. */
    lemma IsAwaited(wake: Wake, tui: bool)
      ensures CanWake(wake, tui) <==> Awaited(History(), wake, tui) && (wake.Started? ==> starting.Some?)
    {
    }

    lemma AtEveryPoint()
      requires Valid()
      ensures cancelled ==> frozen == Some(started)
      ensures Once(started) && displayed == FirstSeen(Ids(heard))
    {
      hide Only;
      forall r ensures multiset(started)[r] <= 1 {
        assert multiset(arrived)[r] <= 1;
      }
    }

    lemma AtTheEnd()
      requires Valid() && !Busy()
      ensures permissions == []
      ensures !cancelled ==> forall target :: Only(target, started) == Only(target, arrived)
    {
      hide OnePerAgent, Shown, Counted, Once;
      if permissions != [] { OwnerIsLive(permissions, activations); }
      if !cancelled {
        forall target ensures Only(target, started) == Only(target, arrived) {
          assert pending + dropped == [];
          assert Only(target, pending + dropped) == [];
        }
      }
    }
  }
}
