/** One Room activation with what surrounds it: the messaging scope that reserves a permit before
    a publication is committed, the storage worker that applies jobs one by one, the cleanup task,
    and the activation's own cancellable `next_event`. */
module RoomMachine {
  import opened Domain

  const PUBLICATION_CAPACITY: nat := 64

  type MessageId = nat

  datatype Outcome = Completed | WasCancelled | Failed(reason: string) | Broken

  datatype Activity = Working | ToolRunning

  datatype RoomEvent =
    | SharedMessage(message: MessageId)
    | AgentActivity(activity: Activity)
    | PermissionAsked(request: PermissionRequest)
    | TextPreview(text: string)
    | Terminal(outcome: Outcome)

  datatype Job = Publish(message: MessageId) | Quarantine | SetStatus(completed: bool)

  /** `Committing`: the worker is between the checks of a publication and its commit. */
  datatype Worker = Idle | Committing(message: MessageId)

  datatype Cleanup = NotSpawned | Spawned | AwaitsQuarantine | AwaitsStatus | Detaching | Finished | Joined

  /** What the end of a turn asks of the cleanup: to quarantine the session first, and which status
      to write. */
  datatype Plan = Plan(quarantine: bool, completed: bool)

  /** Where the awaited `next_event`, if there is one, is suspended. */
  datatype Future = Fresh | InSelect | InCleanup

  /** The activation's status in storage: not final yet, the one the cleanup wrote, or failed by
      another process that started up before. */
  datatype Stored = Unfinished | Written(completed: bool) | Overtaken

  /** `published`, `read` and `given` are histories: what storage committed, the session events
      consumed and the Room events handed out. */
  datatype Activation = Activation(
    alive: bool,
    jobs: seq<Job>,
    worker: Worker,
    open: bool,
    published: seq<MessageId>,
    recorded: Stored,
    channel: seq<MessageId>,
    events: seq<TransportEvent>,
    closed: bool,
    held: bool,
    cancelled: bool,
    tools: set<string>,
    completion: Option<Outcome>,
    cleanup: Cleanup,
    plan: Option<Plan>,
    clean: bool,
    future: Future,
    read: seq<TransportEvent>,
    given: seq<RoomEvent>)

  function Start(): Activation {
    Activation(true, [], Idle, true, [], Unfinished, [], [], false, true, false, {}, None, NotSpawned, None, true,
               Fresh, [], [])
  }

  datatype Input =
    | Request(message: MessageId)
    | WorkerBegins(fault: bool)
    | WorkerCommits
    | OwnerSends(event: TransportEvent)
    | OwnerCloses
    | Cancel(turnCancelled: bool)
    | CleanupStarts
    | CleanupDetaches(ok: bool)
    | Elsewhere
    | Poll(eventFirst: bool)
    | DropFuture

  predicate EndsTurn(event: TransportEvent) {
    event.TurnCompleted? || event.TurnFailed? || event.SessionLost? || event.TransportDisconnected?
  }

  // ---- Publication: permit, commit, send ----

  function Permits(jobs: seq<Job>): nat {
    if jobs == [] then 0 else (if jobs[0].Publish? then 1 else 0) + Permits(jobs[1..])
  }

  /** The jobs that are not publications: at most the one the cleanup task waits for. */
  function Duties(jobs: seq<Job>): seq<Job> {
    if jobs == [] then [] else (if jobs[0].Publish? then [] else [jobs[0]]) + Duties(jobs[1..])
  }

  function InFlight(s: Activation): nat {
    |s.channel| + Permits(s.jobs) + (if s.worker.Committing? then 1 else 0)
  }

  function WritesCompleted(s: Activation): bool {
    s.plan.Some? && s.plan.value.completed
  }

  /** Only an unfinished status changes. */
  function Record(recorded: Stored, status: Stored): Stored {
    if recorded.Unfinished? then status else recorded
  }

  function OnWorkerBegins(s: Activation, fault: bool): Activation
    requires s.worker.Idle? && s.jobs != []
  {
    var s' := s.(jobs := s.jobs[1..]);
    match s.jobs[0]
    case Publish(message) => if s.alive && s.open && !fault then s'.(worker := Committing(message)) else s'
    case Quarantine =>
      s'.(open := s.open && fault, clean := s.clean && !fault, jobs := s'.jobs + [SetStatus(WritesCompleted(s))],
          cleanup := AwaitsStatus)
    case SetStatus(completed) =>
      s'.(open := s.open && fault, clean := s.clean && !fault, cleanup := Detaching,
          recorded := if fault then s.recorded else Record(s.recorded, Written(completed)))
  }

  function OnWorkerCommits(s: Activation): Activation
    requires s.worker.Committing?
  {
    s.(worker := Idle, published := s.published + [s.worker.message], channel := s.channel + [s.worker.message])
  }

  /** Another process starts up on the same store: an unfinished activation becomes failed. */
  function OnElsewhere(s: Activation): Activation {
    s.(open := false, recorded := Record(s.recorded, Overtaken))
  }

  function OnCleanupStarts(s: Activation): Activation {
    if s.plan.Some? && s.plan.value.quarantine then s.(jobs := s.jobs + [Quarantine], cleanup := AwaitsQuarantine)
    else s.(jobs := s.jobs + [SetStatus(WritesCompleted(s))], cleanup := AwaitsStatus)
  }

  // ---- next_event ----

  /** An error quarantines; only a completed turn is written as completed. */
  function PlanFor(outcome: Outcome): Plan {
    Plan(outcome.Broken?, outcome.Completed?)
  }

  function BeginFinish(s: Activation, outcome: Outcome): Activation {
    s.(held := false, completion := Some(outcome), cleanup := Spawned, plan := Some(PlanFor(outcome)), future := Fresh)
  }

  function AfterTools(tools: set<string>): Activity {
    if tools == {} then Working else ToolRunning
  }

  datatype Consumed = Gives(event: RoomEvent) | Ends(outcome: Outcome) | Skips

  /** What one event of the session means to the Room. */
  function Consume(event: TransportEvent, tools: set<string>, cancelled: bool): Consumed {
    match event
    case PermissionRequested(request) => Gives(PermissionAsked(request))
    case ToolCallStarted(_, _, _) => Gives(AgentActivity(ToolRunning))
    case ToolCallFinished(_, tool) => if tool in tools then Gives(AgentActivity(AfterTools(tools - {tool}))) else Skips
    case AgentTextDelta(_, text) => Gives(TextPreview(text))
    case TurnCompleted(_) => Ends(if cancelled then WasCancelled else Completed)
    case TurnFailed(_, reason) => Ends(Failed(reason))
    case SessionLost(_) => Ends(Broken)
    case TransportDisconnected(_, _) => Ends(Broken)
    case _ => Skips
  }

  function ToolsAfter(event: TransportEvent, tools: set<string>): set<string> {
    match event
    case ToolCallStarted(_, tool, _) => tools + {tool}
    case ToolCallFinished(_, tool) => tools - {tool}
    case _ => tools
  }

  function Give(s: Activation, event: RoomEvent): Activation {
    s.(given := s.given + [event], future := Fresh)
  }

  function GiveShared(s: Activation): Activation
    requires s.channel != []
  {
    Give(s.(channel := s.channel[1..]), SharedMessage(s.channel[0]))
  }

  function Result(s: Activation): Outcome
    requires s.completion.Some?
  {
    if s.clean then s.completion.value else Broken
  }

  function Join(s: Activation): Activation
    requires s.completion.Some?
  {
    s.(cleanup := Joined, completion := Some(Result(s)))
  }

  function GiveTerminal(s: Activation): Activation
    requires s.completion.Some?
  {
    Give(s.(completion := None), Terminal(s.completion.value))
  }

  /** After the cleanup task was joined: late publications first, then the terminal result. */
  function Finish(s: Activation): Activation
    requires s.completion.Some?
  {
    if Join(s).channel != [] then GiveShared(Join(s)) else GiveTerminal(Join(s))
  }

  predicate Ready(s: Activation) {
    s.events != [] || s.closed
  }

  function Take(s: Activation): Activation
    requires s.events != []
  {
    s.(events := s.events[1..], tools := ToolsAfter(s.events[0], s.tools), read := s.read + [s.events[0]],
       future := Fresh)
  }

  function Next(s: Activation): Consumed
    requires s.events != []
  {
    Consume(s.events[0], s.tools, s.cancelled)
  }

  function Handle(s: Activation): Activation
    requires s.events != []
  {
    match Next(s)
    case Gives(event) => Give(Take(s), event)
    case Ends(outcome) => BeginFinish(Take(s), outcome)
    case Skips => Take(s)
  }

  /** One poll of `next_event`: from the top, or where an earlier poll was suspended. A poll that
      resumes in the `select!` may take a ready event before a publication. */
  function OnPoll(s: Activation, eventFirst: bool): Activation
    decreases s.held, |s.events|
  {
    if s.future.InCleanup? && s.completion.Some? then
      if s.cleanup.Finished? then Finish(s) else s
    else if s.channel != [] && !(s.future.InSelect? && eventFirst && Ready(s)) then GiveShared(s)
    else if s.completion.Some? then
      if s.cleanup.Finished? || s.cleanup.Joined? then Finish(s) else s.(future := InCleanup)
    else if !s.held then s.(future := Fresh)
    else if s.events == [] then
      if s.closed then OnPoll(BeginFinish(s, Broken), false) else s.(future := InSelect)
    else
      if Next(s).Gives? then Handle(s) else OnPoll(Handle(s), false)
  }

  // ---- Steps ----

  /** Another process cannot write between the checks of a publication and its commit, which are one
      transaction. A publication needs a permit of the bounded channel. The scope may have been revoked between
      the check of the request and the permit, however late the job is queued. */
  predicate Enabled(s: Activation, input: Input) {
    match input
    case Request(_) => InFlight(s) < PUBLICATION_CAPACITY
    case WorkerBegins(_) => s.worker.Idle? && s.jobs != []
    case WorkerCommits => s.worker.Committing?
    case OwnerSends(_) => !s.closed
    case OwnerCloses => true
    case Cancel(_) => true
    case CleanupStarts => s.cleanup.Spawned?
    case CleanupDetaches(_) => s.cleanup.Detaching?
    case Elsewhere => s.worker.Idle?
    case Poll(_) => true
    case DropFuture => true
  }

  function Step(s: Activation, input: Input): Activation
    requires Enabled(s, input)
  {
    match input
    case Request(message) => s.(jobs := s.jobs + [Publish(message)])
    case WorkerBegins(fault) => OnWorkerBegins(s, fault)
    case WorkerCommits => OnWorkerCommits(s)
    case OwnerSends(event) => s.(alive := s.alive && !EndsTurn(event), events := s.events + [event])
    case OwnerCloses => s.(alive := false, closed := true)
    case Cancel(turnCancelled) => s.(alive := false, cancelled := s.cancelled || (s.held && turnCancelled))
    case CleanupStarts => OnCleanupStarts(s)
    case CleanupDetaches(ok) => s.(clean := s.clean && ok, cleanup := Finished)
    case Elsewhere => OnElsewhere(s)
    case Poll(eventFirst) => OnPoll(s, eventFirst)
    case DropFuture => s.(future := Fresh)
  }

  // ---- What is promised, told from the histories ----

  /** The turn completed and the user did not cancel it. */
  predicate EndedWell(read: seq<TransportEvent>, cancelled: bool) {
    read != [] && read[|read| - 1].TurnCompleted? && !cancelled
  }

  /** The turn ended without an answer of the agent: the session is lost, or the stream broke off. */
  predicate Severed(read: seq<TransportEvent>) {
    read == [] || !(read[|read| - 1].TurnCompleted? || read[|read| - 1].TurnFailed?)
  }

  /** The result the session's last event and the user's cancellation call for. */
  function ResultOf(read: seq<TransportEvent>, cancelled: bool): Outcome {
    if read == [] then Broken
    else
      match read[|read| - 1]
      case TurnCompleted(_) => if cancelled then WasCancelled else Completed
      case TurnFailed(_, reason) => Failed(reason)
      case _ => Broken
  }

  // ---- The invariant ----

  /** The shared messages among what was handed out. */
  function Shared(given: seq<RoomEvent>): seq<MessageId> {
    if given == [] then []
    else
      var last := given[|given| - 1];
      Shared(given[..|given| - 1]) + (if last.SharedMessage? then [last.message] else [])
  }

  /** What was handed out without the shared messages and the terminal result. */
  function Progress(given: seq<RoomEvent>): seq<RoomEvent> {
    if given == [] then []
    else
      var last := given[|given| - 1];
      Progress(given[..|given| - 1]) + (if last.SharedMessage? || last.Terminal? then [] else [last])
  }

  function OpenTools(read: seq<TransportEvent>): set<string> {
    if read == [] then {} else ToolsAfter(read[|read| - 1], OpenTools(read[..|read| - 1]))
  }

  /** What the session's events mean to the Room, as one fold. */
  function Meaning(read: seq<TransportEvent>): seq<RoomEvent> {
    if read == [] then []
    else
      var before := read[..|read| - 1];
      var consumed := Consume(read[|read| - 1], OpenTools(before), false);
      Meaning(before) + (if consumed.Gives? then [consumed.event] else [])
  }

  predicate Quiet(given: seq<RoomEvent>) {
    forall event :: event in given ==> !event.Terminal?
  }

  predicate Ended(s: Activation) {
    s.given != [] && s.given[|s.given| - 1].Terminal?
  }

  predicate Recorded(cleanup: Cleanup) {
    cleanup.Detaching? || cleanup.Finished? || cleanup.Joined?
  }

  /** Everything handed out or waiting in the channel is exactly what was published, in order. */
  predicate Accounted(s: Activation) {
    && Shared(s.given) + s.channel == s.published
    && InFlight(s) <= PUBLICATION_CAPACITY
  }

  /** Nothing but the meaning of the session's events was handed out besides. */
  predicate Relayed(s: Activation) {
    Progress(s.given) == Meaning(s.read) && s.tools == OpenTools(s.read)
  }

  /** A turn that is over revoked the scope first. */
  predicate Revoked(s: Activation) {
    s.alive ==> s.held && !s.closed && (forall event :: event in s.events ==> !EndsTurn(event))
  }

  /** Once storage has taken the status job no commit is under way and none can start. */
  predicate Barrier(s: Activation) {
    && (!s.held ==> !s.alive)
    && (Recorded(s.cleanup) ==> s.worker.Idle?)
    && Duties(s.jobs) == Duty(s)
  }

  function Duty(s: Activation): seq<Job> {
    match s.cleanup
    case AwaitsQuarantine => [Quarantine]
    case AwaitsStatus => [SetStatus(WritesCompleted(s))]
    case _ => []
  }

  /** Running, finishing, ended; at most one terminal result and nothing after it. */
  predicate Staged(s: Activation) {
    && (s.held <==> s.cleanup.NotSpawned?)
    && (s.completion.Some? <==> !s.held && !Ended(s))
    && (if Ended(s) then s.cleanup.Joined? && s.channel == [] && Quiet(s.given[..|s.given| - 1]) else Quiet(s.given))
    && (s.future.InCleanup? ==> s.completion.Some? && !s.cleanup.Joined?)
    && (s.future.InSelect? ==> s.held)
  }

  /** The cleanup was told to do what the turn's end calls for. */
  predicate Decided(s: Activation) {
    && (s.plan.Some? <==> !s.held)
    && (s.plan.Some? ==> s.plan.value == Plan(Severed(s.read), EndedWell(s.read, s.cancelled)))
  }

  /** The terminal result is the one the turn's end calls for, unless a cleanup step failed; storage
      holds Completed exactly when the turn completed uncancelled. */
  predicate Honest(s: Activation) {
    && (s.completion.Some? && !s.cleanup.Joined? ==> s.completion.value == ResultOf(s.read, s.cancelled))
    && (s.completion.Some? && s.cleanup.Joined? ==>
          s.completion.value == if s.clean then ResultOf(s.read, s.cancelled) else Broken)
    && (Ended(s) ==>
          s.given[|s.given| - 1].outcome == if s.clean then ResultOf(s.read, s.cancelled) else Broken)
    && (s.held ==> s.read == [] || !EndsTurn(s.read[|s.read| - 1]))
    && (s.recorded.Written? ==> Recorded(s.cleanup) && s.recorded.completed == EndedWell(s.read, s.cancelled))
    && (Recorded(s.cleanup) && s.clean ==> !s.recorded.Unfinished?)
    && (!Recorded(s.cleanup) && !s.cleanup.AwaitsStatus? ==> s.clean)
  }

  predicate Inv(s: Activation) {
    Accounted(s) && Relayed(s) && Revoked(s) && Barrier(s) && Staged(s) && Decided(s) && Honest(s)
  }

  // ---- Every step keeps it ----

  lemma {:induction false} PermitsAppend(a: seq<Job>, b: seq<Job>)
    ensures Permits(a + b) == Permits(a) + Permits(b)
  {
    if a == [] {
      assert a + b == b;
    } else {
      assert (a + b)[1..] == a[1..] + b;
      PermitsAppend(a[1..], b);
    }
  }

  lemma {:induction false} DutiesAppend(a: seq<Job>, b: seq<Job>)
    ensures Duties(a + b) == Duties(a) + Duties(b)
  {
    if a == [] {
      assert a + b == b;
    } else {
      assert (a + b)[1..] == a[1..] + b;
      DutiesAppend(a[1..], b);
    }
  }

  lemma GivenMore(given: seq<RoomEvent>, event: RoomEvent)
    ensures Shared(given + [event]) == Shared(given) + (if event.SharedMessage? then [event.message] else [])
    ensures Progress(given + [event])
         == Progress(given) + (if event.SharedMessage? || event.Terminal? then [] else [event])
  {
    assert (given + [event])[..|given|] == given;
  }

  lemma MeaningMore(read: seq<TransportEvent>, event: TransportEvent)
    ensures OpenTools(read + [event]) == ToolsAfter(event, OpenTools(read))
    ensures Meaning(read + [event])
         == Meaning(read) + (var c := Consume(event, OpenTools(read), false); if c.Gives? then [c.event] else [])
  {
    assert (read + [event])[..|read|] == read;
  }

  lemma AppendPublish(jobs: seq<Job>, message: MessageId)
    ensures Permits(jobs + [Publish(message)]) == Permits(jobs) + 1
    ensures Duties(jobs + [Publish(message)]) == Duties(jobs)
  {
    PermitsAppend(jobs, [Publish(message)]);
    DutiesAppend(jobs, [Publish(message)]);
  }

  lemma RequestKeeps(s: Activation, message: MessageId)
    requires Inv(s) && Enabled(s, Request(message))
    ensures Inv(Step(s, Request(message)))
  {
    AppendPublish(s.jobs, message);
    hide Shared, Progress, Meaning, OpenTools, Permits, Duties, Consume, ToolsAfter, EndedWell, Severed,
        ResultOf, Quiet;
  }

  lemma AppendDuty(jobs: seq<Job>, duty: Job)
    requires !duty.Publish?
    ensures Permits(jobs + [duty]) == Permits(jobs) && Duties(jobs + [duty]) == Duties(jobs) + [duty]
  {
    PermitsAppend(jobs, [duty]);
    DutiesAppend(jobs, [duty]);
  }

  lemma TakeJob(jobs: seq<Job>)
    requires jobs != []
    ensures Permits(jobs) == Permits(jobs[1..]) + (if jobs[0].Publish? then 1 else 0)
    ensures Duties(jobs) == (if jobs[0].Publish? then [] else [jobs[0]]) + Duties(jobs[1..])
  {
  }

  lemma PublishAcceptedKeeps(s: Activation)
    requires Inv(s) && s.worker.Idle? && s.jobs != [] && s.jobs[0].Publish? && s.alive
    ensures Inv(s.(jobs := s.jobs[1..], worker := Committing(s.jobs[0].message)))
  {
    hide Shared, Progress, Meaning, OpenTools, Permits, Duties, Consume, ToolsAfter, EndedWell, Severed,
        ResultOf, Quiet;
    TakeJob(s.jobs);
  }

  lemma PublishRejectedKeeps(s: Activation)
    requires Inv(s) && s.worker.Idle? && s.jobs != [] && s.jobs[0].Publish?
    ensures Inv(s.(jobs := s.jobs[1..]))
  {
    hide Shared, Progress, Meaning, OpenTools, Permits, Duties, Consume, ToolsAfter, EndedWell, Severed,
        ResultOf, Quiet;
    TakeJob(s.jobs);
  }

  lemma PublishBeginsKeeps(s: Activation, fault: bool)
    requires Inv(s) && s.worker.Idle? && s.jobs != [] && s.jobs[0].Publish?
    ensures Inv(OnWorkerBegins(s, fault))
    ensures OnWorkerBegins(s, fault).worker.Committing? ==> s.alive && s.open
  {
    hide Inv, Permits, Duties;
    PublishRejectedKeeps(s);
    if s.alive { PublishAcceptedKeeps(s); }
  }

  lemma QuarantineBeginsKeeps(s: Activation, fault: bool)
    requires Inv(s) && s.worker.Idle? && s.jobs != [] && s.jobs[0].Quarantine?
    ensures Inv(OnWorkerBegins(s, fault))
  {
    hide Shared, Progress, Meaning, OpenTools, Permits, Duties;
    TakeJob(s.jobs);
    AppendDuty(s.jobs[1..], SetStatus(WritesCompleted(s)));
    assert Duty(s) == Duties(s.jobs) && Duties(s.jobs)[0] == s.jobs[0];
    assert s.cleanup.AwaitsQuarantine?;
  }

  lemma StatusBeginsKeeps(s: Activation, fault: bool)
    requires Inv(s) && s.worker.Idle? && s.jobs != [] && s.jobs[0].SetStatus?
    ensures Inv(OnWorkerBegins(s, fault))
  {
    hide Shared, Progress, Meaning, OpenTools, Permits, Duties;
    TakeJob(s.jobs);
    assert Duty(s) == Duties(s.jobs) && Duties(s.jobs)[0] == s.jobs[0];
    assert s.cleanup.AwaitsStatus? && s.jobs[0].completed == WritesCompleted(s);
  }

  lemma CommitKeeps(s: Activation)
    requires Inv(s) && s.worker.Committing?
    ensures Inv(OnWorkerCommits(s))
  {
    hide Shared, Progress, Meaning, OpenTools;
    var more := [s.worker.message];
    assert (Shared(s.given) + s.channel) + more == Shared(s.given) + (s.channel + more);
  }

  lemma OwnerKeeps(s: Activation, input: Input)
    requires Inv(s) && Enabled(s, input) && (input.OwnerSends? || input.OwnerCloses? || input.Cancel?)
    ensures Inv(Step(s, input))
  {
    hide Shared, Progress, Meaning, OpenTools, Permits, Duties;
  }

  lemma CleanupStartsKeeps(s: Activation)
    requires Inv(s) && s.cleanup.Spawned?
    ensures Inv(OnCleanupStarts(s))
  {
    hide Shared, Progress, Meaning, OpenTools, Permits, Duties;
    AppendDuty(s.jobs, if s.plan.Some? && s.plan.value.quarantine then Quarantine else SetStatus(WritesCompleted(s)));
  }

  lemma CleanupDetachesKeeps(s: Activation, ok: bool)
    requires Inv(s) && s.cleanup.Detaching?
    ensures Inv(Step(s, CleanupDetaches(ok)))
  {
    hide Shared, Progress, Meaning, OpenTools, Permits, Duties;
  }

  lemma ElsewhereKeeps(s: Activation)
    requires Inv(s) && s.worker.Idle?
    ensures Inv(OnElsewhere(s))
  {
    hide Shared, Progress, Meaning, OpenTools, Permits, Duties, EndedWell, Severed, ResultOf, Quiet;
  }

  lemma GiveSharedKeeps(s: Activation)
    requires Inv(s) && s.channel != []
    ensures Inv(GiveShared(s))
  {
    hide Shared, Progress, Meaning, OpenTools, Permits, Duties;
    GivenMore(s.given, SharedMessage(s.channel[0]));
    assert Shared(s.given) + [s.channel[0]] + s.channel[1..] == Shared(s.given) + s.channel;
  }

  lemma JoinKeeps(s: Activation)
    requires Inv(s) && s.completion.Some? && (s.cleanup.Finished? || s.cleanup.Joined?)
    ensures Inv(Join(s.(future := Fresh)))
  {
    hide Shared, Progress, Meaning, OpenTools, Permits, Duties;
  }

  lemma TerminalKeeps(s: Activation)
    requires Inv(s) && s.completion.Some? && s.cleanup.Joined? && s.channel == []
    ensures Inv(GiveTerminal(s))
  {
    hide Shared, Progress, Meaning, OpenTools, Permits, Duties;
    GivenMore(s.given, Terminal(s.completion.value));
    assert (s.given + [Terminal(s.completion.value)])[..|s.given|] == s.given;
  }

  lemma FinishKeeps(s: Activation)
    requires Inv(s) && s.completion.Some? && (s.cleanup.Finished? || s.cleanup.Joined?)
    ensures Inv(Finish(s))
  {
    hide Inv;
    JoinKeeps(s);
    var joined := Join(s.(future := Fresh));
    if s.channel == [] {
      TerminalKeeps(joined);
    } else {
      GiveSharedKeeps(joined);
    }
  }

  lemma SkipKeeps(s: Activation)
    requires Inv(s) && s.held && s.events != [] && Next(s).Skips?
    ensures Inv(Take(s))
  {
    hide Shared, Progress, Meaning, OpenTools, Permits, Duties;
    MeaningMore(s.read, s.events[0]);
  }

  lemma TakeGiveKeeps(s: Activation, event: RoomEvent)
    requires Inv(s) && s.held && s.events != [] && Next(s) == Gives(event)
    ensures Inv(Give(Take(s), event))
  {
    hide Shared, Progress, Meaning, OpenTools, Permits, Duties;
    MeaningMore(s.read, s.events[0]);
    GivenMore(s.given, event);
  }

  lemma EndKeeps(s: Activation)
    requires Inv(s) && s.held && s.events != [] && Next(s).Ends?
    ensures Inv(BeginFinish(Take(s), Next(s).outcome))
  {
    hide Shared, Progress, Meaning, OpenTools, Permits, Duties;
    MeaningMore(s.read, s.events[0]);
    assert s.events[0] in s.events;
    assert Ended(s) ==> !s.held;
  }

  lemma HandleKeeps(s: Activation)
    requires Inv(s) && s.held && s.events != []
    ensures Inv(Handle(s))
  {
    hide Inv, Consume, ToolsAfter, Next, BeginFinish, Take, Give;
    match Next(s)
    case Gives(event) => TakeGiveKeeps(s, event);
    case Ends(_) => EndKeeps(s);
    case Skips => SkipKeeps(s);
  }

  lemma BreakKeeps(s: Activation)
    requires Inv(s) && s.held && s.closed
    ensures Inv(BeginFinish(s, Broken))
  {
    hide Shared, Progress, Meaning, OpenTools, Permits, Duties;
  }

  lemma SuspendKeeps(s: Activation, future: Future)
    requires Inv(s)
    requires future.InCleanup? ==> s.completion.Some? && !s.cleanup.Joined?
    requires future.InSelect? ==> s.held
    ensures Inv(s.(future := future))
  {
    hide Shared, Progress, Meaning, OpenTools, Permits, Duties;
  }

  lemma {:induction false} PollKeeps(s: Activation, eventFirst: bool)
    requires Inv(s)
    ensures Inv(OnPoll(s, eventFirst))
    decreases s.held, |s.events|
  {
    hide Accounted, Relayed, Revoked, Barrier, Decided, Honest, Consume, ToolsAfter, Result, Finish, GiveShared, Shared,
        Progress, Quiet;
    if s.future.InCleanup? && s.completion.Some? {
      if s.cleanup.Finished? { FinishKeeps(s); }
    } else if s.channel != [] && !(s.future.InSelect? && eventFirst && Ready(s)) {
      GiveSharedKeeps(s);
    } else if s.completion.Some? {
      if s.cleanup.Finished? || s.cleanup.Joined? { FinishKeeps(s); } else { SuspendKeeps(s, InCleanup); }
    } else if !s.held {
      SuspendKeeps(s, Fresh);
    } else if s.events != [] {
      HandleKeeps(s);
      if !Next(s).Gives? { PollKeeps(Handle(s), false); }
    } else if s.closed {
      BreakKeeps(s);
      PollKeeps(BeginFinish(s, Broken), false);
    } else {
      SuspendKeeps(s, InSelect);
    }
  }

  lemma StepKeepsInv(s: Activation, input: Input)
    requires Inv(s) && Enabled(s, input)
    ensures Inv(Step(s, input))
  {
    hide Inv, OnPoll, OnWorkerCommits, OnWorkerBegins, OnCleanupStarts, InFlight;
    match input
    case Request(message) => RequestKeeps(s, message);
    case WorkerBegins(fault) =>
      match s.jobs[0] {
        case Publish(_) => PublishBeginsKeeps(s, fault);
        case Quarantine => QuarantineBeginsKeeps(s, fault);
        case SetStatus(_) => StatusBeginsKeeps(s, fault);
      }
    case WorkerCommits => CommitKeeps(s);
    case Poll(eventFirst) => PollKeeps(s, eventFirst);
    case OwnerSends(_) => OwnerKeeps(s, input);
    case OwnerCloses => OwnerKeeps(s, input);
    case Cancel(_) => OwnerKeeps(s, input);
    case CleanupStarts => CleanupStartsKeeps(s);
    case CleanupDetaches(ok) => CleanupDetachesKeeps(s, ok);
    case Elsewhere => ElsewhereKeeps(s);
    case DropFuture => SuspendKeeps(s, Fresh);
  }

  // ---- Over whole runs ----

  /** The state after the inputs, or None when one of them could not happen. */
  function Run(inputs: seq<Input>): Option<Activation> {
    if inputs == [] then Some(Start())
    else
      var before := Run(inputs[..|inputs| - 1]);
      var input := inputs[|inputs| - 1];
      if before.Some? && Enabled(before.value, input) then Some(Step(before.value, input)) else None
  }

  lemma StartInv()
    ensures Inv(Start())
  {
  }

  lemma {:induction false} RunKeepsInv(inputs: seq<Input>)
    requires Run(inputs).Some?
    ensures Inv(Run(inputs).value)
  {
    hide Inv, Enabled, Step;
    if inputs == [] {
      StartInv();
    } else {
      var init := inputs[..|inputs| - 1];
      RunKeepsInv(init);
      StepKeepsInv(Run(init).value, inputs[|inputs| - 1]);
    }
  }

  lemma EndedGaveAll(s: Activation)
    requires Inv(s)
    ensures Shared(s.given) <= s.published && (Ended(s) ==> Shared(s.given) == s.published)
    ensures |s.channel| <= PUBLICATION_CAPACITY
  {
    hide Shared, Progress, Meaning, OpenTools, Permits, Duties;
  }

  // ---- One step hands out at most one event ----

  /** At most one event was added to what was handed out. */
  predicate GaveOne(before: seq<RoomEvent>, after: seq<RoomEvent>) {
    after == before || (|after| == |before| + 1 && after == before + [after[|before|]])
  }

  lemma Strokes(s: Activation, event: RoomEvent, outcome: Outcome)
    ensures Give(s, event).given == s.given + [event] && SamePublishing(s, Give(s, event))
    ensures Give(s, event).read == s.read && Give(s, event).held == s.held
    ensures BeginFinish(s, outcome).given == s.given && !BeginFinish(s, outcome).held
              && SamePublishing(s, BeginFinish(s, outcome)) && BeginFinish(s, outcome).read == s.read
  {
    hide PlanFor;
  }

  lemma TakeStroke(s: Activation)
    requires s.events != []
    ensures Take(s).given == s.given && Take(s).held == s.held && |Take(s).events| < |s.events|
              && SamePublishing(s, Take(s)) && Take(s).read == s.read + [s.events[0]]
  {
    hide ToolsAfter;
  }

  lemma HandleGivesOne(s: Activation)
    requires s.events != []
    ensures Handle(s).given == s.given + (if Next(s).Gives? then [Next(s).event] else [])
    ensures Next(s).Skips? ==> Handle(s).held == s.held && |Handle(s).events| < |s.events|
    ensures Next(s).Ends? ==> !Handle(s).held
  {
    hide Next, Take, Give, BeginFinish;
    TakeStroke(s);
    match Next(s)
    case Gives(event) => Strokes(Take(s), event, Completed);
    case Ends(outcome) => Strokes(Take(s), TextPreview(""), outcome);
    case Skips =>
  }

  lemma FinishGivesOne(s: Activation)
    requires s.completion.Some?
    ensures GaveOne(s.given, Finish(s).given)
  {
    hide Result;
  }

  lemma {:induction false} PollGivesOne(s: Activation, eventFirst: bool)
    ensures GaveOne(s.given, OnPoll(s, eventFirst).given)
    decreases s.held, |s.events|
  {
    hide Handle, Next, Finish, PlanFor, Ready;
    if s.completion.Some? { FinishGivesOne(s); }
    if !s.held || s.completion.Some? {
    } else if s.events != [] {
      HandleGivesOne(s);
      if !Next(s).Gives? { PollGivesOne(Handle(s), false); }
    } else if s.closed {
      PollGivesOne(BeginFinish(s, Broken), false);
    }
  }

  lemma JobGivesNothing(s: Activation, fault: bool)
    requires s.worker.Idle? && s.jobs != []
    ensures OnWorkerBegins(s, fault).given == s.given
  {
    hide WritesCompleted;
    if s.jobs[0].Publish? {
    } else if s.jobs[0].Quarantine? {
    } else {
    }
  }

  lemma WorkGivesNothing(s: Activation)
    ensures s.worker.Committing? ==> OnWorkerCommits(s).given == s.given
    ensures OnCleanupStarts(s).given == s.given
  {
    hide WritesCompleted;
  }

  lemma StepGivesOne(s: Activation, input: Input)
    requires Enabled(s, input)
    ensures GaveOne(s.given, Step(s, input).given)
  {
    hide OnPoll, OnWorkerBegins, OnWorkerCommits, OnCleanupStarts, GaveOne, InFlight, EndsTurn;
    NothingGiven(s.given);
    match input
    case Poll(eventFirst) => PollGivesOne(s, eventFirst);
    case WorkerBegins(fault) => JobGivesNothing(s, fault);
    case _ => WorkGivesNothing(s);
  }

  lemma NothingGiven(given: seq<RoomEvent>)
    ensures GaveOne(given, given)
  {
  }

  /** Before the result and after it, what came out is a prefix of what storage committed; with the
      result, all of it came out, each publication once and in commit order. */
  lemma PublishedComesOut(inputs: seq<Input>)
    requires Run(inputs).Some?
    ensures var s := Run(inputs).value; Shared(s.given) <= s.published && (Ended(s) ==> Shared(s.given) == s.published)
    ensures |Run(inputs).value.channel| <= PUBLICATION_CAPACITY
  {
    hide Inv, Run, Shared;
    RunKeepsInv(inputs);
    EndedGaveAll(Run(inputs).value);
  }

  lemma EndedStaysOnPoll(s: Activation, eventFirst: bool)
    requires Staged(s) && Ended(s)
    ensures OnPoll(s, eventFirst) == s.(future := Fresh)
  {
    hide Quiet;
  }

  lemma EndedIsFinal(s: Activation, input: Input)
    requires Inv(s) && Ended(s) && Enabled(s, input)
    ensures Step(s, input).given == s.given && Step(s, input).published == s.published
  {
    hide Accounted, Relayed, Honest, OnPoll, Duties, Quiet;
    if input.Poll? {
      EndedStaysOnPoll(s, input.eventFirst);
    }
  }

  lemma {:induction false} RunSplits(before: seq<Input>, more: seq<Input>)
    requires Run(before + more).Some?
    ensures Run(before).Some?
    decreases |more|
  {
    if more == [] {
      assert before + more == before;
    } else {
      var whole := before + more;
      assert whole[..|whole| - 1] == before + more[..|more| - 1];
      RunSplits(before, more[..|more| - 1]);
    }
  }

  /** Nothing that concerns publishing is different. */
  predicate SamePublishing(s: Activation, s': Activation) {
    s'.alive == s.alive && s'.worker == s.worker && s'.published == s.published && s'.recorded == s.recorded
  }

  lemma HandleKeepsPublishing(s: Activation)
    requires s.events != []
    ensures SamePublishing(s, Handle(s)) && (Next(s).Ends? ==> !Handle(s).held)
    ensures Next(s).Skips? ==> Handle(s).held == s.held && |Handle(s).events| < |s.events|
  {
    hide Next, Take, Give, BeginFinish;
    TakeStroke(s);
    match Next(s)
    case Gives(event) => Strokes(Take(s), event, Completed);
    case Ends(outcome) => Strokes(Take(s), TextPreview(""), outcome);
    case Skips =>
  }

  lemma FinishKeepsPublishing(s: Activation)
    requires s.completion.Some?
    ensures SamePublishing(s, Finish(s))
  {
    hide Result;
  }

  lemma GiveSharedKeepsPublishing(s: Activation)
    requires s.channel != []
    ensures SamePublishing(s, GiveShared(s))
  {
  }

  lemma {:induction false} PollKeepsPublishing(s: Activation, eventFirst: bool)
    ensures SamePublishing(s, OnPoll(s, eventFirst))
    decreases s.held, |s.events|
  {
    hide Handle, Next, Finish, GiveShared, PlanFor, Ready;
    if s.completion.Some? { FinishKeepsPublishing(s); }
    if s.channel != [] { GiveSharedKeepsPublishing(s); }
    if !s.held || s.completion.Some? {
    } else if s.events != [] {
      HandleKeepsPublishing(s);
      if !Next(s).Gives? { PollKeepsPublishing(Handle(s), false); }
    } else if s.closed {
      PollKeepsPublishing(BeginFinish(s, Broken), false);
    }
  }

  lemma RevokedStays(s: Activation, input: Input)
    requires !s.alive && s.worker.Idle? && Enabled(s, input)
    ensures var s' := Step(s, input); !s'.alive && s'.worker.Idle? && s'.published == s.published
  {
    hide OnPoll, InFlight, EndsTurn, WritesCompleted;
    if input.Poll? { PollKeepsPublishing(s, input.eventFirst); }
  }

  /** Once the scope is revoked and the worker is not between check and commit, nothing is ever
      published again, however many requests still come with a permit. */
  lemma {:induction false} RevokedPublishesNothing(before: seq<Input>, more: seq<Input>)
    requires Run(before + more).Some? && Run(before).Some?
    requires !Run(before).value.alive && Run(before).value.worker.Idle?
    ensures Run(before + more).value.published == Run(before).value.published
    ensures !Run(before + more).value.alive && Run(before + more).value.worker.Idle?
    decreases |more|
  {
    hide Enabled, Step;
    if more == [] {
      assert before + more == before;
    } else {
      var whole := before + more;
      var init := whole[..|whole| - 1];
      assert init == before + more[..|more| - 1];
      RevokedPublishesNothing(before, more[..|more| - 1]);
      RevokedStays(Run(init).value, whole[|whole| - 1]);
    }
  }

  /** There is one terminal result and nothing follows it, whatever is polled, dropped, requested
      or committed afterwards. */
  lemma {:induction false} TerminalIsLast(before: seq<Input>, more: seq<Input>)
    requires Run(before + more).Some? && Run(before).Some? && Ended(Run(before).value)
    ensures Run(before + more).value.given == Run(before).value.given
    ensures Run(before + more).value.published == Run(before).value.published
    ensures Quiet(Run(before).value.given[..|Run(before).value.given| - 1])
    decreases |more|
  {
    hide Enabled, Step, Accounted, Relayed, Revoked, Barrier, Decided, Honest;
    RunKeepsInv(before);
    if more == [] {
      assert before + more == before;
    } else {
      var whole := before + more;
      var init := whole[..|whole| - 1];
      assert init == before + more[..|more| - 1];
      TerminalIsLast(before, more[..|more| - 1]);
      RunKeepsInv(init);
      EndedIsFinal(Run(init).value, whole[|whole| - 1]);
    }
  }

  /** Whatever is handed out besides publications and the result is what the session's events mean,
      in order, with tool activity told from the tools that are still running. */
  lemma OnlyMeaningComesOut(inputs: seq<Input>)
    requires Run(inputs).Some?
    ensures var s := Run(inputs).value; Progress(s.given) == Meaning(s.read)
  {
    hide Run, Shared, Progress, Meaning, OpenTools, Permits, Duties;
    RunKeepsInv(inputs);
  }

  // ---- What comes out, kind by kind ----

  /** A tool was started and not finished since. */
  ghost predicate StillRuns(read: seq<TransportEvent>, tool: string) {
    exists i :: 0 <= i < |read| && read[i].ToolCallStarted? && read[i].tool == tool
                && forall j :: i < j < |read| && read[j].ToolCallFinished? ==> read[j].tool != tool
  }

  /** The requests handed out, and those the session asked. */
  function RequestsGiven(given: seq<RoomEvent>): seq<PermissionRequest> {
    if given == [] then []
    else
      var last := given[|given| - 1];
      RequestsGiven(given[..|given| - 1]) + (if last.PermissionAsked? then [last.request] else [])
  }

  function RequestsRead(read: seq<TransportEvent>): seq<PermissionRequest> {
    if read == [] then []
    else
      var last := read[|read| - 1];
      RequestsRead(read[..|read| - 1]) + (if last.PermissionRequested? then [last.request] else [])
  }

  /** The previews handed out, and the text the session wrote. */
  function PreviewsGiven(given: seq<RoomEvent>): seq<string> {
    if given == [] then []
    else
      var last := given[|given| - 1];
      PreviewsGiven(given[..|given| - 1]) + (if last.TextPreview? then [last.text] else [])
  }

  function TextsRead(read: seq<TransportEvent>): seq<string> {
    if read == [] then []
    else
      var last := read[|read| - 1];
      TextsRead(read[..|read| - 1]) + (if last.AgentTextDelta? then [last.text] else [])
  }

  /** The activities handed out, and what the session's tools call for: a tool that starts runs; when
      one that runs is finished the agent works unless another still runs; an unknown one is nothing. */
  function ActivitiesGiven(given: seq<RoomEvent>): seq<Activity> {
    if given == [] then []
    else
      var last := given[|given| - 1];
      ActivitiesGiven(given[..|given| - 1]) + (if last.AgentActivity? then [last.activity] else [])
  }

  ghost function ActivitiesRead(read: seq<TransportEvent>): seq<Activity> {
    if read == [] then []
    else
      var before, last := read[..|read| - 1], read[|read| - 1];
      ActivitiesRead(before)
      + (if last.ToolCallStarted? then [ToolRunning]
         else if last.ToolCallFinished? && StillRuns(before, last.tool) then
           [if exists tool :: tool != last.tool && StillRuns(before, tool) then ToolRunning else Working]
         else [])
  }

  lemma StillRunsMore(read: seq<TransportEvent>, event: TransportEvent, tool: string)
    ensures StillRuns(read + [event], tool) <==>
            || (event.ToolCallStarted? && event.tool == tool)
            || (StillRuns(read, tool) && !(event.ToolCallFinished? && event.tool == tool))
  {
    var all := read + [event];
    if StillRuns(read, tool) && !(event.ToolCallFinished? && event.tool == tool) {
      var i :| 0 <= i < |read| && read[i].ToolCallStarted? && read[i].tool == tool
               && forall j :: i < j < |read| && read[j].ToolCallFinished? ==> read[j].tool != tool;
      assert all[i] == read[i];
    }
    if event.ToolCallStarted? && event.tool == tool { assert all[|read|] == event; }
    if StillRuns(all, tool) {
      var i :| 0 <= i < |all| && all[i].ToolCallStarted? && all[i].tool == tool
               && forall j :: i < j < |all| && all[j].ToolCallFinished? ==> all[j].tool != tool;
      if i < |read| {
        assert all[|read|] == event && read[i] == all[i];
        assert forall j :: i < j < |read| ==> read[j] == all[j];
      }
    }
  }

  /** The open tools are those that were started and not finished since. */
  lemma {:induction false} OpenToolsStillRun(read: seq<TransportEvent>)
    ensures forall tool :: tool in OpenTools(read) <==> StillRuns(read, tool)
  {
    if read != [] {
      var before, last := read[..|read| - 1], read[|read| - 1];
      assert read == before + [last];
      OpenToolsStillRun(before);
      hide StillRuns;
      forall tool ensures tool in OpenTools(read) <==> StillRuns(read, tool) { StillRunsMore(before, last, tool); }
    }
  }

  /** What an event gives, kind by kind. */
  lemma ConsumedKinds(event: TransportEvent, tools: set<string>)
    ensures var given := GivenFor(event, tools);
            && RequestsGiven(given) == (if event.PermissionRequested? then [event.request] else [])
            && PreviewsGiven(given) == (if event.AgentTextDelta? then [event.text] else [])
            && ActivitiesGiven(given) ==
               if event.ToolCallStarted? then [ToolRunning]
               else if event.ToolCallFinished? && event.tool in tools then
                 [if exists tool :: tool != event.tool && tool in tools then ToolRunning else Working]
               else []
  {
    OtherTool(tools, event);
    var consumed := Consume(event, tools, false);
    if consumed.Gives? {
      KindsMore([], consumed.event);
      assert [] + [consumed.event] == [consumed.event];
    }
  }

  function GivenFor(event: TransportEvent, tools: set<string>): seq<RoomEvent> {
    var consumed := Consume(event, tools, false);
    if consumed.Gives? then [consumed.event] else []
  }

  lemma KindsAppend(given: seq<RoomEvent>, more: seq<RoomEvent>)
    requires |more| <= 1
    ensures RequestsGiven(given + more) == RequestsGiven(given) + RequestsGiven(more)
    ensures PreviewsGiven(given + more) == PreviewsGiven(given) + PreviewsGiven(more)
    ensures ActivitiesGiven(given + more) == ActivitiesGiven(given) + ActivitiesGiven(more)
  {
    if more == [] {
      assert given + more == given;
    } else {
      assert more == [more[0]] == [] + [more[0]];
      KindsMore(given, more[0]);
      KindsMore([], more[0]);
    }
  }

  /** What one more event adds, kind by kind, told from the open tools. */
  lemma ReadKindsMore(read: seq<TransportEvent>, event: TransportEvent)
    ensures RequestsRead(read + [event])
         == RequestsRead(read) + (if event.PermissionRequested? then [event.request] else [])
    ensures TextsRead(read + [event]) == TextsRead(read) + (if event.AgentTextDelta? then [event.text] else [])
    ensures ActivitiesRead(read + [event]) == ActivitiesRead(read) +
              if event.ToolCallStarted? then [ToolRunning]
              else if event.ToolCallFinished? && event.tool in OpenTools(read) then
                [if exists tool :: tool != event.tool && tool in OpenTools(read) then ToolRunning else Working]
              else []
  {
    OpenToolsStillRun(read);
    hide StillRuns, OpenTools;
    assert (read + [event])[..|read|] == read;
  }

  /** What is handed out of the session's events is of the three kinds, in the order of the events. */
  lemma {:induction false} MeaningByKind(read: seq<TransportEvent>)
    ensures RequestsGiven(Meaning(read)) == RequestsRead(read)
    ensures PreviewsGiven(Meaning(read)) == TextsRead(read)
    ensures ActivitiesGiven(Meaning(read)) == ActivitiesRead(read)
  {
    if read != [] {
      var before, last := read[..|read| - 1], read[|read| - 1];
      assert read == before + [last];
      MeaningByKind(before);
      var given := GivenFor(last, OpenTools(before));
      assert Meaning(read) == Meaning(before) + given;
      ReadKindsMore(before, last);
      hide *;
      KindsAppend(Meaning(before), given);
      ConsumedKinds(last, OpenTools(before));
    }
  }

  lemma OtherTool(tools: set<string>, event: TransportEvent)
    ensures event.ToolCallFinished? ==>
              (tools - {event.tool} != {} <==> exists tool :: tool != event.tool && tool in tools)
  {
    if event.ToolCallFinished? {
      if tool :| tool != event.tool && tool in tools { assert tool in tools - {event.tool}; }
    }
  }

  lemma KindsMore(given: seq<RoomEvent>, event: RoomEvent)
    ensures RequestsGiven(given + [event])
         == RequestsGiven(given) + if event.PermissionAsked? then [event.request] else []
    ensures PreviewsGiven(given + [event]) == PreviewsGiven(given) + if event.TextPreview? then [event.text] else []
    ensures ActivitiesGiven(given + [event])
         == ActivitiesGiven(given) + if event.AgentActivity? then [event.activity] else []
  {
    assert (given + [event])[..|given|] == given;
  }

  lemma {:induction false} ProgressByKind(given: seq<RoomEvent>)
    ensures RequestsGiven(given) == RequestsGiven(Progress(given))
    ensures PreviewsGiven(given) == PreviewsGiven(Progress(given))
    ensures ActivitiesGiven(given) == ActivitiesGiven(Progress(given))
  {
    if given != [] {
      var before, last := given[..|given| - 1], given[|given| - 1];
      ProgressByKind(before);
      KindsMore(before, last);
      assert before + [last] == given && Progress(before) + [] == Progress(before);
      if !last.SharedMessage? && !last.Terminal? { KindsMore(Progress(before), last); }
    }
  }

  /** Over every run: the permission requests handed out are those the session asked, the previews its
      text, the activities what its tools call for, each in order and none left out. */
  lemma EachKindComesOut(inputs: seq<Input>)
    requires Run(inputs).Some?
    ensures var s := Run(inputs).value;
            && RequestsGiven(s.given) == RequestsRead(s.read)
            && PreviewsGiven(s.given) == TextsRead(s.read)
            && ActivitiesGiven(s.given) == ActivitiesRead(s.read)
  {
    hide Run, RequestsGiven, RequestsRead, PreviewsGiven, TextsRead, ActivitiesGiven, ActivitiesRead, Progress, Meaning;
    OnlyMeaningComesOut(inputs);
    ProgressByKind(Run(inputs).value.given);
    MeaningByKind(Run(inputs).value.read);
  }

  /** After a clean cleanup the result tells how the session ended: completed, cancelled by the user,
      failed for the reason it gave, or broken off; after any other cleanup it is broken. */
  lemma ResultTellsTheEnd(inputs: seq<Input>)
    requires Run(inputs).Some? && Ended(Run(inputs).value)
    ensures var s := Run(inputs).value;
            var outcome := s.given[|s.given| - 1].outcome;
            && (s.clean && s.read != [] && s.read[|s.read| - 1].TurnCompleted? ==>
                  outcome == if s.cancelled then WasCancelled else Completed)
            && (s.clean && s.read != [] && s.read[|s.read| - 1].TurnFailed? ==>
                  outcome == Failed(s.read[|s.read| - 1].reason))
            && (s.clean && s.read != [] && !s.read[|s.read| - 1].TurnCompleted? && !s.read[|s.read| - 1].TurnFailed? ==>
                  outcome == Broken)
            && (!s.clean || s.read == [] ==> outcome == Broken)
  {
    hide Run, Shared, Progress, Meaning, OpenTools, Permits, Duties;
    RunKeepsInv(inputs);
  }

  /** A poll while the turn runs: a publication is handed out first, but a poll that resumes may take
      a ready event before; an event that is ready is read; a closed stream ends the turn; and it
      waits exactly when there is nothing of all that. */
  lemma PollMovesOn(s: Activation, eventFirst: bool)
    requires Inv(s) && s.held
    ensures var s' := OnPoll(s, eventFirst);
            var passes := s.future.InSelect? && eventFirst && (s.events != [] || s.closed);
            && (s.channel != [] && !passes ==>
                  s'.given == s.given + [SharedMessage(s.channel[0])] && s'.channel == s.channel[1..])
            && ((s.channel == [] || passes) && s.events != [] ==> s.read + [s.events[0]] <= s'.read)
            && ((s.channel == [] || passes) && s.events == [] && s.closed ==> !s'.held)
            && ((s.channel == [] && s.events == [] && !s.closed) <==> s' == s.(future := InSelect))
  {
    hide Accounted, Relayed, Revoked, Barrier, Decided, Honest, Quiet, Consume, ToolsAfter, Handle, Next, BeginFinish,
         PlanFor;
    if s.events != [] {
      HandleReads(s);
      PollReads(Handle(s), false);
    }
    Strokes(s, TextPreview(""), Broken);
    PollReads(BeginFinish(s, Broken), false);
  }

  lemma HandleReads(s: Activation)
    requires s.events != []
    ensures Handle(s).read == s.read + [s.events[0]] && (!s.held ==> !Handle(s).held)
    ensures Next(s).Skips? ==> Handle(s).held == s.held && |Handle(s).events| < |s.events|
    ensures Next(s).Ends? ==> !Handle(s).held
  {
    hide Next, Take, Give, BeginFinish;
    TakeStroke(s);
    match Next(s)
    case Gives(event) => Strokes(Take(s), event, Completed);
    case Ends(outcome) => Strokes(Take(s), TextPreview(""), outcome);
    case Skips =>
  }

  /** A poll only adds to what was read and never reopens a turn that is over. */
  lemma {:induction false} PollReads(s: Activation, eventFirst: bool)
    ensures s.read <= OnPoll(s, eventFirst).read && (!s.held ==> !OnPoll(s, eventFirst).held)
    decreases s.held, |s.events|
  {
    hide Handle, Next, Finish, BeginFinish, GiveShared, SamePublishing;
    if s.completion.Some? { FinishReads(s); }
    if s.channel != [] { SharedReads(s); }
    Strokes(s, TextPreview(""), Broken);
    if !s.held || s.completion.Some? {
    } else if s.events != [] {
      HandleReads(s);
      if !Next(s).Gives? { PollReads(Handle(s), false); }
    } else if s.closed {
      PollReads(BeginFinish(s, Broken), false);
    }
  }

  lemma FinishReads(s: Activation)
    requires s.completion.Some?
    ensures Finish(s).read == s.read && Finish(s).held == s.held
  {
    hide Result;
  }

  lemma SharedReads(s: Activation)
    requires s.channel != []
    ensures GiveShared(s).read == s.read && GiveShared(s).held == s.held
  {
  }

  lemma {:induction false} DutyIn(jobs: seq<Job>, job: Job)
    requires job in jobs && !job.Publish?
    ensures job in Duties(jobs)
  {
    if jobs[0] != job {
      assert jobs == [jobs[0]] + jobs[1..];
      DutyIn(jobs[1..], job);
    }
  }

  /** The cleanup quarantines exactly a severed session, and every status it queues is the one the
      session's last event and the user's cancellation call for. */
  lemma CleanupIsTold(inputs: seq<Input>, job: Job)
    requires Run(inputs).Some?
    ensures var s := Run(inputs).value;
            && (s.plan.Some? ==> s.plan.value == Plan(Severed(s.read), EndedWell(s.read, s.cancelled)))
            && (job in s.jobs && job.SetStatus? ==> job.completed == EndedWell(s.read, s.cancelled))
            && (job in s.jobs && job.Quarantine? ==> s.cleanup.AwaitsQuarantine?)
  {
    hide Run, Shared, Progress, Meaning, OpenTools, Permits, Duties;
    RunKeepsInv(inputs);
    var s := Run(inputs).value;
    if job in s.jobs && !job.Publish? {
      DutyIn(s.jobs, job);
      assert job in Duty(s);
    }
  }

  /** The status the cleanup wrote is the one the session's last event and the user's cancellation
      call for. Completed is told exactly when that was a completed, uncancelled turn whose cleanup
      succeeded; then storage says completed too if and only if no other process was first. */
  lemma CompletedIsHonest(inputs: seq<Input>)
    requires Run(inputs).Some?
    ensures var s := Run(inputs).value;
            && (s.recorded.Written? ==> s.recorded.completed == EndedWell(s.read, s.cancelled))
            && (Ended(s) ==>
                  (s.given[|s.given| - 1] == Terminal(Completed) <==> EndedWell(s.read, s.cancelled) && s.clean))
            && (Ended(s) && s.given[|s.given| - 1] == Terminal(Completed) ==>
                  (s.recorded == Written(true) <==> !StartedUpBefore(inputs)))
  {
    OvertakenIff(inputs);
    hide Run, Shared, Progress, Meaning, OpenTools, Permits, Duties, StartedUpBefore;
    RunKeepsInv(inputs);
  }

  /** Somewhere in the run another process started up while the activation had no final status. */
  ghost predicate StartedUpBefore(inputs: seq<Input>) {
    exists i :: 0 <= i < |inputs| && inputs[i].Elsewhere? && Run(inputs[..i]).Some?
                && Run(inputs[..i]).value.recorded.Unfinished?
  }

  lemma PollStep(s: Activation, eventFirst: bool)
    ensures Enabled(s, Poll(eventFirst)) && Step(s, Poll(eventFirst)) == OnPoll(s, eventFirst)
  {
    hide OnPoll;
  }

  lemma OnlyStartUpsOvertake(s: Activation, input: Input)
    requires Enabled(s, input)
    ensures Step(s, input).recorded.Overtaken? <==>
            s.recorded.Overtaken? || (input.Elsewhere? && s.recorded.Unfinished?)
  {
    if input.Poll? {
      PollStep(s, input.eventFirst);
      PollKeepsPublishing(s, input.eventFirst);
      hide OnPoll, Step;
    } else {
      if input.WorkerBegins? { JobNeverOvertakes(s, input.fault); }
      hide OnPoll, InFlight, EndsTurn, OnWorkerBegins, OnCleanupStarts, OnWorkerCommits;
      CleanupRecordsNothing(s);
    }
  }

  lemma CleanupRecordsNothing(s: Activation)
    ensures OnCleanupStarts(s).recorded == s.recorded
    ensures s.worker.Committing? ==> OnWorkerCommits(s).recorded == s.recorded
  {
  }

  lemma JobNeverOvertakes(s: Activation, fault: bool)
    requires s.worker.Idle? && s.jobs != []
    ensures OnWorkerBegins(s, fault).recorded.Overtaken? <==> s.recorded.Overtaken?
  {
    hide WritesCompleted;
  }

  lemma {:induction false} OvertakenIff(inputs: seq<Input>)
    requires Run(inputs).Some?
    ensures Run(inputs).value.recorded.Overtaken? <==> StartedUpBefore(inputs)
  {
    hide Enabled, Step;
    if inputs != [] {
      var init, last := inputs[..|inputs| - 1], inputs[|inputs| - 1];
      OvertakenIff(init);
      OnlyStartUpsOvertake(Run(init).value, last);
      assert forall i :: 0 <= i < |init| ==> inputs[i] == init[i] && inputs[..i] == init[..i];
      if StartedUpBefore(init) {
        var i :| 0 <= i < |init| && init[i].Elsewhere? && Run(init[..i]).Some?
                 && Run(init[..i]).value.recorded.Unfinished?;
        assert inputs[i].Elsewhere? && Run(inputs[..i]).value.recorded.Unfinished?;
      }
    }
  }

  /** A turn completes while another process starts up: the user is told that it completed, storage
      keeps it as failed. */
  lemma CompletedButStoredFailed(session: SessionRef) returns (inputs: seq<Input>, s: Activation)
    ensures Run(inputs) == Some(s) && s.given == [Terminal(Completed)] && s.recorded == Overtaken
    ensures s.clean && !s.cancelled
  {
    var done := TurnCompleted(session);
    var s0 := Start().(alive := false, events := [done]);
    var s1 := OnElsewhere(s0);
    var s2 := BeginFinish(Take(s1), Completed).(future := InCleanup);
    var s3 := s2.(jobs := [SetStatus(true)], cleanup := AwaitsStatus);
    var s4 := s3.(jobs := [], cleanup := Detaching);
    FirstSteps(done, s0, s1, s2);
    s := LaterSteps(s2, s3, s4);
    hide *;
    EmptyRun();
    var begun := OneMore(OneMore(OneMore([], Start(), OwnerSends(done)), s0, Elsewhere), s1, Poll(false));
    var cleaned := OneMore(OneMore(begun, s2, CleanupStarts), s3, WorkerBegins(false));
    inputs := OneMore(OneMore(cleaned, s4, CleanupDetaches(true)), s4.(cleanup := Finished), Poll(false));
  }

  lemma EmptyRun()
    ensures Run([]) == Some(Start())
  {
  }

  /** A run with one more step. */
  function OneMore(inputs: seq<Input>, s: Activation, input: Input): (more: seq<Input>)
    requires Run(inputs) == Some(s) && Enabled(s, input)
    ensures Run(more) == Some(Step(s, input))
  {
    assert (inputs + [input])[..|inputs|] == inputs;
    inputs + [input]
  }

  lemma FirstSteps(done: TransportEvent, s0: Activation, s1: Activation, s2: Activation)
    requires done.TurnCompleted? && s0 == Start().(alive := false, events := [done]) && s1 == OnElsewhere(s0)
    requires s2 == BeginFinish(Take(s1), Completed).(future := InCleanup)
    ensures Enabled(Start(), OwnerSends(done)) && Step(Start(), OwnerSends(done)) == s0
    ensures Enabled(s0, Elsewhere) && Step(s0, Elsewhere) == s1
    ensures Enabled(s1, Poll(false)) && Step(s1, Poll(false)) == s2
  {
    PollStep(s1, false);
    assert OnPoll(BeginFinish(Take(s1), Completed), false) == s2;
  }

  lemma LaterSteps(s2: Activation, s3: Activation, s4: Activation) returns (s: Activation)
    requires s2.cleanup.Spawned? && s2.jobs == [] && s2.plan == Some(Plan(false, true)) && !s2.open && s2.channel == []
    requires s2.completion == Some(Completed) && s2.future.InCleanup? && s2.clean && s2.worker.Idle?
    requires s2.recorded == Overtaken && s2.given == [] && !s2.cancelled
    requires s3 == s2.(jobs := [SetStatus(true)], cleanup := AwaitsStatus)
    requires s4 == s3.(jobs := [], cleanup := Detaching)
    ensures Enabled(s2, CleanupStarts) && Step(s2, CleanupStarts) == s3
    ensures Enabled(s3, WorkerBegins(false)) && Step(s3, WorkerBegins(false)) == s4
    ensures Enabled(s4, CleanupDetaches(true)) && Step(s4, CleanupDetaches(true)) == s4.(cleanup := Finished)
    ensures Enabled(s4.(cleanup := Finished), Poll(false))
    ensures s == Step(s4.(cleanup := Finished), Poll(false)) && s.given == [Terminal(Completed)]
    ensures s.recorded == Overtaken && s.clean && !s.cancelled
  {
    PollStep(s4.(cleanup := Finished), false);
    s := OnPoll(s4.(cleanup := Finished), false);
  }

  // ---- Polling and dropping ----

  function SharedEvents(messages: seq<MessageId>): seq<RoomEvent> {
    if messages == [] then [] else [SharedMessage(messages[0])] + SharedEvents(messages[1..])
  }

  /** One poll for each element; where it is true the previous future was dropped first. */
  function PollAll(s: Activation, drops: seq<bool>): Activation
    decreases |drops|
  {
    if drops == [] then s
    else PollAll(OnPoll(if drops[0] then s.(future := Fresh) else s, false), drops[1..])
  }

  predicate Joinable(s: Activation) {
    s.completion.Some? && (s.cleanup.Finished? || s.cleanup.Joined?)
  }

  lemma PollWhenJoinable(s: Activation)
    requires Staged(s) && Joinable(s)
    ensures var s' := OnPoll(s, false);
            if s.channel == [] then s'.given == s.given + [Terminal(Result(s))]
            else
              && s'.given == s.given + [SharedMessage(s.channel[0])]
              && s'.channel == s.channel[1..] && Joinable(s') && Result(s') == Result(s)
  {
    hide Quiet;
    assert !s.held && !s.future.InSelect?;
    if s.future.InCleanup? {
      assert OnPoll(s, false) == Finish(s);
    } else if s.channel != [] {
      assert OnPoll(s, false) == GiveShared(s);
    } else {
      assert OnPoll(s, false) == Finish(s);
    }
  }

  /** One poll, with or without a dropped future before it, hands out exactly the next thing. */
  lemma NextWhenJoinable(s: Activation, drop: bool)
    requires Inv(s) && Joinable(s)
    ensures var s' := OnPoll(if drop then s.(future := Fresh) else s, false);
            && Inv(s')
            && (s.channel == [] ==> s'.given == s.given + [Terminal(Result(s))])
            && (s.channel != [] ==>
                  && s'.given == s.given + [SharedMessage(s.channel[0])]
                  && s'.channel == s.channel[1..] && Joinable(s') && Result(s') == Result(s))
  {
    hide Accounted, Relayed, Revoked, Barrier, Decided, Honest, OnPoll, Finish, Quiet;
    var s0 := if drop then s.(future := Fresh) else s;
    SuspendKeeps(s, Fresh);
    PollWhenJoinable(s0);
    PollKeeps(s0, false);
  }

  /** Once the cleanup task is done, polling hands out the late publications and then the result,
      however often the future is dropped in between. */
  lemma {:induction false} PollsReachTheEnd(s: Activation, drops: seq<bool>)
    requires Inv(s) && Joinable(s) && |drops| == |s.channel| + 1
    ensures PollAll(s, drops).given == s.given + SharedEvents(s.channel) + [Terminal(Result(s))]
    decreases |drops|
  {
    hide Inv, OnPoll, Finish, Result;
    NextWhenJoinable(s, drops[0]);
    var s1 := OnPoll(if drops[0] then s.(future := Fresh) else s, false);
    if s.channel != [] {
      PollsReachTheEnd(s1, drops[1..]);
      assert s.given + [SharedMessage(s.channel[0])] + SharedEvents(s.channel[1..])
           == s.given + SharedEvents(s.channel);
    } else {
      assert s.given + SharedEvents(s.channel) == s.given;
    }
  }
}
