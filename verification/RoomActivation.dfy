/** The activation itself: `next_event`, `cancel` and `begin_finish`, each one step of the machine. */
module RoomActivations {
  import opened Domain
  import M = RoomMachine

  /** What the scope's requests, the storage worker and the cleanup task have done so far. */
  datatype Surroundings = Surroundings(
    jobs: seq<M.Job>,
    worker: M.Worker,
    open: bool,
    published: seq<M.MessageId>,
    recorded: M.Stored,
    clean: bool)

  datatype Polled = Pending | Over | Yields(event: M.RoomEvent)

  /** What a poll answered, told from what it added to the history. */
  ghost function Handed(before: seq<M.RoomEvent>, s: M.Activation): Polled {
    if |s.given| > |before| then Yields(s.given[|s.given| - 1]) else if s.future.Fresh? then Over else Pending
  }

  lemma HandedNothing(before: seq<M.RoomEvent>, s: M.Activation)
    requires s.given == before
    ensures Handed(before, s) == if s.future.Fresh? then Over else Pending
  {
  }

  // ---- One event, in the two strokes the loop takes ----

  ghost function Pull(s: M.Activation): M.Activation
    requires s.events != []
  {
    s.(events := s.events[1..], read := s.read + [s.events[0]], future := M.Fresh)
  }

  ghost function Track(s: M.Activation, event: TransportEvent): M.Activation {
    s.(tools := M.ToolsAfter(event, s.tools))
  }

  lemma HandleIsPullThenTrack(s: M.Activation)
    requires s.events != []
    ensures var s' := Track(Pull(s), s.events[0]);
            M.Handle(s) == match M.Next(s) {
              case Gives(event) => M.Give(s', event)
              case Ends(outcome) => M.BeginFinish(s', outcome)
              case Skips => s'
            }
  {
    hide M.Consume, M.ToolsAfter;
    assert M.Take(s) == Track(Pull(s), s.events[0]);
  }

  /** A poll that is about to leave publications in the channel for a ready event. */
  ghost predicate Passes(s: M.Activation, first: bool) {
    s.future.InSelect? && first && M.Ready(s)
  }

  lemma PollShares(s: M.Activation, first: bool)
    requires !s.future.InCleanup? && s.channel != [] && !Passes(s, first)
    ensures M.OnPoll(s, first) == M.GiveShared(s)
  {
    hide M.GiveShared;
  }

  lemma PollFinishes(s: M.Activation, first: bool)
    requires !s.future.InCleanup? && (s.channel == [] || Passes(s, first)) && s.completion.Some?
    ensures M.OnPoll(s, first)
         == if s.cleanup.Finished? || s.cleanup.Joined? then M.Finish(s) else s.(future := M.InCleanup)
  {
    hide M.Finish;
  }

  lemma PollOver(s: M.Activation, first: bool)
    requires !s.future.InCleanup? && (s.channel == [] || Passes(s, first)) && s.completion.None? && !s.held
    ensures M.OnPoll(s, first) == s.(future := M.Fresh)
  {
  }

  lemma PollSelects(s: M.Activation, first: bool)
    requires !s.future.InCleanup? && (s.channel == [] || Passes(s, first)) && s.completion.None? && s.held
    ensures M.OnPoll(s, first) ==
            if s.events == [] then
              if s.closed then M.OnPoll(M.BeginFinish(s, M.Broken), false) else s.(future := M.InSelect)
            else if M.Next(s).Gives? then M.Handle(s) else M.OnPoll(M.Handle(s), false)
  {
    hide M.Handle, M.Next;
  }

  /** Another turn of the loop has handed nothing out and has less to read. */
  ghost predicate Again(s: M.Activation, s': M.Activation) {
    && s'.given == s.given && s'.future.Fresh? && (s'.completion.Some? ==> !s'.held)
    && s.held && (s'.held ==> |s'.events| < |s.events|)
  }

  lemma AgainAfter(s: M.Activation)
    requires s.held && s.completion.None?
    ensures s.events != [] && !M.Next(s).Gives? ==> Again(s, M.Handle(s))
    ensures Again(s, M.BeginFinish(s, M.Broken))
  {
    hide M.Consume, M.ToolsAfter;
  }

  class RoomActivation {
    var publicationAlive: bool
    var runtime: bool
    var cancelled: bool
    var activeTools: set<string>
    var completion: Option<M.Outcome>
    var cleanup: M.Cleanup
    var plan: Option<M.Plan>
    var publications: seq<M.MessageId>
    var events: seq<TransportEvent>
    var closed: bool
    var suspended: M.Future
    ghost var around: Surroundings
    ghost var read: seq<TransportEvent>
    ghost var given: seq<M.RoomEvent>

    ghost function Model(): M.Activation
      reads this
    {
      M.Activation(publicationAlive, around.jobs, around.worker, around.open, around.published, around.recorded,
                   publications, events, closed, runtime, cancelled, activeTools, completion, cleanup,
                   plan, around.clean,
                   suspended, read, given)
    }

    lemma Fields()
      ensures var s := Model();
              && s.held == runtime && s.channel == publications && s.events == events && s.closed == closed
              && s.completion == completion && s.clean == around.clean && s.cleanup == cleanup
                  && s.future == suspended && s.given == given
    {
    }

    constructor ()
      ensures Model() == M.Start()
    {
      publicationAlive, runtime, cancelled, activeTools := true, true, false, {};
      completion, cleanup, plan, publications, events, closed := None, M.NotSpawned, None, [], [], false;
      suspended, around, read, given := M.Fresh, Surroundings([], M.Idle, true, [], M.Unfinished, true), [], [];
    }

    method ActivityAfterPermission() returns (activity: M.Activity)
      ensures activity.Working? <==> forall tool :: tool !in activeTools
    {
      activity := if activeTools == {} then M.Working else M.ToolRunning;
    }

    /** The owner is asked to cancel once; the scope is revoked even when asking it fails. */
    method Cancel(cancelTurnOk: bool) returns (ok: bool)
      modifies this
      ensures Model() == M.Step(old(Model()), M.Cancel(cancelTurnOk))
      ensures ok <==> (old(runtime) && !old(cancelled) ==> cancelTurnOk)
      ensures !publicationAlive && (cancelled <==> old(cancelled) || (runtime && cancelTurnOk))
    {
      ok := true;
      publicationAlive := false;
      if runtime && !cancelled {
        if !cancelTurnOk { return false; }
        cancelled := true;
      }
    }

    /** The runtime goes to the cleanup, which is told whether to quarantine the session and which
        status to write; the result waits for it. */
    method BeginFinish(outcome: M.Outcome)
      requires runtime
      modifies `runtime, `completion, `cleanup, `plan, `suspended
      ensures Model() == M.BeginFinish(old(Model()), outcome)
    {
      runtime := false;
      var disconnected := outcome.Broken?;
      var completed := outcome.Completed?;
      plan := Some(M.Plan(disconnected, completed));
      completion := Some(outcome);
      cleanup := M.Spawned;
      suspended := M.Fresh;
    }

    method Yield(event: M.RoomEvent) returns (polled: Polled)
      modifies `suspended, `given
      ensures Model() == M.Give(old(Model()), event) && polled == Yields(event)
    {
      suspended := M.Fresh;
      given := given + [event];
      polled := Yields(event);
    }

    /** The next publication, if one waits in the channel. */
    method TryShared() returns (polled: Option<Polled>)
      modifies `publications, `suspended, `given
      ensures polled.None? <==> old(Model()).channel == []
      ensures polled.None? ==> unchanged(this)
      ensures polled.Some? ==> Model() == M.GiveShared(old(Model()))
      ensures polled.Some? ==> polled.value == Handed(old(Model()).given, Model())
    {
      if publications == [] { return None; }
      var message := publications[0];
      publications := publications[1..];
      var yielded := Yield(M.SharedMessage(message));
      polled := Some(yielded);
    }

    method YieldTerminal() returns (polled: Polled)
      requires Model().completion.Some?
      modifies `completion, `suspended, `given
      ensures Model() == M.GiveTerminal(old(Model())) && polled == Handed(old(Model()).given, Model())
    {
      var outcome := completion.value;
      completion := None;
      polled := Yield(M.Terminal(outcome));
    }

    /** Waits for the cleanup task; its failure replaces the result. */
    method Join(cleanupOk: bool) returns (joined: bool)
      requires completion.Some? && cleanupOk == around.clean
      modifies `completion, `cleanup, `suspended
      ensures joined <==> old(cleanup).Finished? || old(cleanup).Joined?
      ensures Model() == if joined then M.Join(old(Model()))
                         else old(Model()).(future := M.InCleanup)
    {
      if !cleanup.Joined? {
        if !cleanup.Finished? {
          suspended := M.InCleanup;
          return false;
        }
        cleanup := M.Joined;
      }
      if !cleanupOk { completion := Some(M.Broken); }
      joined := true;
    }

    /** What a joined cleanup left behind: late publications first, then the result. */
    method TryLate() returns (polled: Polled)
      requires Model().completion.Some?
      modifies `completion, `publications, `suspended, `given
      ensures Model() == if old(Model()).channel != [] then M.GiveShared(old(Model())) else M.GiveTerminal(old(Model()))
      ensures polled == Handed(old(Model()).given, Model())
    {
      hide Model, M.GiveShared, M.GiveTerminal, Handed;
      var late := TryShared();
      if late.Some? { return late.value; }
      polled := YieldTerminal();
    }

    /** Waits for the cleanup task, then hands out what it left behind. */
    method FinishUp(cleanupOk: bool) returns (polled: Polled)
      requires completion.Some? && cleanupOk == around.clean
      modifies `completion, `cleanup, `publications, `suspended, `given
      ensures Model() == if old(cleanup).Finished? || old(cleanup).Joined? then M.Finish(old(Model()))
                         else old(Model()).(future := M.InCleanup)
      ensures polled == Handed(old(Model()).given, Model())
    {
      Fields();
      hide Model, M.Result, M.GiveShared, M.GiveTerminal, Handed;
      var joined := Join(cleanupOk);
      if !joined {
        HandedNothing(old(Model()).given, Model());
        return Pending;
      }
      polled := TryLate();
    }

    method Suspend(future: M.Future)
      modifies `suspended
      ensures Model() == old(Model()).(future := future)
    {
      suspended := future;
    }

    method TakeEvent() returns (event: TransportEvent)
      requires events != []
      modifies `events, `read, `suspended
      ensures event == old(events[0]) && events == old(events[1..]) && Model() == Pull(old(Model()))
    {
      event := events[0];
      events := events[1..];
      read := read + [event];
      suspended := M.Fresh;
    }

    /** What the event means to the Room. */
    method Translate(event: TransportEvent) returns (consumed: M.Consumed)
      modifies `activeTools
      ensures consumed == M.Consume(event, old(activeTools), cancelled)
      ensures activeTools == M.ToolsAfter(event, old(activeTools))
      ensures event.PermissionRequested? ==> consumed == M.Gives(M.PermissionAsked(event.request))
      ensures event.AgentTextDelta? ==> consumed == M.Gives(M.TextPreview(event.text))
      ensures event.ToolCallStarted? ==>
                consumed == M.Gives(M.AgentActivity(M.ToolRunning)) && activeTools == old(activeTools) + {event.tool}
      ensures event.ToolCallFinished? ==>
                && activeTools == old(activeTools) - {event.tool}
                && consumed == if event.tool !in old(activeTools) then M.Skips
                               else M.Gives(M.AgentActivity(if activeTools == {} then M.Working else M.ToolRunning))
      ensures event.TurnCompleted? ==> consumed == M.Ends(if cancelled then M.WasCancelled else M.Completed)
      ensures event.TurnFailed? ==> consumed == M.Ends(M.Failed(event.reason))
      ensures event.SessionLost? || event.TransportDisconnected? ==> consumed == M.Ends(M.Broken)
    {
      consumed := M.Skips;
      match event {
        case PermissionRequested(request) => consumed := M.Gives(M.PermissionAsked(request));
        case ToolCallStarted(_, tool, _) =>
          activeTools := activeTools + {tool};
          consumed := M.Gives(M.AgentActivity(M.ToolRunning));
        case ToolCallFinished(_, tool) =>
          if tool in activeTools {
            activeTools := activeTools - {tool};
            var activity := ActivityAfterPermission();
            consumed := M.Gives(M.AgentActivity(activity));
          }
        case AgentTextDelta(_, text) => consumed := M.Gives(M.TextPreview(text));
        case TurnCompleted(_) => consumed := M.Ends(if cancelled then M.WasCancelled else M.Completed);
        case TurnFailed(_, reason) => consumed := M.Ends(M.Failed(reason));
        case SessionLost(_) => consumed := M.Ends(M.Broken);
        case TransportDisconnected(_, _) => consumed := M.Ends(M.Broken);
        case _ =>
      }
    }

    method TakeAndTranslate() returns (consumed: M.Consumed)
      requires events != []
      modifies `events, `read, `suspended, `activeTools
      ensures consumed == M.Next(old(Model()))
      ensures Model() == Track(Pull(old(Model())), old(events[0])) && events == old(events[1..]) && suspended.Fresh?
    {
      hide M.Consume, M.ToolsAfter;
      var event := TakeEvent();
      consumed := Translate(event);
    }

    /** Takes the next session event and hands out what it means; an event that ends the turn starts
        the cleanup instead. */
    method HandleEvent() returns (polled: Option<Polled>)
      requires events != [] && runtime
      modifies `events, `read, `suspended, `activeTools, `given, `runtime, `completion, `cleanup, `plan
      ensures Model() == M.Handle(old(Model()))
      ensures polled.Some? <==> M.Next(old(Model())).Gives?
      ensures polled.Some? ==> polled.value == Handed(old(Model()).given, Model())
    {
      HandleIsPullThenTrack(Model());
      Fields();
      hide M.Consume, M.ToolsAfter, M.Handle, Model, Track, M.Next, M.Give, M.BeginFinish;
      polled := None;
      var consumed := TakeAndTranslate();
      match consumed {
        case Gives(event) =>
          var yielded := Yield(event);
          polled := Some(yielded);
        case Ends(outcome) => BeginFinish(outcome);
        case Skips =>
      }
    }

    /** The `select!` with no publication taken: an event, the end of the stream, or nothing yet. */
    method Select() returns (polled: Option<Polled>)
      requires runtime && completion.None?
      modifies `events, `read, `suspended, `activeTools, `given, `runtime, `completion, `cleanup, `plan
      ensures polled.Some? ==> Model() == if old(events) == [] then old(Model()).(future := M.InSelect)
                else M.Handle(old(Model()))
      ensures polled.Some? ==> polled.value == Handed(old(Model()).given, Model())
      ensures polled.Some? <==> if old(events) == [] then !closed else M.Next(old(Model())).Gives?
      ensures polled.None? ==> Model() == if old(events) == [] then M.BeginFinish(old(Model()), M.Broken)
                else M.Handle(old(Model()))
      ensures polled.None? ==> Again(old(Model()), Model())
    {
      Fields();
      AgainAfter(Model());
      hide M.Handle, M.Next, M.BeginFinish, Model, Again;
      if events != [] {
        polled := HandleEvent();
      } else if closed {
        BeginFinish(M.Broken);
        polled := None;
      } else {
        Suspend(M.InSelect);
        polled := Some(Pending);
      }
    }

    /** One turn of the `next_event` loop: an answer, or another turn from the top. */
    method Turn(first: bool, cleanupOk: bool) returns (polled: Option<Polled>)
      requires !suspended.InCleanup? && (first ==> suspended.InSelect?) && (completion.Some? ==> !runtime)
      requires cleanupOk == around.clean
      modifies `publications, `events, `read, `suspended, `activeTools, `given, `runtime, `completion, `cleanup, `plan
      ensures polled.Some? ==> Model() == M.OnPoll(old(Model()), first)
      ensures polled.Some? ==> polled.value == Handed(old(Model()).given, Model())
      ensures polled.None? ==> M.OnPoll(Model(), false) == M.OnPoll(old(Model()), first)
      ensures polled.None? ==> Again(old(Model()), Model())
    {
      Fields();
      ghost var s := Model();
      hide M.Finish, M.Handle, M.Next, M.GiveShared, M.BeginFinish, M.OnPoll, Model, Again, Handed;
      if !(first && (events != [] || closed)) {
        polled := TryShared();
        if polled.Some? {
          PollShares(s, first);
          return;
        }
      }
      if completion.Some? {
        PollFinishes(s, first);
        var finished := FinishUp(cleanupOk);
        return Some(finished);
      }
      if !runtime {
        PollOver(s, first);
        Suspend(M.Fresh);
        HandedNothing(old(Model()).given, Model());
        return Some(Over);
      }
      PollSelects(s, first);
      polled := Select();
    }

    /** One poll of `next_event`. */
    method NextEvent(eventFirst: bool, cleanupOk: bool) returns (polled: Polled)
      requires M.Staged(Model()) && cleanupOk == around.clean
      modifies `publications, `events, `read, `suspended, `activeTools, `given, `runtime, `completion, `cleanup, `plan
      ensures Model() == M.OnPoll(old(Model()), eventFirst)
      ensures polled == Handed(old(Model()).given, Model())
      ensures polled == if |given| > |old(given)| then Yields(given[|given| - 1])
                        else if suspended.Fresh? then Over else Pending
    {
      Fields();
      hide M.Quiet, M.Finish, M.Handle, M.Next, M.GiveShared, Model;
      if suspended.InCleanup? {
        polled := FinishUp(cleanupOk);
        Fields();
        return;
      }
      var first := eventFirst && suspended.InSelect?;
      assert M.OnPoll(Model(), first) == M.OnPoll(Model(), eventFirst);
      hide M.OnPoll, M.Staged;
      while true
        invariant Model().given == old(Model()).given
        invariant completion.Some? ==> !runtime
        invariant !suspended.InCleanup? && (first ==> suspended.InSelect?)
        invariant M.OnPoll(Model(), first) == M.OnPoll(old(Model()), eventFirst)
        decreases runtime, |events|
      {
        Fields();
        var answer := Turn(first, cleanupOk);
        Fields();
        if answer.Some? { return answer.value; }
        first := false;
      }
    }
  }
}
