/** One durable delivery of a message to one agent: the stored row, the attempt that is under way,
    and every failure, interruption and retry around them. A direct message is a delivery without
    a capsule. */
module DeliveryMachine {
  import opened Domain

  datatype Status = Pending | Delivered | Failed

  /** The stored row; `capsule` says that one has to come first, `recorded` that it was delivered. */
  datatype Row = Row(status: Status, capsule: bool, recorded: bool)

  datatype Phase = Idle | Opening | SendCapsule | AwaitCapsule | RecordCapsule | SendBody | RecordBody | RecordFailure

  datatype Act = CapsuleSent | CapsuleTurnDone | CapsuleRecorded | BodySent | BodyRecorded

  datatype Outcome = Succeeded | PersistedFailed | RecoveryFailed | Unclaimed | NotPersisted

  /** A storage write answers, or errs with or without having been written. */
  datatype Write = Answers | ErrsUnwritten | ErrsWritten

  datatype Delivery = Delivery(row: Option<Row>, phase: Phase, owed: bool, log: seq<Act>, outcomes: seq<Outcome>)

  function Start(): Delivery {
    Delivery(None, Idle, false, [], [])
  }

  datatype Input =
    | Persist(capsule: bool, write: Write)
    | Claim(write: Write)
    | Open(ok: bool)
    | DoSendCapsule(ok: bool)
    | FinishCapsule(ok: bool)
    | MarkCapsule(write: Write)
    | DoSendBody(ok: bool)
    | MarkDelivered(write: Write)
    | MarkFailed(write: Write)
    | Elsewhere
    | Restart

  predicate IsPending(s: Delivery) {
    s.row.Some? && s.row.value.status.Pending?
  }

  predicate IsFailed(s: Delivery) {
    s.row.Some? && s.row.value.status.Failed?
  }

  predicate IsDelivered(s: Delivery) {
    s.row.Some? && s.row.value.status.Delivered?
  }

  function SetStatus(s: Delivery, status: Status): Delivery
    requires s.row.Some?
  {
    s.(row := Some(s.row.value.(status := status)))
  }

  function End(s: Delivery, outcome: Outcome): Delivery {
    s.(phase := Idle, outcomes := s.outcomes + [outcome])
  }

  function Fail(s: Delivery): Delivery {
    s.(phase := RecordFailure)
  }

  /** Pending rows that nobody works on any more become failed. */
  function Reconcile(s: Delivery): Delivery {
    if IsPending(s) then SetStatus(s, Failed) else s
  }

  function OnPersist(s: Delivery, capsule: bool, write: Write): Delivery {
    if write.ErrsUnwritten? then End(s, NotPersisted)
    else if s.row.Some? then End(s, if write.Answers? then Unclaimed else NotPersisted)
    else
      var s' := s.(row := Some(Row(Pending, capsule, false)), owed := capsule);
      if write.Answers? then s'.(phase := Opening) else End(s', NotPersisted)
  }

  function OnClaim(s: Delivery, write: Write): Delivery {
    if write.ErrsUnwritten? || (write.ErrsWritten? && !IsFailed(s)) then End(s, PersistedFailed)
    else if !IsFailed(s) then End(s, Unclaimed)
    else if write.ErrsWritten? then End(SetStatus(s, Pending), PersistedFailed)
    else SetStatus(s, Pending).(phase := Opening, owed := s.row.value.capsule && !s.row.value.recorded)
  }

  /** The compare-and-set of the capsule mark. */
  predicate CapsuleMarkable(s: Delivery) {
    IsPending(s) && s.row.value.capsule && !s.row.value.recorded
  }

  function OnMarkCapsule(s: Delivery, write: Write): Delivery {
    var s' := if CapsuleMarkable(s) && !write.ErrsUnwritten?
              then s.(row := Some(s.row.value.(recorded := true)), log := s.log + [CapsuleRecorded]) else s;
    if write.Answers? && CapsuleMarkable(s) then s'.(phase := SendBody) else Fail(s')
  }

  function OnMarkDelivered(s: Delivery, write: Write): Delivery {
    var s' := if IsPending(s) && !write.ErrsUnwritten? then SetStatus(s, Delivered).(log := s.log + [BodyRecorded])
              else s;
    if write.Answers? && IsPending(s) then End(s', Succeeded) else Fail(s')
  }

  function OnMarkFailed(s: Delivery, write: Write): Delivery {
    var s' := if IsPending(s) && !write.ErrsUnwritten? then SetStatus(s, Failed) else s;
    End(s', if write.Answers? && IsPending(s) then PersistedFailed else RecoveryFailed)
  }

  predicate Enabled(s: Delivery, input: Input) {
    match input
    case Persist(_, _) => s.phase.Idle?
    case Claim(_) => s.phase.Idle?
    case Open(_) => s.phase.Opening?
    case DoSendCapsule(_) => s.phase.SendCapsule?
    case FinishCapsule(_) => s.phase.AwaitCapsule?
    case MarkCapsule(_) => s.phase.RecordCapsule?
    case DoSendBody(_) => s.phase.SendBody?
    case MarkDelivered(_) => s.phase.RecordBody?
    case MarkFailed(_) => s.phase.RecordFailure?
    case Elsewhere => true
    case Restart => true
  }

  /** `Elsewhere` is the start-up of another process on the same store, `Restart` the end of this
      one at any await followed by the next start-up. */
  function Step(s: Delivery, input: Input): Delivery
    requires Enabled(s, input)
  {
    match input
    case Persist(capsule, write) => OnPersist(s, capsule, write)
    case Claim(write) => OnClaim(s, write)
    case Open(ok) => if ok then s.(phase := if s.owed then SendCapsule else SendBody) else Fail(s)
    case DoSendCapsule(ok) => s.(log := s.log + [CapsuleSent], phase := if ok then AwaitCapsule else RecordFailure)
    case FinishCapsule(ok) => if ok then s.(log := s.log + [CapsuleTurnDone], phase := RecordCapsule) else Fail(s)
    case MarkCapsule(write) => OnMarkCapsule(s, write)
    case DoSendBody(ok) => s.(log := s.log + [BodySent], phase := if ok then RecordBody else RecordFailure)
    case MarkDelivered(write) => OnMarkDelivered(s, write)
    case MarkFailed(write) => OnMarkFailed(s, write)
    case Elsewhere => Reconcile(s)
    case Restart => Reconcile(s).(phase := Idle)
  }

  // ---- What the log may look like ----

  /** A recorded capsule is never sent again. */
  predicate NoResend(log: seq<Act>) {
    forall i, j :: 0 <= i < j < |log| && log[i].CapsuleRecorded? ==> !log[j].CapsuleSent?
  }

  /** A capsule is recorded right after it was sent and its turn completed. */
  predicate RecordedAfterTurn(log: seq<Act>) {
    forall i :: 0 <= i < |log| && log[i].CapsuleRecorded? ==>
      i >= 2 && log[i - 1].CapsuleTurnDone? && log[i - 2].CapsuleSent?
  }

  /** No body goes out while its capsule is owed. */
  predicate CapsuleFirst(log: seq<Act>) {
    forall j :: 0 <= j < |log| && log[j].BodySent? ==> CapsuleRecorded in log[..j]
  }

  /** The body counts as delivered right after it was sent, and nothing is ever sent afterwards. */
  predicate DeliveredLast(log: seq<Act>) {
    forall i :: 0 <= i < |log| && log[i].BodyRecorded? ==>
      i == |log| - 1 && i >= 1 && log[i - 1].BodySent?
  }

  predicate Orderly(log: seq<Act>, capsule: bool) {
    && NoResend(log) && RecordedAfterTurn(log) && DeliveredLast(log)
    && (capsule ==> CapsuleFirst(log))
    && (!capsule ==> CapsuleSent !in log)
  }

  predicate EndsWith(log: seq<Act>, act: Act) {
    log != [] && log[|log| - 1] == act
  }

  predicate PhaseOk(s: Delivery) {
    && (s.row.None? ==> s.phase.Idle? && s.log == [])
    && (s.row.Some? && !s.phase.Idle? && !s.phase.RecordFailure? ==> !IsDelivered(s))
    && (s.phase.Opening? ==> s.owed == (s.row.value.capsule && !s.row.value.recorded))
    && (s.phase.SendCapsule? || s.phase.AwaitCapsule? || s.phase.RecordCapsule? ==>
          s.row.value.capsule && !s.row.value.recorded)
    && (s.phase.AwaitCapsule? ==> EndsWith(s.log, CapsuleSent))
    && (s.phase.RecordCapsule? ==> |s.log| >= 2 && EndsWith(s.log, CapsuleTurnDone) && s.log[|s.log| - 2].CapsuleSent?)
    && (s.phase.SendBody? || s.phase.RecordBody? ==> s.row.value.capsule ==> s.row.value.recorded)
    && (s.phase.RecordBody? ==> EndsWith(s.log, BodySent))
  }

  predicate RowOk(s: Delivery) {
    s.row.Some? ==>
      && Orderly(s.log, s.row.value.capsule)
      && (s.row.value.recorded <==> CapsuleRecorded in s.log)
      && (IsDelivered(s) <==> EndsWith(s.log, BodyRecorded))
  }

  predicate Inv(s: Delivery) {
    PhaseOk(s) && RowOk(s)
  }

  lemma LogGrows(log: seq<Act>, act: Act, capsule: bool)
    requires Orderly(log, capsule) && !EndsWith(log, BodyRecorded)
    requires act.CapsuleSent? ==> capsule && CapsuleRecorded !in log
    requires act.CapsuleRecorded? ==> |log| >= 2 && EndsWith(log, CapsuleTurnDone) && log[|log| - 2].CapsuleSent?
    requires act.BodySent? && capsule ==> CapsuleRecorded in log
    requires act.BodyRecorded? ==> EndsWith(log, BodySent)
    ensures Orderly(log + [act], capsule)
  {
    var more := log + [act];
    assert more[..|log|] == log;
    assert capsule ==> CapsuleFirst(more) by {
      forall j | 0 <= j < |more| && more[j].BodySent? && capsule ensures CapsuleRecorded in more[..j] {
        assert more[..j] == if j < |log| then log[..j] else log;
      }
    }
  }

  lemma EmptyOrderly(capsule: bool)
    ensures Orderly([], capsule)
  {
  }

  lemma CapsuleStepKeeps(s: Delivery, input: Input)
    requires Inv(s) && Enabled(s, input) && (input.DoSendCapsule? || input.FinishCapsule?)
    ensures Inv(Step(s, input))
  {
    hide Orderly;
    if input.DoSendCapsule? {
      LogGrows(s.log, CapsuleSent, s.row.value.capsule);
    } else {
      LogGrows(s.log, CapsuleTurnDone, s.row.value.capsule);
    }
  }

  lemma MarkCapsuleKeeps(s: Delivery, write: Write)
    requires Inv(s) && s.phase.RecordCapsule?
    ensures Inv(OnMarkCapsule(s, write))
  {
    hide Orderly;
    LogGrows(s.log, CapsuleRecorded, s.row.value.capsule);
  }

  lemma SendBodyKeeps(s: Delivery, ok: bool)
    requires Inv(s) && s.phase.SendBody?
    ensures Inv(Step(s, DoSendBody(ok)))
  {
    hide Orderly;
    LogGrows(s.log, BodySent, s.row.value.capsule);
  }

  lemma MarkDeliveredKeeps(s: Delivery, write: Write)
    requires Inv(s) && s.phase.RecordBody?
    ensures Inv(OnMarkDelivered(s, write))
  {
    hide Orderly;
    LogGrows(s.log, BodyRecorded, s.row.value.capsule);
  }

  lemma RowStepKeeps(s: Delivery, input: Input)
    requires Inv(s) && Enabled(s, input)
    requires input.Persist? || input.Claim? || input.Open? || input.MarkFailed? || input.Elsewhere? || input.Restart?
    ensures Inv(Step(s, input))
  {
    hide Orderly;
    if input.Persist? { EmptyOrderly(input.capsule); }
  }

  lemma StepKeepsInv(s: Delivery, input: Input)
    requires Inv(s) && Enabled(s, input)
    ensures Inv(Step(s, input))
  {
    hide Inv, OnPersist, OnClaim, OnMarkCapsule, OnMarkDelivered, OnMarkFailed, Reconcile;
    match input
    case DoSendCapsule(_) => CapsuleStepKeeps(s, input);
    case FinishCapsule(_) => CapsuleStepKeeps(s, input);
    case MarkCapsule(write) => MarkCapsuleKeeps(s, write);
    case DoSendBody(ok) => SendBodyKeeps(s, ok);
    case MarkDelivered(write) => MarkDeliveredKeeps(s, write);
    case _ => RowStepKeeps(s, input);
  }

  // ---- Over whole runs of send, fail, restart and retry ----

  /** The state after the inputs, or None when one of them could not happen. */
  function Run(s: Delivery, inputs: seq<Input>): Option<Delivery>
    decreases |inputs|
  {
    if inputs == [] then Some(s)
    else
      var before := Run(s, inputs[..|inputs| - 1]);
      var input := inputs[|inputs| - 1];
      if before.Some? && Enabled(before.value, input) then Some(Step(before.value, input)) else None
  }

  lemma {:induction false} RunKeepsInv(s: Delivery, inputs: seq<Input>)
    requires Inv(s) && Run(s, inputs).Some?
    ensures Inv(Run(s, inputs).value)
    decreases |inputs|
  {
    hide Inv, Enabled, Step;
    if inputs != [] {
      var init := inputs[..|inputs| - 1];
      RunKeepsInv(s, init);
      StepKeepsInv(Run(s, init).value, inputs[|inputs| - 1]);
    }
  }

  lemma {:induction false} RunMore(s: Delivery, a: seq<Input>, b: seq<Input>)
    requires Run(s, a).Some?
    ensures Run(s, a + b) == Run(Run(s, a).value, b)
    decreases |b|
  {
    hide Step, Enabled;
    if b == [] {
      assert a + b == a;
    } else {
      var whole := a + b;
      assert whole[..|whole| - 1] == a + b[..|b| - 1];
      RunMore(s, a, b[..|b| - 1]);
    }
  }

  /** In every run: the body never precedes an owed capsule, a capsule is recorded only right after
      its completed turn and never sent again, and nothing follows a recorded body. */
  lemma DeliveriesAreOrderly(inputs: seq<Input>)
    requires Run(Start(), inputs).Some? && Run(Start(), inputs).value.row.Some?
    ensures var s := Run(Start(), inputs).value; Orderly(s.log, s.row.value.capsule)
  {
    hide Run, Orderly;
    RunKeepsInv(Start(), inputs);
  }

  lemma DeliveredStays(s: Delivery, input: Input)
    requires Inv(s) && Enabled(s, input) && IsDelivered(s)
    ensures Step(s, input).row == s.row && Step(s, input).log == s.log
    ensures Step(s, input).outcomes == s.outcomes
            || exists o :: Step(s, input).outcomes == s.outcomes + [o] && !o.Succeeded?
  {
    hide Orderly;
  }

  predicate NoneSucceeded(outcomes: seq<Outcome>) {
    Succeeded !in outcomes
  }

  /** A delivered row is delivered for good: no retry, no failure mark and no start-up takes it
      back, nothing is sent for it any more and no second success is told. */
  lemma {:induction false} DeliveredForGood(s: Delivery, inputs: seq<Input>)
    requires Inv(s) && IsDelivered(s) && Run(s, inputs).Some?
    ensures Run(s, inputs).value.row == s.row && Run(s, inputs).value.log == s.log
    ensures var outcomes := Run(s, inputs).value.outcomes;
            s.outcomes <= outcomes && NoneSucceeded(outcomes[|s.outcomes|..])
    decreases |inputs|
  {
    hide Inv, Enabled, Step;
    if inputs != [] {
      var init := inputs[..|inputs| - 1];
      DeliveredForGood(s, init);
      RunKeepsInv(s, init);
      DeliveredStays(Run(s, init).value, inputs[|inputs| - 1]);
      var before, after := Run(s, init).value.outcomes, Run(s, inputs).value.outcomes;
      if after != before {
        assert after[|s.outcomes|..] == before[|s.outcomes|..] + [after[|after| - 1]];
      }
    }
  }

  lemma DeliveredSince(before: seq<Input>, after: seq<Input>)
    requires before <= after && Run(Start(), before).Some? && Run(Start(), after).Some?
    requires IsDelivered(Run(Start(), before).value)
    ensures var s, s' := Run(Start(), before).value, Run(Start(), after).value;
            s'.row == s.row && s'.log == s.log && IsDelivered(s')
            && s.outcomes <= s'.outcomes && NoneSucceeded(s'.outcomes[|s.outcomes|..])
  {
    hide Inv, Run, NoneSucceeded;
    assert Inv(Start()) by { StartInv(); }
    var more := after[|before|..];
    assert after == before + more;
    RunKeepsInv(Start(), before);
    RunMore(Start(), before, more);
    DeliveredForGood(Run(Start(), before).value, more);
  }

  lemma StartInv()
    ensures Inv(Start())
  {
  }

  function Answer(s: Delivery, s': Delivery): (outcome: Option<Outcome>)
  {
    if |s'.outcomes| > |s.outcomes| then Some(s'.outcomes[|s'.outcomes| - 1]) else None
  }

  /** Success is told exactly by the write that makes the row delivered. */
  lemma SucceededMeansDelivered(s: Delivery, input: Input)
    requires Inv(s) && Enabled(s, input)
    ensures Answer(s, Step(s, input)) == Some(Succeeded) <==>
            input.MarkDelivered? && input.write.Answers? && IsPending(s) && IsDelivered(Step(s, input))
  {
    hide Orderly;
  }

  /** A claim that errs tells nothing about the row. */
  predicate ClaimErred(input: Input) {
    input.Claim? && !input.write.Answers?
  }

  /** A plain persisted failure leaves the row failed and retryable, exactly unless it was the claim
      of a retry that erred over a row which was not failed or no longer is. */
  lemma PlainFailureIsRetryable(s: Delivery, input: Input)
    requires Inv(s) && Enabled(s, input) && Answer(s, Step(s, input)) == Some(PersistedFailed)
    ensures var s' := Step(s, input);
            && (IsFailed(s') <==> !(ClaimErred(input) && (!IsFailed(s) || input.write.ErrsWritten?)))
            && (IsFailed(s') ==> IsPending(Step(s', Claim(Answers))) && Step(s', Claim(Answers)).phase.Opening?)
  {
    hide Orderly;
  }

  /** A retry whose claim errs reports a persisted failure for a message that is delivered. */
  lemma DeliveredReportedFailed() returns (inputs: seq<Input>)
    ensures Run(Start(), inputs).Some?
    ensures var s := Run(Start(), inputs).value;
            IsDelivered(s) && s.outcomes == [Succeeded, PersistedFailed]
  {
    var s0 := Start();
    var persist, open, send := Persist(false, Answers), Open(true), DoSendBody(true);
    var mark, claim := MarkDelivered(Answers), Claim(ErrsUnwritten);
    inputs := [persist, open, send, mark, claim];
    assert inputs[..4] == [persist, open, send, mark] && inputs[..4][..3] == [persist, open, send];
    assert [persist, open, send][..2] == [persist, open] && [persist, open][..1] == [persist] && [persist][..0] == [];
    assert Run(s0, [persist]) == Some(Step(s0, persist));
    assert Run(s0, [persist, open]) == Some(Step(Step(s0, persist), open));
    assert Run(s0, [persist, open, send]) == Some(Step(Step(Step(s0, persist), open), send));
    assert Run(s0, inputs[..4]) == Some(Step(Step(Step(Step(s0, persist), open), send), mark));
  }

  /** The retry in which nothing goes wrong. */
  function SmoothRetry(capsule: bool): seq<Input> {
    [Claim(Answers), Open(true)]
    + (if capsule then [DoSendCapsule(true), FinishCapsule(true), MarkCapsule(Answers)] else [])
    + [DoSendBody(true), MarkDelivered(Answers)]
  }

  lemma RunOne(s: Delivery, input: Input, more: seq<Input>)
    requires Enabled(s, input)
    ensures Run(s, [input] + more) == Run(Step(s, input), more)
  {
    hide Step, Enabled;
    assert [input][..0] == [];
    assert Run(s, [input]) == Some(Step(s, input));
    RunMore(s, [input], more);
  }

  /** Whatever happened before, a failed delivery can still be completed, and only an owed capsule
      is sent again for it. */
  lemma RetryCanSucceed(s: Delivery)
    requires Inv(s) && s.phase.Idle? && IsFailed(s)
    ensures var owed := s.row.value.capsule && !s.row.value.recorded;
            var end := Run(s, SmoothRetry(owed));
            && end.Some? && IsDelivered(end.value)
            && end.value.outcomes == s.outcomes + [Succeeded]
            && end.value.log == s.log + (if owed then [CapsuleSent, CapsuleTurnDone, CapsuleRecorded]
                else []) + [BodySent, BodyRecorded]
  {
    hide Run, RowOk;
    var owed := s.row.value.capsule && !s.row.value.recorded;
    var s1 := Step(s, Claim(Answers));
    var s2 := Step(s1, Open(true));
    var tail := [DoSendBody(true), MarkDelivered(Answers)];
    var middle := if owed then [DoSendCapsule(true), FinishCapsule(true), MarkCapsule(Answers)] else [];
    assert SmoothRetry(owed) == [Claim(Answers)] + ([Open(true)] + (middle + tail));
    RunOne(s, Claim(Answers), [Open(true)] + (middle + tail));
    RunOne(s1, Open(true), middle + tail);
    if owed {
      CapsulePart(s2, tail);
      BodyPart(Step(Step(Step(s2, DoSendCapsule(true)), FinishCapsule(true)), MarkCapsule(Answers)));
    } else {
      assert middle + tail == tail;
      BodyPart(s2);
    }
  }

  lemma CapsulePart(s: Delivery, tail: seq<Input>)
    requires s.phase.SendCapsule? && CapsuleMarkable(s)
    ensures var s' := Step(Step(Step(s, DoSendCapsule(true)), FinishCapsule(true)), MarkCapsule(Answers));
            && Run(s, [DoSendCapsule(true), FinishCapsule(true), MarkCapsule(Answers)] + tail) == Run(s', tail)
            && s'.phase.SendBody? && IsPending(s') && s'.outcomes == s.outcomes
            && s'.log == s.log + [CapsuleSent, CapsuleTurnDone, CapsuleRecorded]
  {
    hide Run;
    var s1 := Step(s, DoSendCapsule(true));
    var s2 := Step(s1, FinishCapsule(true));
    var rest := [MarkCapsule(Answers)] + tail;
    assert [DoSendCapsule(true), FinishCapsule(true), MarkCapsule(Answers)] + tail
        == [DoSendCapsule(true)] + ([FinishCapsule(true)] + rest);
    RunOne(s, DoSendCapsule(true), [FinishCapsule(true)] + rest);
    RunOne(s1, FinishCapsule(true), rest);
    RunOne(s2, MarkCapsule(Answers), tail);
  }

  lemma BodyPart(s: Delivery)
    requires s.phase.SendBody? && IsPending(s)
    ensures var end := Run(s, [DoSendBody(true), MarkDelivered(Answers)]);
            && end.Some? && IsDelivered(end.value) && end.value.outcomes == s.outcomes + [Succeeded]
            && end.value.log == s.log + [BodySent, BodyRecorded]
  {
    var s1 := Step(s, DoSendBody(true));
    var s2 := Step(s1, MarkDelivered(Answers));
    RunOne(s, DoSendBody(true), [MarkDelivered(Answers)]);
    RunOne(s1, MarkDelivered(Answers), []);
    assert [DoSendBody(true)] + [MarkDelivered(Answers)] == [DoSendBody(true), MarkDelivered(Answers)];
    assert [MarkDelivered(Answers)] + [] == [MarkDelivered(Answers)];
  }
}
