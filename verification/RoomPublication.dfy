/** From commit to screen: the activations of a turn and the turn that drains them, together. */
module RoomPublication {
  import opened Domain
  import M = RoomMachine
  import T = RoomTurns

  // ---- The joint run ----

  /** The activations by their index in the turn, and the wakes the turn was given so far. */
  datatype Joint = Joint(activations: seq<M.Activation>, wakes: seq<T.Wake>)

  /** A step inside one activation or around it, or a wake that comes from no activation. */
  datatype Move =
    | Inside(index: nat, input: M.Input, mentions: seq<AgentId>, responded: T.Responded)
    | Outside(wake: T.Wake)

  function IndexOf(wake: T.Wake): Option<nat> {
    match wake
    case SharedMessage(index, _, _) => Some(index)
    case Progress(index) => Some(index)
    case PermissionAsked(index, _, _) => Some(index)
    case Terminal(index) => Some(index)
    case _ => None
  }

  /** An event that `next_event` hands out is the next wake of the turn. */
  function WakeFor(index: nat, event: M.RoomEvent, mentions: seq<AgentId>, responded: T.Responded): (wake: T.Wake)
    ensures IndexOf(wake) == Some(index)
  {
    match event
    case SharedMessage(message) => T.SharedMessage(index, message, mentions)
    case AgentActivity(_) => T.Progress(index)
    case TextPreview(_) => T.Progress(index)
    case PermissionAsked(request) => T.PermissionAsked(index, request, responded)
    case Terminal(_) => T.Terminal(index)
  }

  predicate Enabled(j: Joint, move: Move) {
    match move
    case Inside(index, input, _, _) => index < |j.activations| && M.Enabled(j.activations[index], input)
    case Outside(wake) => IndexOf(wake).None?
  }

  function Step(j: Joint, move: Move): Joint
    requires Enabled(j, move)
  {
    match move
    case Inside(index, input, mentions, responded) =>
      var before, after := j.activations[index].given, M.Step(j.activations[index], input).given;
      Joint(j.activations[index := M.Step(j.activations[index], input)],
            if |after| > |before| then j.wakes + [WakeFor(index, after[|before|], mentions, responded)] else j.wakes)
    case Outside(wake) =>
      Joint(if wake == T.Started(T.Activated) then j.activations + [M.Start()] else j.activations, j.wakes + [wake])
  }

  /** A turn over `agents` activations, after these moves. */
  function Run(agents: nat, moves: seq<Move>): Option<Joint>
    decreases |moves|
  {
    if moves == [] then Some(Joint(seq(agents, _ => M.Start()), []))
    else
      var before := Run(agents, moves[..|moves| - 1]);
      var move := moves[|moves| - 1];
      if before.Some? && Enabled(before.value, move) then Some(Step(before.value, move)) else None
  }

  // ---- The messages among an activation's wakes ----

  /** The shared messages an activation's wakes carry, in order. */
  function Carried(index: nat, wakes: seq<T.Wake>): seq<M.MessageId> {
    if wakes == [] then []
    else
      var last := wakes[|wakes| - 1];
      Carried(index, wakes[..|wakes| - 1])
      + (if last.SharedMessage? && last.index == index then [last.message] else [])
  }

  lemma CarriedMore(index: nat, wakes: seq<T.Wake>, wake: T.Wake)
    ensures Carried(index, wakes + [wake])
         == Carried(index, wakes) + (if wake.SharedMessage? && wake.index == index then [wake.message] else [])
  {
    assert (wakes + [wake])[..|wakes|] == wakes;
  }

  lemma {:induction false} CarriedByNone(index: nat, wakes: seq<T.Wake>)
    requires forall wake :: wake in wakes ==> IndexOf(wake) != Some(index)
    ensures Carried(index, wakes) == []
  {
    if wakes != [] {
      assert wakes[|wakes| - 1] in wakes;
      CarriedByNone(index, wakes[..|wakes| - 1]);
    }
  }

  /** Every activation is as its own runs leave it, and its wakes carry what it handed out. */
  ghost predicate Inv(j: Joint) {
    && (forall i :: 0 <= i < |j.activations| ==> Follows(j, i))
    && (forall wake :: wake in j.wakes && IndexOf(wake).Some? ==> IndexOf(wake).value < |j.activations|)
  }

  ghost predicate Follows(j: Joint, i: nat)
    requires i < |j.activations|
  {
    M.Inv(j.activations[i]) && Carried(i, j.wakes) == M.Shared(j.activations[i].given)
  }

  lemma GivenIsCarried(index: nat, before: M.Activation, input: M.Input, wakes: seq<T.Wake>, mentions: seq<AgentId>,
                       responded: T.Responded)
    requires M.Inv(before) && M.Enabled(before, input) && Carried(index, wakes) == M.Shared(before.given)
    ensures var after := M.Step(before, input);
            && M.Inv(after)
            && (|after.given| > |before.given| ==>
                  Carried(index, wakes + [WakeFor(index, after.given[|before.given|], mentions, responded)])
                    == M.Shared(after.given))
            && (|after.given| <= |before.given| ==> after.given == before.given)
  {
    hide M.Inv, M.Step, M.Enabled, Carried, M.Shared;
    M.StepKeepsInv(before, input);
    M.StepGivesOne(before, input);
    var after := M.Step(before, input);
    if |after.given| > |before.given| {
      var event := after.given[|before.given|];
      M.GivenMore(before.given, event);
      CarriedMore(index, wakes, WakeFor(index, event, mentions, responded));
    }
  }

  lemma InsideKeeps(j: Joint, move: Move, i: nat)
    requires Inv(j) && Enabled(j, move) && move.Inside? && i < |j.activations|
    ensures Follows(Step(j, move), i)
  {
    hide M.Inv, M.Step, M.Enabled, Carried, M.Shared;
    var index, before := move.index, j.activations[move.index];
    assert Follows(j, index) && Follows(j, i);
    GivenIsCarried(index, before, move.input, j.wakes, move.mentions, move.responded);
    var after := M.Step(before, move.input);
    if |after.given| > |before.given| {
      CarriedMore(i, j.wakes, WakeFor(index, after.given[|before.given|], move.mentions, move.responded));
    }
  }

  lemma OutsideKeeps(j: Joint, move: Move, i: nat)
    requires Inv(j) && Enabled(j, move) && move.Outside? && i < |Step(j, move).activations|
    ensures Follows(Step(j, move), i)
  {
    hide M.Inv, Carried, M.Shared, M.Start;
    CarriedMore(i, j.wakes, move.wake);
    if i < |j.activations| {
      assert Follows(j, i);
    } else {
      M.StartInv();
      CarriedByNone(i, j.wakes);
      NothingShared();
    }
  }

  lemma NothingShared()
    ensures M.Shared(M.Start().given) == []
  {
  }

  lemma StepKeepsInv(j: Joint, move: Move)
    requires Inv(j) && Enabled(j, move)
    ensures Inv(Step(j, move))
  {
    hide M.Inv, M.Step, M.Enabled, Carried, M.Shared, Follows;
    forall i | 0 <= i < |Step(j, move).activations| ensures Follows(Step(j, move), i) {
      if move.Inside? { InsideKeeps(j, move, i); } else { OutsideKeeps(j, move, i); }
    }
  }

  lemma {:induction false} RunKeepsInv(agents: nat, moves: seq<Move>)
    requires Run(agents, moves).Some?
    ensures Inv(Run(agents, moves).value)
    decreases |moves|
  {
    hide Step, Enabled;
    if moves == [] {
      M.StartInv();
    } else {
      hide Inv;
      var init := moves[..|moves| - 1];
      RunKeepsInv(agents, init);
      StepKeepsInv(Run(agents, init).value, moves[|moves| - 1]);
    }
  }

  // ---- The turn hears what the wakes carry ----

  lemma FromMore(index: nat, heard: seq<T.Heard>, next: T.Heard)
    ensures T.From(index, heard + [next]) == T.From(index, heard) + (if next.index == index then [next.message] else [])
  {
    assert (heard + [next])[..|heard|] == heard;
  }

  lemma HeedHears(p: T.Past, wake: T.Wake)
    ensures T.Heed(p, wake).heard
         == if wake.SharedMessage? then p.heard + [T.Heard(wake.index, wake.message)] else p.heard
  {
    hide T.Retain, T.Recipients, T.Ids, T.Choice, T.LiveIn;
  }

  lemma {:induction false} HeardIsCarried(start: T.Past, wakes: seq<T.Wake>, index: nat)
    requires start.heard == []
    ensures T.From(index, T.HeedAll(start, wakes).heard) == Carried(index, wakes)
    decreases |wakes|
  {
    if wakes != [] {
      var init, last := wakes[..|wakes| - 1], wakes[|wakes| - 1];
      HeardIsCarried(start, init, index);
      var before := T.HeedAll(start, init);
      assert wakes == init + [last];
      HeedHears(before, last);
      hide T.From, Carried, T.HeedAll, T.Heed;
      CarriedMore(index, init, last);
      if last.SharedMessage? { FromMore(index, before.heard, T.Heard(last.index, last.message)); }
    }
  }

  /** Over any run of the activations of a turn and the turn that drains them: when an activation has
      ended, the turn heard exactly what it committed, in commit order, and each of these messages is
      on the screen exactly once, however often it was published and whatever the other activations
      hand over in between. */
  lemma CommittedIsDisplayedOnce(agents: nat, moves: seq<Move>, turn: T.RoomTurn, start: T.Past, index: nat)
    requires Run(agents, moves).Some? && index < |Run(agents, moves).value.activations|
    requires turn.Valid() && start.heard == [] && turn.History() == T.HeedAll(start, Run(agents, moves).value.wakes)
    ensures var s := Run(agents, moves).value.activations[index];
            && T.From(index, turn.heard) <= s.published
            && (M.Ended(s) ==> T.From(index, turn.heard) == s.published)
            && (M.Ended(s) ==> forall m :: m in s.published ==> multiset(turn.displayed)[m] == 1)
  {
    var j := Run(agents, moves).value;
    RunKeepsInv(agents, moves);
    assert Follows(j, index);
    HeardIsCarried(start, j.wakes, index);
    turn.AtEveryPoint();
    assert turn.heard == turn.History().heard;
    hide Run, Inv, M.Inv, M.Ended, M.Shared, T.From, T.FirstSeen, T.Ids, T.HeedAll,
         T.Once, turn.Valid, turn.History, Carried;
    M.EndedGaveAll(j.activations[index]);
    T.FromIsHeard(index, turn.heard);
    T.FirstSeenOnce(T.Ids(turn.heard));
    forall m | m in T.From(index, turn.heard) ensures multiset(turn.displayed)[m] == 1 {
      CountedOnce(T.FirstSeen(T.Ids(turn.heard)), m);
    }
  }

  lemma {:induction false} CountedOnce(messages: seq<M.MessageId>, m: M.MessageId)
    requires forall i, j :: 0 <= i < j < |messages| ==> messages[i] != messages[j]
    requires m in messages
    ensures multiset(messages)[m] == 1
  {
    var init: seq<M.MessageId> := messages[..|messages| - 1];
    assert messages == init + [messages[|messages| - 1]];
    if m in init { CountedOnce(init, m); }
  }

  // ---- The order on the screen ----

  /** The messages of `all` that are in `some`, in the order of `all`. */
  function Keep(all: seq<M.MessageId>, some: seq<M.MessageId>): seq<M.MessageId> {
    if all == [] then []
    else Keep(all[..|all| - 1], some) + (if all[|all| - 1] in some then [all[|all| - 1]] else [])
  }

  lemma KeepMore(all: seq<M.MessageId>, next: M.MessageId, some: seq<M.MessageId>)
    ensures Keep(all + [next], some) == Keep(all, some) + (if next in some then [next] else [])
  {
    assert (all + [next])[..|all|] == all;
  }

  lemma {:induction false} KeepSame(all: seq<M.MessageId>, some: seq<M.MessageId>, more: seq<M.MessageId>)
    requires forall m :: m in all ==> (m in some <==> m in more)
    ensures Keep(all, some) == Keep(all, more)
  {
    if all != [] {
      assert all[|all| - 1] in all;
      KeepSame(all[..|all| - 1], some, more);
    }
  }

  /** A message is published by one activation only. */
  ghost predicate OneOwner(heard: seq<T.Heard>) {
    forall a, b :: a in heard && b in heard && a.message == b.message ==> a.index == b.index
  }

  lemma OneOwnerBefore(heard: seq<T.Heard>, last: T.Heard)
    requires OneOwner(heard + [last])
    ensures OneOwner(heard) && forall h :: h in heard && h.message == last.message ==> h.index == last.index
  {
    assert last in heard + [last];
    assert forall h :: h in heard ==> h in heard + [last];
  }

  lemma {:induction false} FromOwner(index: nat, heard: seq<T.Heard>)
    ensures forall m :: m in T.From(index, heard) <==> T.Heard(index, m) in heard
    ensures forall m :: m in T.Ids(heard) <==> exists h :: h in heard && h.message == m
  {
    if heard != [] {
      var init, last := heard[..|heard| - 1], heard[|heard| - 1];
      FromOwner(index, init);
      assert heard == init + [last];
      assert last in heard;
    }
  }

  lemma FirstSeenMore(messages: seq<M.MessageId>, next: M.MessageId)
    ensures T.FirstSeen(messages + [next])
         == if next in messages then T.FirstSeen(messages) else T.FirstSeen(messages) + [next]
  {
    assert (messages + [next])[..|messages|] == messages;
    T.FirstSeenOnce(messages);
  }

  lemma {:induction false} OrderKept(index: nat, heard: seq<T.Heard>)
    requires OneOwner(heard)
    ensures Keep(T.FirstSeen(T.Ids(heard)), T.From(index, heard)) == T.FirstSeen(T.From(index, heard))
  {
    if heard != [] {
      var init, last := heard[..|heard| - 1], heard[|heard| - 1];
      assert heard == init + [last];
      OneOwnerBefore(init, last);
      OrderKept(index, init);
      OneMoreHeard(index, init, last);
    }
  }

  lemma OneMoreHeard(index: nat, heard: seq<T.Heard>, last: T.Heard)
    requires OneOwner(heard + [last])
    requires Keep(T.FirstSeen(T.Ids(heard)), T.From(index, heard)) == T.FirstSeen(T.From(index, heard))
    ensures Keep(T.FirstSeen(T.Ids(heard + [last])), T.From(index, heard + [last]))
              == T.FirstSeen(T.From(index, heard + [last]))
  {
    hide Keep, T.FirstSeen, T.From, T.Ids;
    var shown, from, m := T.FirstSeen(T.Ids(heard)), T.From(index, heard), last.message;
    T.HeardMore(heard, last);
    FromMore(index, heard, last);
    FirstSeenMore(T.Ids(heard), m);
    FirstSeenMore(from, m);
    T.FirstSeenOnce(T.Ids(heard));
    FromOwner(index, heard);
    KeepMore(shown, m, from + [m]);
    KeepMore(shown, m, from);
    OwnerOfLast(index, heard, last);
    T.FromIsHeard(index, heard);
    assert from + [] == from && Keep(shown, from) + [] == Keep(shown, from);
    if last.index == index { KeepSame(shown, from, from + [m]); }
  }

  lemma OwnerOfLast(index: nat, heard: seq<T.Heard>, last: T.Heard)
    requires OneOwner(heard + [last])
    ensures last.message in T.Ids(heard) ==> T.Heard(last.index, last.message) in heard
    ensures last.message in T.From(index, heard) ==> last.index == index
  {
    OneOwnerBefore(heard, last);
    FromOwner(index, heard);
    hide OneOwner, T.From, T.Ids;
    if last.message in T.Ids(heard) {
      var h :| h in heard && h.message == last.message;
      assert h == T.Heard(last.index, last.message);
    }
    if last.message in T.From(index, heard) {
      assert T.Heard(index, last.message) in heard;
    }
  }

  /** With any number of activations, the screen shows each ended activation's messages in the order
      it first committed them. */
  lemma ScreenFollowsCommits(agents: nat, moves: seq<Move>, turn: T.RoomTurn, start: T.Past, index: nat)
    requires Run(agents, moves).Some? && index < |Run(agents, moves).value.activations|
    requires turn.Valid() && start.heard == [] && turn.History() == T.HeedAll(start, Run(agents, moves).value.wakes)
    requires M.Ended(Run(agents, moves).value.activations[index]) && OneOwner(turn.heard)
    ensures var published := Run(agents, moves).value.activations[index].published;
            Keep(turn.displayed, published) == T.FirstSeen(published)
  {
    CommittedIsDisplayedOnce(agents, moves, turn, start, index);
    turn.AtEveryPoint();
    hide *;
    OrderKept(index, turn.heard);
  }
}
