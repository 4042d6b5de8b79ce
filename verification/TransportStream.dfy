/** The single ordered receiver of a transport: it merges neighbouring text of one
    session and cuts text at 64 KiB, with one push-back slot. */
module TransportStream {
  import opened Domain

  const TEXT_EVENT_MAX_BYTES: nat := 64 * 1024

  // ---- UTF-8 lengths (section 3 of RFC 3629) ----

  /** The least number of bytes whose payload of 7, 11, 16 or 21 bits holds the character. */
  function Width(c: char): (width: nat)
    ensures 1 <= width <= 4
    ensures var payload := [0x80, 0x800, 0x1_0000, 0x20_0000];
            c as int < payload[width - 1] && (width > 1 ==> payload[width - 2] <= c as int)
  {
    if c as int < 0x80 then 1
    else if c as int < 0x800 then 2
    else if c as int < 0x1_0000 then 3
    else 4
  }

  function Bytes(text: string): nat {
    if text == [] then 0 else Width(text[0]) + Bytes(text[1..])
  }

  /** Byte offset `b` lies between two characters of `text`. */
  predicate IsCharBoundary(text: string, b: nat) {
    b == 0 || (text != [] && Width(text[0]) <= b && IsCharBoundary(text[1..], b - Width(text[0])))
  }

  /** The number of characters before a boundary. */
  function CharIndex(text: string, b: nat): (k: nat)
    requires IsCharBoundary(text, b)
    ensures k <= |text| && Bytes(text[..k]) == b
  {
    if b == 0 then 0
    else
      var k := 1 + CharIndex(text[1..], b - Width(text[0]));
      assert text[..k][1..] == text[1..][..k - 1];
      k
  }

  lemma {:induction false} BytesAppend(a: string, b: string)
    ensures Bytes(a + b) == Bytes(a) + Bytes(b)
  {
    if a == [] {
      assert a + b == b;
    } else {
      assert (a + b)[1..] == a[1..] + b;
      BytesAppend(a[1..], b);
    }
  }

  lemma {:induction false} BoundaryInside(text: string, b: nat)
    requires IsCharBoundary(text, b)
    ensures b <= Bytes(text)
  {
    if b != 0 {
      BoundaryInside(text[1..], b - Width(text[0]));
    }
  }

  /** No stretch of four bytes inside a text is free of boundaries. */
  lemma {:induction false} BoundaryWithinThree(text: string, maximum: nat) returns (b: nat)
    requires maximum <= Bytes(text)
    ensures b <= maximum < b + 4 && IsCharBoundary(text, b)
  {
    if maximum == 0 || Width(text[0]) > maximum {
      b := 0;
    } else {
      var rest := BoundaryWithinThree(text[1..], maximum - Width(text[0]));
      b := rest + Width(text[0]);
    }
  }

  /** The greatest boundary not beyond `maximum`. */
  method CharBoundary(text: string, maximum: nat) returns (boundary: nat)
    ensures boundary <= maximum && IsCharBoundary(text, boundary)
    ensures forall b | boundary < b <= maximum :: !IsCharBoundary(text, b)
    ensures maximum <= Bytes(text) ==> maximum < boundary + 4
  {
    boundary := if maximum < Bytes(text) then maximum else Bytes(text);
    forall b | boundary < b <= maximum ensures !IsCharBoundary(text, b) {
      if IsCharBoundary(text, b) { BoundaryInside(text, b); }
    }
    while !IsCharBoundary(text, boundary)
      invariant boundary <= maximum
      invariant forall b | boundary < b <= maximum :: !IsCharBoundary(text, b)
      decreases boundary
    {
      boundary := boundary - 1;
    }
    if maximum <= Bytes(text) {
      var _ := BoundaryWithinThree(text, maximum);
    }
  }

  // ---- The meaning of a stream: maximal runs of same-session text, merged ----

  predicate Mergeable(a: TransportEvent, b: TransportEvent) {
    a.AgentTextDelta? && b.AgentTextDelta? && a.session == b.session
  }

  function Join(head: TransportEvent, rest: seq<TransportEvent>): seq<TransportEvent> {
    if rest != [] && Mergeable(head, rest[0])
    then [AgentTextDelta(head.session, head.text + rest[0].text)] + rest[1..]
    else [head] + rest
  }

  function Collapse(events: seq<TransportEvent>): seq<TransportEvent> {
    if events == [] then [] else Join(events[0], Collapse(events[1..]))
  }

  /** One cell of the stream, free of event boundaries: a character of a session or a control event. */
  datatype Cell = Character(session: SessionRef, character: char) | Control(event: TransportEvent)

  function Cells(events: seq<TransportEvent>): seq<Cell> {
    if events == [] then [] else EventCells(events[0]) + Cells(events[1..])
  }

  function EventCells(event: TransportEvent): seq<Cell> {
    if event.AgentTextDelta?
    then seq(|event.text|, i requires 0 <= i < |event.text| => Character(event.session, event.text[i]))
    else [Control(event)]
  }

  /** Collapsing keeps every character and control event, its session and its place. */
  lemma {:induction false} CollapseKeepsCells(events: seq<TransportEvent>)
    ensures Cells(Collapse(events)) == Cells(events)
  {
    if events != [] {
      CollapseKeepsCells(events[1..]);
      JoinKeepsCells(events[0], Collapse(events[1..]));
    }
  }

  lemma CellsCons(head: TransportEvent, rest: seq<TransportEvent>)
    ensures Cells([head] + rest) == EventCells(head) + Cells(rest)
  {
    hide EventCells;
    assert ([head] + rest)[1..] == rest;
  }

  lemma JoinKeepsCells(head: TransportEvent, rest: seq<TransportEvent>)
    ensures Cells(Join(head, rest)) == EventCells(head) + Cells(rest)
  {
    hide EventCells, Cells;
    if rest != [] && Mergeable(head, rest[0]) {
      MergedCells(head, rest[0]);
      CellsCons(AgentTextDelta(head.session, head.text + rest[0].text), rest[1..]);
      CellsCons(rest[0], rest[1..]);
      assert [rest[0]] + rest[1..] == rest;
      assert (EventCells(head) + EventCells(rest[0])) + Cells(rest[1..]) == EventCells(head) + Cells(rest);
    } else {
      CellsCons(head, rest);
    }
  }

  lemma MergedCells(a: TransportEvent, b: TransportEvent)
    requires Mergeable(a, b)
    ensures EventCells(AgentTextDelta(a.session, a.text + b.text)) == EventCells(a) + EventCells(b)
  {
  }

  /** Collapsed streams never hold two neighbouring texts of one session. */
  lemma {:induction false} CollapseIsMaximal(events: seq<TransportEvent>)
    ensures forall i | 0 <= i < |Collapse(events)| - 1 ::
              var a, b := Collapse(events)[i], Collapse(events)[i + 1];
              !(a.AgentTextDelta? && b.AgentTextDelta? && a.session == b.session)
  {
    if events != [] {
      CollapseIsMaximal(events[1..]);
      var rest := Collapse(events[1..]);
      assert forall i | 0 <= i < |rest| - 1 :: !Mergeable(rest[i], rest[i + 1]);
      var all := Collapse(events);
      forall i | 0 <= i < |all| - 1 ensures !Mergeable(all[i], all[i + 1]) {
        if |all| == |rest| {
          assert all[i + 1] == rest[i + 1];
          if i > 0 { assert all[i] == rest[i]; }
        } else {
          assert all[i + 1] == rest[i];
          if i > 0 { assert all[i] == rest[i - 1]; }
        }
      }
    }
  }

  lemma {:induction false} CollapseCongruence(prefix: seq<TransportEvent>, x: seq<TransportEvent>,
                                              y: seq<TransportEvent>)
    requires Collapse(x) == Collapse(y)
    ensures Collapse(prefix + x) == Collapse(prefix + y)
  {
    if prefix == [] {
      assert prefix + x == x && prefix + y == y;
    } else {
      assert (prefix + x)[1..] == prefix[1..] + x && (prefix + y)[1..] == prefix[1..] + y;
      CollapseCongruence(prefix[1..], x, y);
    }
  }

  lemma {:induction false} CollapseSuffix(x: seq<TransportEvent>, y: seq<TransportEvent>, suffix: seq<TransportEvent>)
    requires Collapse(x) == Collapse(y)
    ensures Collapse(x + suffix) == Collapse(y + suffix)
  {
    CollapseTwice(x, suffix);
    CollapseTwice(y, suffix);
  }

  lemma {:induction false} CollapseTwice(x: seq<TransportEvent>, suffix: seq<TransportEvent>)
    ensures Collapse(Collapse(x) + suffix) == Collapse(x + suffix)
  {
    if x == [] {
      assert Collapse(x) + suffix == suffix && x + suffix == suffix;
    } else {
      CollapseTwice(x[1..], suffix);
      assert (x + suffix)[1..] == x[1..] + suffix;
      JoinThenCollapse(x[0], Collapse(x[1..]), suffix);
      assert ([x[0]] + (Collapse(x[1..]) + suffix))[1..] == Collapse(x[1..]) + suffix;
    }
  }

  lemma JoinThenCollapse(head: TransportEvent, rest: seq<TransportEvent>, suffix: seq<TransportEvent>)
    ensures Collapse(Join(head, rest) + suffix) == Collapse([head] + (rest + suffix))
  {
    if rest != [] && Mergeable(head, rest[0]) {
      CollapsePair(head, rest[0], rest[1..] + suffix);
      hide Collapse;
      assert Join(head, rest) + suffix
             == [AgentTextDelta(head.session, head.text + rest[0].text)] + (rest[1..] + suffix);
      assert [head, rest[0]] + (rest[1..] + suffix) == [head] + (rest + suffix);
    } else {
      hide Collapse;
      assert Join(head, rest) + suffix == [head] + (rest + suffix);
    }
  }

  /** Merging two neighbours, or cutting one text in two, leaves the meaning alone. */
  lemma CollapsePair(a: TransportEvent, b: TransportEvent, rest: seq<TransportEvent>)
    requires Mergeable(a, b)
    ensures Collapse([AgentTextDelta(a.session, a.text + b.text)] + rest) == Collapse([a, b] + rest)
  {
    assert ([a, b] + rest)[1..] == [b] + rest;
    assert ([b] + rest)[1..] == rest;
    var merged := AgentTextDelta(a.session, a.text + b.text);
    assert ([merged] + rest)[1..] == rest;
    var tail := Collapse(rest);
    if tail != [] && Mergeable(b, tail[0]) {
      assert a.text + (b.text + tail[0].text) == (a.text + b.text) + tail[0].text;
      assert Join(b, tail)[1..] == tail[1..];
    } else {
      assert Join(b, tail)[1..] == tail;
    }
  }

  /** What is left to hand out: strictly smaller after every `Recv`. */
  function Weight(events: seq<TransportEvent>): nat {
    if events == [] then 0
    else 1 + (if events[0].AgentTextDelta? then Bytes(events[0].text) else 0) + Weight(events[1..])
  }

  /** Why a merge stopped: the event is full, nothing more has arrived, another event comes
      next, or the next character of the same session does not fit any more. */
  ghost predicate Greedy(given: TransportEvent, rest: seq<TransportEvent>) {
    given.AgentTextDelta? && rest != [] && Bytes(given.text) < TEXT_EVENT_MAX_BYTES ==>
      || !rest[0].AgentTextDelta? || rest[0].session != given.session
      || (rest[0].text != [] && TEXT_EVENT_MAX_BYTES < Bytes(given.text) + Width(rest[0].text[0]))
  }

  /** `given` was taken off `before`, leaving `after`: nothing is lost, text is bounded and
      merged as far as it goes, and any other event comes out alone. */
  ghost predicate Received(before: seq<TransportEvent>, given: TransportEvent, after: seq<TransportEvent>) {
    && Collapse([given] + after) == Collapse(before)
    && Greedy(given, after)
    && (if given.AgentTextDelta? then Bytes(given.text) <= TEXT_EVENT_MAX_BYTES else [given] + after == before)
  }

  datatype Op = Arrive(event: TransportEvent) | Recv | TryRecv

  function Arrivals(ops: seq<Op>): seq<TransportEvent> {
    if ops == [] then []
    else (if ops[0].Arrive? then [ops[0].event] else []) + Arrivals(ops[1..])
  }

  class TransportEvents {
    var receiver: seq<TransportEvent>
    var pending: Option<TransportEvent>

    constructor ()
      ensures Remaining() == []
    {
      receiver, pending := [], None;
    }

    /** Everything sent and not yet handed out, in order. */
    function Remaining(): seq<TransportEvent>
      reads this
    {
      (if pending.Some? then [pending.value] else []) + receiver
    }

    /** `None` when nothing is left, where the caller waits or, on a closed channel, ends. */
    method Recv() returns (given: Option<TransportEvent>)
      modifies this
      ensures given.None? <==> old(Remaining()) == []
      ensures given.None? ==> Remaining() == []
      ensures given.Some? ==> Received(old(Remaining()), given.value, Remaining())
      ensures given.Some? ==> Weight(Remaining()) < Weight(old(Remaining()))
    {
      given := TryRecv();
      if given.Some? && given.value.AgentTextDelta? {
        ghost var before := [given.value] + Remaining();
        assert before == [given.value] + receiver && before[1..] == receiver;
        var event;
        if Bytes(given.value.text) > TEXT_EVENT_MAX_BYTES {
          event := Cut(given.value);
        } else {
          event := Merge(given.value);
        }
        given := Some(event);
      } else if given.Some? {
        assert ([given.value] + Remaining())[1..] == Remaining();
      }
    }

    /** An oversized text is cut at the last boundary within the limit; the rest is pushed back. */
    method Cut(event: TransportEvent) returns (given: TransportEvent)
      requires pending.None? && event.AgentTextDelta? && Bytes(event.text) > TEXT_EVENT_MAX_BYTES
      modifies this
      ensures Received([event] + old(receiver), given, Remaining())
      ensures Weight(Remaining()) < 1 + Bytes(event.text) + Weight(old(receiver))
    {
      var split := CharBoundary(event.text, TEXT_EVENT_MAX_BYTES);
      var k := CharIndex(event.text, split);
      var text, remainder := event.text[..k], event.text[k..];
      assert text + remainder == event.text;
      BytesAppend(text, remainder);
      NextDoesNotFit(event.text, split, TEXT_EVENT_MAX_BYTES);
      pending := Some(AgentTextDelta(event.session, remainder));
      given := AgentTextDelta(event.session, text);
      CollapsePair(given, pending.value, receiver);
      assert [given] + Remaining() == [given, pending.value] + receiver;
      assert Remaining()[1..] == receiver;
    }

    /** Neighbouring text of the same session is merged until the limit, another event, or
        the end of what has arrived. */
    method Merge(event: TransportEvent) returns (given: TransportEvent)
      requires pending.None? && event.AgentTextDelta? && Bytes(event.text) <= TEXT_EVENT_MAX_BYTES
      modifies this
      ensures Received([event] + old(receiver), given, Remaining())
      ensures Weight(Remaining()) < 1 + Bytes(event.text) + Weight(old(receiver))
    {
      given := event;
      ghost var before := Collapse([event] + receiver);
      while Bytes(given.text) < TEXT_EVENT_MAX_BYTES && receiver != []
        invariant pending.None?
        invariant given.AgentTextDelta? && Bytes(given.text) <= TEXT_EVENT_MAX_BYTES
        invariant Collapse([given] + receiver) == before
        invariant Weight(receiver) <= Weight(old(receiver))
        decreases |receiver|
      {
        var next := receiver[0];
        ghost var queue := receiver;
        receiver := receiver[1..];
        assert [given] + queue == [given, next] + receiver;
        if !Mergeable(given, next) {
          pending := Some(next);
          assert Remaining() == queue;
          return;
        }
        var available := TEXT_EVENT_MAX_BYTES - Bytes(given.text);
        if Bytes(next.text) > available {
          var split := CharBoundary(next.text, available);
          given := Fill(given, next, split, available);
          return;
        }
        CollapsePair(given, next, receiver);
        BytesAppend(given.text, next.text);
        given := given.(text := given.text + next.text);
      }
      assert Remaining() == receiver;
    }

    /** The part of `next` that still fits joins `event`; the rest is pushed back. */
    method Fill(event: TransportEvent, next: TransportEvent, split: nat, available: nat) returns (given: TransportEvent)
      requires pending.None? && Mergeable(event, next) && IsCharBoundary(next.text, split)
      requires Bytes(event.text) + available == TEXT_EVENT_MAX_BYTES && split <= available < Bytes(next.text)
      requires forall b | split < b <= available :: !IsCharBoundary(next.text, b)
      modifies this
      ensures Received([event, next] + old(receiver), given, Remaining())
      ensures Weight(Remaining()) <= 1 + Bytes(next.text) + Weight(old(receiver))
    {
      var k := CharIndex(next.text, split);
      var head, remainder := next.text[..k], next.text[k..];
      assert head + remainder == next.text;
      BytesAppend(head, remainder);
      BytesAppend(event.text, head);
      NextDoesNotFit(next.text, split, available);
      pending := Some(AgentTextDelta(next.session, remainder));
      given := event.(text := event.text + head);
      SplitKeepsMeaning(event.session, event.text, head, remainder, receiver);
      assert Remaining()[1..] == receiver;
      assert [given] + Remaining() == [given, pending.value] + receiver;
    }

    /** Hands out the next event as it is, neither merged nor cut. */
    method TryRecv() returns (given: Option<TransportEvent>)
      modifies this
      ensures given.None? <==> old(Remaining()) == []
      ensures given.None? ==> Remaining() == []
      ensures given.Some? ==> [given.value] + Remaining() == old(Remaining())
      ensures pending.None?
    {
      if pending.Some? {
        given := pending;
        pending := None;
      } else if receiver != [] {
        given := Some(receiver[0]);
        receiver := receiver[1..];
      } else {
        given := None;
      }
    }

    /** Whatever the interleaving of senders and receivers, what came out, followed by
        what is still held, means what was held plus what was sent. */
    method Run(ops: seq<Op>) returns (out: seq<TransportEvent>)
      modifies this
      ensures Collapse(out + Remaining()) == Collapse(old(Remaining()) + Arrivals(ops))
    {
      out := [];
      ghost var held := Remaining();
      var i := 0;
      assert ops[..0] == [] && out + Remaining() == held && held + Arrivals([]) == held;
      while i < |ops|
        invariant 0 <= i <= |ops|
        invariant Collapse(out + Remaining()) == Collapse(held + Arrivals(ops[..i]))
      {
        ArrivalsStep(ops, i);
        ghost var sent := held + Arrivals(ops[..i]);
        out := Step(out, ops[i], sent);
        assert held + Arrivals(ops[..i + 1]) == sent + (if ops[i].Arrive? then [ops[i].event] else []);
        i := i + 1;
      }
      assert ops[..i] == ops;
    }

    method Step(out: seq<TransportEvent>, op: Op, ghost sent: seq<TransportEvent>) returns (out': seq<TransportEvent>)
      requires Collapse(out + Remaining()) == Collapse(sent)
      modifies this
      ensures Collapse(out' + Remaining()) == Collapse(sent + (if op.Arrive? then [op.event] else []))
    {
      ghost var before := Remaining();
      if op.Arrive? {
        CollapseSuffix(out + before, sent, [op.event]);
        receiver := receiver + [op.event];
        assert out + Remaining() == (out + before) + [op.event];
        return out;
      }
      assert sent + [] == sent;
      var given;
      if op.Recv? {
        given := Recv();
      } else {
        given := TryRecv();
      }
      if given.None? {
        return out;
      }
      HandOver(sent, out, before, given.value, Remaining());
      out' := out + [given.value];
    }

    /** Receiving until nothing is left ends for any input, with bounded text events only. */
    method Drain() returns (out: seq<TransportEvent>)
      modifies this
      ensures Remaining() == []
      ensures Collapse(out) == Collapse(old(Remaining()))
      ensures forall e | e in out && e.AgentTextDelta? :: Bytes(e.text) <= TEXT_EVENT_MAX_BYTES
    {
      out := [];
      ghost var held := Remaining();
      assert out + Remaining() == held;
      while true
        invariant Collapse(out + Remaining()) == Collapse(held)
        invariant forall e | e in out && e.AgentTextDelta? :: Bytes(e.text) <= TEXT_EVENT_MAX_BYTES
        decreases Weight(Remaining())
      {
        ghost var before := Remaining();
        var given := this.Recv();
        if given.None? {
          assert out + Remaining() == out;
          return;
        }
        HandOver(held, out, before, given.value, Remaining());
        out := out + [given.value];
      }
    }
  }

  lemma HandOver(sent: seq<TransportEvent>, out: seq<TransportEvent>, before: seq<TransportEvent>,
                 given: TransportEvent,
                 after: seq<TransportEvent>)
    requires Collapse(out + before) == Collapse(sent)
    requires Collapse([given] + after) == Collapse(before)
    ensures Collapse((out + [given]) + after) == Collapse(sent)
  {
    CollapseCongruence(out, [given] + after, before);
    assert (out + [given]) + after == out + ([given] + after);
  }

  lemma {:induction false} ArrivalsStep(ops: seq<Op>, i: nat)
    requires i < |ops|
    ensures Arrivals(ops[..i + 1]) == Arrivals(ops[..i]) + (if ops[i].Arrive? then [ops[i].event] else [])
  {
    if i == 0 {
      assert ops[..1][1..] == [];
    } else {
      assert ops[..i + 1][1..] == ops[1..][..i];
      assert ops[..i][1..] == ops[1..][..i - 1];
      ArrivalsStep(ops[1..], i - 1);
    }
  }

  lemma SplitKeepsMeaning(session: SessionRef, text: string, head: string, remainder: string, rest: seq<TransportEvent>)
    ensures Collapse([AgentTextDelta(session, text + head), AgentTextDelta(session, remainder)] + rest)
         == Collapse([AgentTextDelta(session, text), AgentTextDelta(session, head + remainder)] + rest)
  {
    CollapsePair(AgentTextDelta(session, text + head), AgentTextDelta(session, remainder), rest);
    CollapsePair(AgentTextDelta(session, text), AgentTextDelta(session, head + remainder), rest);
    assert (text + head) + remainder == text + (head + remainder);
  }

  /** After a cut at the greatest boundary, the next character would cross the limit. */
  lemma {:induction false} NextDoesNotFit(text: string, split: nat, limit: nat)
    requires IsCharBoundary(text, split) && split <= limit < Bytes(text)
    requires forall b | split < b <= limit :: !IsCharBoundary(text, b)
    ensures CharIndex(text, split) < |text|
    ensures limit < split + Width(text[CharIndex(text, split)])
  {
    if split == 0 {
      if Width(text[0]) <= limit {
        assert IsCharBoundary(text, Width(text[0]));
      }
    } else {
      var w := Width(text[0]);
      forall b | split - w < b <= limit - w ensures !IsCharBoundary(text[1..], b) {
        assert !IsCharBoundary(text, b + w);
      }
      NextDoesNotFit(text[1..], split - w, limit - w);
    }
  }
}
