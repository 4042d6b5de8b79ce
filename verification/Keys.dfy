/** Key decoding for the adapter selection, and the loop that drains the bytes read so far. */
module Keys {
  import opened Domain

  newtype Byte = b: int | 0 <= b < 256

  const ESCAPE: Byte := 0x1b
  const BRACKET: Byte := 0x5b

  datatype Key = Up | Down | Space | Enter | Quit | Interrupt | Other

  /** The first key of the buffer and the bytes it took; None asks for more bytes. */
  function Decode(bytes: seq<Byte>): (key: Option<(Key, nat)>)
    ensures key.None? <==> bytes == [] || bytes == [ESCAPE] || bytes == [ESCAPE, BRACKET]
    ensures key.Some? ==> 1 <= key.value.1 <= |bytes|
  {
    if bytes == [] || bytes == [ESCAPE] || bytes == [ESCAPE, BRACKET] then None
    else if bytes[0] == ESCAPE then
      if bytes[1] == BRACKET then
        Some((if bytes[2] == 0x41 then Up else if bytes[2] == 0x42 then Down else Other, 3))
      else Some((Other, 2))
    else if bytes[0] == 0x20 then Some((Space, 1))
    else if bytes[0] == 0x0d || bytes[0] == 0x0a then Some((Enter, 1))
    else if bytes[0] == 0x03 then Some((Interrupt, 1))
    else if bytes[0] == 0x71 || bytes[0] == 0x51 then Some((Quit, 1))
    else Some((Other, 1))
  }

  /** Every key from its own bytes, whatever follows: the arrows and any other sequence of a bracket,
      an escape before anything else, and the single bytes. */
  lemma KeysByBytes(rest: seq<Byte>, b: Byte)
    ensures Decode([0x1b, 0x5b, 0x41] + rest) == Some((Up, 3)) && Decode([0x1b, 0x5b, 0x42] + rest) == Some((Down, 3))
    ensures b != 0x41 && b != 0x42 ==> Decode([0x1b, 0x5b, b] + rest) == Some((Other, 3))
    ensures b != 0x5b ==> Decode([0x1b, b] + rest) == Some((Other, 2))
    ensures Decode([0x20] + rest) == Some((Space, 1)) && Decode([0x03] + rest) == Some((Interrupt, 1))
    ensures Decode([0x0d] + rest) == Some((Enter, 1)) == Decode([0x0a] + rest)
    ensures Decode([0x71] + rest) == Some((Quit, 1)) == Decode([0x51] + rest)
    ensures b !in {0x1b, 0x20, 0x03, 0x0d, 0x0a, 0x71, 0x51} ==> Decode([b] + rest) == Some((Other, 1))
  {
  }

  /** All keys of the buffer. */
  function Decoded(bytes: seq<Byte>): seq<Key>
    decreases |bytes|
  {
    var first := Decode(bytes);
    if first.None? then [] else [first.value.0] + Decoded(bytes[first.value.1..])
  }

  /** What is left of the buffer: the beginning of an escape sequence, or nothing. */
  function Leftover(bytes: seq<Byte>): (rest: seq<Byte>)
    ensures rest == [] || rest == [ESCAPE] || rest == [ESCAPE, BRACKET]
    decreases |bytes|
  {
    var first := Decode(bytes);
    if first.None? then bytes else Leftover(bytes[first.value.1..])
  }

  /** A key that is complete stays the same key when more bytes follow. */
  lemma DecodeIsStable(bytes: seq<Byte>, more: seq<Byte>)
    requires Decode(bytes).Some?
    ensures Decode(bytes + more) == Decode(bytes)
  {
    var all := bytes + more;
    assert all[0] == bytes[0] && (|bytes| > 1 ==> all[1] == bytes[1]) && (|bytes| > 2 ==> all[2] == bytes[2]);
  }

  /** Reading the bytes in two parts gives the same keys and the same leftover as reading them at
      once, wherever the split falls. */
  lemma {:induction false} SplitAnywhere(bytes: seq<Byte>, more: seq<Byte>)
    ensures Decoded(bytes + more) == Decoded(bytes) + Decoded(Leftover(bytes) + more)
    ensures Leftover(bytes + more) == Leftover(Leftover(bytes) + more)
    decreases |bytes|
  {
    var first := Decode(bytes);
    if first.Some? {
      DecodeIsStable(bytes, more);
      var rest := bytes[first.value.1..];
      assert (bytes + more)[first.value.1..] == rest + more;
      SplitAnywhere(rest, more);
      hide Decode;
      assert Decoded(bytes + more) == [first.value.0] + (Decoded(rest) + Decoded(Leftover(rest) + more));
    }
  }

  function Concat(chunks: seq<seq<Byte>>): seq<Byte> {
    if chunks == [] then [] else chunks[0] + Concat(chunks[1..])
  }

  // ---- The selection ----

  datatype Selection = Chosen(adapter: nat) | Nothing | Open(selected: nat)

  /** The keys act on the selected adapter until one of them ends the selection. */
  function Select(adapters: nat, selected: nat, keys: seq<Key>): (selection: Selection)
    requires selected < adapters
    ensures selection.Chosen? ==> selection.adapter < adapters
    ensures selection.Open? ==> selection.selected < adapters
    decreases |keys|
  {
    if keys == [] then Open(selected)
    else
      match keys[0]
      case Up => Select(adapters, if selected == 0 then 0 else selected - 1, keys[1..])
      case Down => Select(adapters, if selected + 1 < adapters then selected + 1 else adapters - 1, keys[1..])
      case Enter => Chosen(selected)
      case Quit => Nothing
      case Interrupt => Nothing
      case _ => Select(adapters, selected, keys[1..])
  }

  lemma {:induction false} SelectAppend(adapters: nat, selected: nat, a: seq<Key>, b: seq<Key>)
    requires selected < adapters
    ensures var first := Select(adapters, selected, a);
            Select(adapters, selected, a + b) == if first.Open? then Select(adapters, first.selected, b) else first
    decreases |a|
  {
    if a == [] {
      assert a + b == b;
    } else {
      assert (a + b)[1..] == a[1..] + b && (a + b)[0] == a[0];
      match a[0] {
        case Up => SelectAppend(adapters, if selected == 0 then 0 else selected - 1, a[1..], b);
        case Down => SelectAppend(adapters, if selected + 1 < adapters then selected + 1 else adapters - 1, a[1..], b);
        case Space => SelectAppend(adapters, selected, a[1..], b);
        case Other => SelectAppend(adapters, selected, a[1..], b);
        case _ =>
      }
    }
  }

  /** What each key does: the arrows move by one and stop at the ends, Enter chooses what is selected,
      Quit and Interrupt choose nothing, every other key changes nothing. */
  lemma OneKey(adapters: nat, selected: nat, key: Key)
    requires selected < adapters
    ensures Select(adapters, selected, [Up]) == Open(if selected > 0 then selected - 1 else 0)
    ensures selected + 1 < adapters ==> Select(adapters, selected, [Down]) == Open(selected + 1)
    ensures selected + 1 == adapters ==> Select(adapters, selected, [Down]) == Open(selected)
    ensures Select(adapters, selected, [Enter]) == Chosen(selected)
    ensures key == Quit || key == Interrupt ==> Select(adapters, selected, [key]) == Nothing
    ensures key == Space || key == Other ==> Select(adapters, selected, [key]) == Open(selected)
  {
  }

  /** The inner loop: takes keys from the front of the buffer while it has a complete one. */
  method Drain(adapters: nat, start: nat, buffered: seq<Byte>) returns (selection: Selection, buffer: seq<Byte>)
    requires start < adapters
    ensures selection == Select(adapters, start, Decoded(buffered))
    ensures selection.Open? ==> buffer == Leftover(buffered)
  {
    buffer := buffered;
    var selected: nat := start;
    while true
      invariant selected < adapters
      invariant Select(adapters, start, Decoded(buffered)) == Select(adapters, selected, Decoded(buffer))
      invariant Leftover(buffered) == Leftover(buffer)
      decreases |buffer|
    {
      var first := Decode(buffer);
      if first.None? { return Open(selected), buffer; }
      assert Decoded(buffer)[1..] == Decoded(buffer[first.value.1..]);
      buffer := buffer[first.value.1..];
      match first.value.0 {
        case Up => selected := if selected == 0 then 0 else selected - 1;
        case Down => selected := if selected + 1 < adapters then selected + 1 else adapters - 1;
        case Enter => return Chosen(selected), buffer;
        case Quit => return Nothing, buffer;
        case Interrupt => return Nothing, buffer;
        case _ =>
      }
    }
  }

  /** The selection depends on the bytes alone, not on how the terminal cut them into reads. */
  method SelectAdapter(adapters: nat, chunks: seq<seq<Byte>>) returns (selection: Selection)
    requires adapters > 0
    ensures selection == Select(adapters, 0, Decoded(Concat(chunks)))
  {
    hide Decode, Decoded, Leftover, Select;
    selection := Open(0);
    var buffer: seq<Byte> := [];
    NothingTyped(adapters);
    ghost var all := Concat(chunks);
    assert chunks[0..] == chunks && [] + all == all;
    for i := 0 to |chunks|
      invariant selection.Open? && selection.selected < adapters
      invariant Select(adapters, 0, Decoded(all)) == Select(adapters, selection.selected,
                Decoded(buffer + Concat(chunks[i..])))
      invariant Decoded(buffer) == []
    {
      assert chunks[i..][1..] == chunks[i + 1..];
      var more := Concat(chunks[i + 1..]);
      buffer := buffer + chunks[i];
      SplitAnywhere(buffer, more);
      SelectAppend(adapters, selection.selected, Decoded(buffer), Decoded(Leftover(buffer) + more));
      assert buffer + more == (buffer[..|buffer| - |chunks[i]|]) + Concat(chunks[i..]);
      LeftoverIsIncomplete(buffer);
      selection, buffer := Drain(adapters, selection.selected, buffer);
      if !selection.Open? { return; }
    }
    assert chunks[|chunks|..] == [];
    assert buffer + [] == buffer;
    NothingMore(adapters, selection.selected);
  }

  lemma LeftoverIsIncomplete(bytes: seq<Byte>)
    ensures Decoded(Leftover(bytes)) == []
  {
  }

  lemma NothingTyped(adapters: nat)
    requires adapters > 0
    ensures Decoded([]) == [] && Select(adapters, 0, []) == Open(0)
  {
  }

  lemma NothingMore(adapters: nat, selected: nat)
    requires selected < adapters
    ensures Select(adapters, selected, []) == Open(selected)
  {
  }
}
