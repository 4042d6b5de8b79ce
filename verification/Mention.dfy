/** Leading `@agent` mentions of a line. Which characters count as alphanumeric is a parameter. */
module Mention {
  import opened Domain

  datatype Mentions = Mentions(agents: seq<string>, prompt: string)

  /** Letters and digits are neither white space nor the mention sign. */
  ghost predicate Sensible(alphanumeric: char -> bool) {
    forall c :: alphanumeric(c) ==> !IsWhitespace(c) && c != '@'
  }

  predicate IsNameChar(alphanumeric: char -> bool, c: char) {
    alphanumeric(c) || c == '-' || c == '_' || c == '.'
  }

  function TrimStart(text: string): (rest: string)
    ensures |rest| <= |text| && rest == text[|text| - |rest|..]
    ensures forall i :: 0 <= i < |text| - |rest| ==> IsWhitespace(text[i])
    ensures rest != "" ==> !IsWhitespace(rest[0])
  {
    if text == "" || !IsWhitespace(text[0]) then text else TrimStart(text[1..])
  }

  /** The length of the name at the front. */
  function NameLength(alphanumeric: char -> bool, text: string): (end: nat)
    ensures end <= |text|
    ensures forall i :: 0 <= i < end ==> IsNameChar(alphanumeric, text[i])
    ensures end < |text| ==> !IsNameChar(alphanumeric, text[end])
  {
    if text == "" || !IsNameChar(alphanumeric, text[0]) then 0 else 1 + NameLength(alphanumeric, text[1..])
  }

  predicate OpensWithMention(alphanumeric: char -> bool, text: string) {
    |text| >= 2 && text[0] == '@' && IsNameChar(alphanumeric, text[1])
  }

  function Add(agents: seq<string>, name: string): seq<string> {
    if name in agents then agents else agents + [name]
  }

  /** What the mentions at the front of `rest` add to `agents`, and what follows them. */
  function Collect(alphanumeric: char -> bool, agents: seq<string>, rest: string): Mentions
    decreases |rest|
  {
    if !OpensWithMention(alphanumeric, rest) then Mentions(agents, rest)
    else
      var end := NameLength(alphanumeric, rest[1..]);
      Collect(alphanumeric, Add(agents, rest[1..][..end]), TrimStart(rest[1..][end..]))
  }

  /** The loop over the leading mentions of a line; it ends on every line. */
  method Parse(alphanumeric: char -> bool, line: string) returns (mentions: Option<Mentions>)
    ensures var trimmed := TrimStart(line);
            mentions.Some? <==>
              && |trimmed| >= 2 && trimmed[0] == '@'
              && (alphanumeric(trimmed[1]) || trimmed[1] == '-' || trimmed[1] == '_' || trimmed[1] == '.')
    ensures mentions.Some? ==> mentions.value == Collect(alphanumeric, [], TrimStart(line))
  {
    var rest := TrimStart(line);
    var agents: seq<string> := [];
    while rest != "" && rest[0] == '@'
      invariant Collect(alphanumeric, [], TrimStart(line)) == Collect(alphanumeric, agents, rest)
      invariant agents == [] ==> rest == TrimStart(line)
      invariant agents != [] ==> OpensWithMention(alphanumeric, TrimStart(line))
      decreases |rest|
    {
      var after := rest[1..];
      var end := NameLength(alphanumeric, after);
      var name, tail := after[..end], after[end..];
      if name == "" { break; }
      assert OpensWithMention(alphanumeric, rest);
      if name !in agents { agents := agents + [name]; }
      rest := TrimStart(tail);
    }
    mentions := if agents != [] then Some(Mentions(agents, rest)) else None;
  }

  // ---- What comes out ----

  predicate Distinct(names: seq<string>) {
    forall i, j :: 0 <= i < j < |names| ==> names[i] != names[j]
  }

  predicate IsName(alphanumeric: char -> bool, name: string) {
    name != "" && forall i :: 0 <= i < |name| ==> IsNameChar(alphanumeric, name[i])
  }

  predicate IsSuffix(suffix: string, text: string) {
    |suffix| <= |text| && suffix == text[|text| - |suffix|..]
  }

  lemma SuffixTransitive(a: string, b: string, c: string)
    requires IsSuffix(a, b) && IsSuffix(b, c)
    ensures IsSuffix(a, c)
  {
  }

  /** Distinct proper names, and a prompt that is the end of the line: all of it from where the
      mentions stop. */
  lemma {:induction false} CollectedIsProper(alphanumeric: char -> bool, agents: seq<string>, rest: string)
    requires Distinct(agents) && forall name :: name in agents ==> IsName(alphanumeric, name)
    ensures var m := Collect(alphanumeric, agents, rest);
            && Distinct(m.agents) && agents <= m.agents
            && (forall name :: name in m.agents ==> IsName(alphanumeric, name))
            && IsSuffix(m.prompt, rest) && !OpensWithMention(alphanumeric, m.prompt)
    decreases |rest|
  {
    if OpensWithMention(alphanumeric, rest) {
      var end := NameLength(alphanumeric, rest[1..]);
      var name, tail := rest[1..][..end], rest[1..][end..];
      NameIsProper(alphanumeric, rest);
      RestIsSuffix(rest, end);
      hide IsName, TrimStart, OpensWithMention, IsNameChar, IsSuffix, Distinct, Add;
      AddIsProper(alphanumeric, agents, name);
      CollectedIsProper(alphanumeric, Add(agents, name), TrimStart(tail));
      SuffixTransitive(Collect(alphanumeric, agents, rest).prompt, TrimStart(tail), rest);
    }
  }

  lemma RestIsSuffix(rest: string, end: nat)
    requires 1 + end <= |rest|
    ensures IsSuffix(TrimStart(rest[1..][end..]), rest)
  {
    hide TrimStart;
    var tail := rest[1..][end..];
    assert IsSuffix(TrimStart(tail), tail) && IsSuffix(tail, rest);
    SuffixTransitive(TrimStart(tail), tail, rest);
  }

  lemma NameIsProper(alphanumeric: char -> bool, rest: string)
    requires OpensWithMention(alphanumeric, rest)
    ensures IsName(alphanumeric, rest[1..][..NameLength(alphanumeric, rest[1..])])
  {
    assert rest[1..][0] == rest[1];
  }

  lemma AddIsProper(alphanumeric: char -> bool, agents: seq<string>, name: string)
    requires Distinct(agents) && IsName(alphanumeric, name) && forall other :: other in agents ==>
              IsName(alphanumeric, other)
    ensures Distinct(Add(agents, name)) && agents <= Add(agents, name)
    ensures forall other :: other in Add(agents, name) ==> IsName(alphanumeric, other)
  {
    hide IsName;
  }

  lemma ParsedIsProper(alphanumeric: char -> bool, line: string)
    ensures var m := Collect(alphanumeric, [], TrimStart(line));
            && (forall i, j :: 0 <= i < j < |m.agents| ==> m.agents[i] != m.agents[j])
            && (forall name :: name in m.agents ==>
                  name != "" && forall c :: c in name ==> alphanumeric(c) || c == '-' || c == '_' || c == '.')
            && |m.prompt| <= |line| && m.prompt == line[|line| - |m.prompt|..]
            && !(|m.prompt| >= 2 && m.prompt[0] == '@'
                 && (alphanumeric(m.prompt[1]) || m.prompt[1] == '-' || m.prompt[1] == '_' || m.prompt[1] == '.'))
  {
    CollectedIsProper(alphanumeric, [], TrimStart(line));
    SuffixTransitive(Collect(alphanumeric, [], TrimStart(line)).prompt, TrimStart(line), line);
  }

  // ---- A printed line is recovered ----

  /** `@a @b ` and the prompt. */
  function Printed(names: seq<string>, prompt: string): string {
    if names == [] then prompt else "@" + (names[0] + (" " + Printed(names[1..], prompt)))
  }

  /** The names in first-typed order, each once. */
  function FirstTyped(agents: seq<string>, names: seq<string>): seq<string>
    decreases |names|
  {
    if names == [] then agents else FirstTyped(Add(agents, names[0]), names[1..])
  }

  lemma {:induction false} FirstTypedOfDistinct(agents: seq<string>, names: seq<string>)
    requires Distinct(agents + names)
    ensures FirstTyped(agents, names) == agents + names
    decreases |names|
  {
    if names != [] {
      assert forall i | 0 <= i < |agents| :: (agents + names)[i] == agents[i];
      assert (agents + names)[|agents|] == names[0];
      assert names[0] !in agents;
      assert agents + [names[0]] + names[1..] == agents + names;
      FirstTypedOfDistinct(agents + [names[0]], names[1..]);
    }
  }

  /** A prompt that itself begins with neither white space nor a mention. */
  predicate IsPrompt(alphanumeric: char -> bool, prompt: string) {
    !OpensWithMention(alphanumeric, prompt) && (prompt != "" ==> !IsWhitespace(prompt[0]))
  }

  lemma {:induction false} NameEndsAtSpace(alphanumeric: char -> bool, name: string, rest: string)
    requires Sensible(alphanumeric) && forall i :: 0 <= i < |name| ==> IsNameChar(alphanumeric, name[i])
    ensures NameLength(alphanumeric, name + (" " + rest)) == |name|
  {
    var text := name + (" " + rest);
    if name == "" {
      assert IsWhitespace(' ') && text[0] == ' ';
    } else {
      assert text[0] == name[0] && text[1..] == name[1..] + (" " + rest);
      NameEndsAtSpace(alphanumeric, name[1..], rest);
    }
  }

  lemma TrimmedPrint(alphanumeric: char -> bool, names: seq<string>, prompt: string)
    requires IsPrompt(alphanumeric, prompt)
    ensures TrimStart(Printed(names, prompt)) == Printed(names, prompt)
    ensures TrimStart(" " + Printed(names, prompt)) == Printed(names, prompt)
  {
    SpaceAndSign();
    hide IsWhitespace, OpensWithMention;
    var text := Printed(names, prompt);
    if names != [] { assert text[0] == '@'; }
    assert (" " + text)[0] == ' ' && (" " + text)[1..] == text;
  }

  lemma SpaceAndSign()
    ensures IsWhitespace(' ') && !IsWhitespace('@')
  {
  }

  lemma {:induction false} CollectPrinted(alphanumeric: char -> bool, agents: seq<string>, names: seq<string>,
      prompt: string)
    requires Sensible(alphanumeric) && IsPrompt(alphanumeric, prompt)
    requires forall name :: name in names ==> IsName(alphanumeric, name)
    ensures Collect(alphanumeric, agents, Printed(names, prompt)) == Mentions(FirstTyped(agents, names), prompt)
    decreases |names|
  {
    if names != [] {
      var name, tail := names[0], Printed(names[1..], prompt);
      assert name in names;
      var line := Printed(names, prompt);
      assert line[1..] == name + (" " + tail);
      NameEndsAtSpace(alphanumeric, name, tail);
      assert line[1] == name[0];
      assert line[1..][..|name|] == name && line[1..][|name|..] == " " + tail;
      TrimmedPrint(alphanumeric, names[1..], prompt);
      CollectPrinted(alphanumeric, Add(agents, name), names[1..], prompt);
    }
  }

  /** Printing names and a prompt and parsing the line gives them back, repeated names once. */
  lemma RoundTrip(alphanumeric: char -> bool, names: seq<string>, prompt: string)
    requires Sensible(alphanumeric)
    requires forall name :: name in names ==>
               name != "" && forall c :: c in name ==> alphanumeric(c) || c == '-' || c == '_' || c == '.'
    requires prompt != "" ==> !IsWhitespace(prompt[0])
    requires !(|prompt| >= 2 && prompt[0] == '@'
               && (alphanumeric(prompt[1]) || prompt[1] == '-' || prompt[1] == '_' || prompt[1] == '.'))
    ensures Collect(alphanumeric, [], TrimStart(Printed(names, prompt))) == Mentions(FirstTyped([], names), prompt)
  {
    assert IsPrompt(alphanumeric, prompt) && forall name :: name in names ==> IsName(alphanumeric, name);
    hide *;
    TrimmedPrint(alphanumeric, names, prompt);
    CollectPrinted(alphanumeric, [], names, prompt);
  }

  /** Distinct names come back as they are. */
  lemma DistinctNamesComeBack(names: seq<string>)
    requires Distinct(names)
    ensures FirstTyped([], names) == names
  {
    assert [] + names == names;
    FirstTypedOfDistinct([], names);
  }
}
