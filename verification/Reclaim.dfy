/** What follows an adapter update: agents under the replaced installation are pointed at the new
    one, and installations older than the previous one are removed. */
module Reclaim {
  import opened Domain

  /** A path as its components; the order of a directory listing is arbitrary. */
  type Path = seq<string>

  // ---- The order of installation roots ----

  predicate LessText(a: string, b: string) {
    b != [] && (a == [] || a[0] < b[0] || (a[0] == b[0] && LessText(a[1..], b[1..])))
  }

  lemma {:induction false} LessTextIrreflexive(a: string)
    ensures !LessText(a, a)
  {
    if a != [] { LessTextIrreflexive(a[1..]); }
  }

  lemma {:induction false} LessTextTransitive(a: string, b: string, c: string)
    requires LessText(a, b) && LessText(b, c)
    ensures LessText(a, c)
  {
    if a != [] && a[0] == b[0] && b[0] == c[0] { LessTextTransitive(a[1..], b[1..], c[1..]); }
  }

  lemma {:induction false} LessTextTotal(a: string, b: string)
    ensures a == b || LessText(a, b) || LessText(b, a)
  {
    if a != [] && b != [] && a[0] == b[0] {
      LessTextTotal(a[1..], b[1..]);
      if a[1..] == b[1..] {
        assert a == [a[0]] + a[1..];
        assert b == [b[0]] + b[1..];
      }
    }
  }

  /** Roots named by something else than a ULID count as the oldest; among the others the names are
      ordered by time. */
  predicate Before(isUlid: string -> bool, a: string, b: string) {
    if isUlid(a) == isUlid(b) then LessText(a, b) else isUlid(b)
  }

  lemma BeforeIsOrder(isUlid: string -> bool, a: string, b: string, c: string)
    ensures !Before(isUlid, a, a)
    ensures Before(isUlid, a, b) && Before(isUlid, b, c) ==> Before(isUlid, a, c)
    ensures a == b || Before(isUlid, a, b) || Before(isUlid, b, a)
  {
    LessTextIrreflexive(a);
    LessTextTotal(a, b);
    if LessText(a, b) && LessText(b, c) { LessTextTransitive(a, b, c); }
  }

  /** What is older: anything else than a ULID before a ULID, and among names of one kind the one that
      is less where they first differ, or ends there. */
  lemma BeforeAt(isUlid: string -> bool, a: string, b: string, n: nat)
    ensures !isUlid(a) && isUlid(b) ==> Before(isUlid, a, b) && !Before(isUlid, b, a)
    ensures isUlid(a) == isUlid(b) && n < |b| && (n == |a| || (n < |a| && a[n] < b[n])) && a[..n] == b[..n] ==>
              Before(isUlid, a, b) && !Before(isUlid, b, a)
  {
    if isUlid(a) == isUlid(b) && n < |b| && (n == |a| || (n < |a| && a[n] < b[n])) && a[..n] == b[..n] {
      LessTextFrom(a, b, n);
      BeforeIsOrder(isUlid, b, a, b);
    }
  }

  lemma {:induction false} LessTextFrom(a: string, b: string, n: nat)
    requires n < |b| && (n == |a| || (n < |a| && a[n] < b[n])) && a[..n] == b[..n]
    ensures LessText(a, b)
  {
    if n > 0 {
      assert a[0] == a[..n][0] == b[..n][0] == b[0];
      assert a[1..][..n - 1] == a[..n][1..] == b[..n][1..] == b[1..][..n - 1];
      LessTextFrom(a[1..], b[1..], n - 1);
    }
  }

  predicate Sorted(isUlid: string -> bool, names: seq<string>) {
    forall i, j :: 0 <= i < j < |names| ==> Before(isUlid, names[i], names[j])
  }

  predicate Distinct(names: seq<string>) {
    forall i, j :: 0 <= i < j < |names| ==> names[i] != names[j]
  }

  method InsertSorted(isUlid: string -> bool, names: seq<string>, name: string) returns (more: seq<string>)
    requires Sorted(isUlid, names) && name !in names
    ensures Sorted(isUlid, more) && forall other :: other in more <==> other in names || other == name
  {
    var p := 0;
    while p < |names| && Before(isUlid, names[p], name)
      invariant 0 <= p <= |names|
      invariant forall i :: 0 <= i < p ==> Before(isUlid, names[i], name)
    {
      p := p + 1;
    }
    forall i | p <= i < |names| ensures Before(isUlid, name, names[i]) {
      assert names[i] in names;
      BeforeIsOrder(isUlid, names[p], name, name);
      BeforeIsOrder(isUlid, name, names[p], names[i]);
    }
    assert names == names[..p] + names[p..];
    more := names[..p] + [name] + names[p..];
  }

  method Sort(isUlid: string -> bool, names: seq<string>) returns (sorted: seq<string>)
    requires Distinct(names)
    ensures Sorted(isUlid, sorted) && forall name :: name in sorted <==> name in names
  {
    sorted := [];
    for i := 0 to |names|
      invariant Sorted(isUlid, sorted) && forall name :: name in sorted <==> name in names[..i]
    {
      assert names[i] !in names[..i];
      assert names[..i + 1] == names[..i] + [names[i]];
      sorted := InsertSorted(isUlid, sorted, names[i]);
    }
    assert names[..|names|] == names;
  }

  /** Older than a root that is itself older than the current one: the third generation and beyond. */
  ghost predicate Surplus(isUlid: string -> bool, roots: seq<string>, current: string, root: string) {
    root in roots && exists between ::
      between in roots && Before(isUlid, root, between) && Before(isUlid, between, current)
  }

  /** In sorted order the surplus roots are those before the predecessor of the current one. */
  lemma SurplusByPosition(isUlid: string -> bool, sorted: seq<string>, position: nat, i: nat)
    requires Sorted(isUlid, sorted) && position < |sorted| && i < |sorted|
    ensures Surplus(isUlid, sorted, sorted[position], sorted[i]) <==> i + 1 < position
  {
    if i + 1 < position {
      assert sorted[position - 1] in sorted && Before(isUlid, sorted[i], sorted[position - 1]);
    }
    if Surplus(isUlid, sorted, sorted[position], sorted[i]) {
      var between :| between in sorted && Before(isUlid, sorted[i], between)
                     && Before(isUlid, between, sorted[position]);
      var k :| 0 <= k < |sorted| && sorted[k] == between;
      OrderIsPosition(isUlid, sorted, i, k);
      OrderIsPosition(isUlid, sorted, k, position);
    }
  }

  lemma OrderIsPosition(isUlid: string -> bool, sorted: seq<string>, i: nat, j: nat)
    requires Sorted(isUlid, sorted) && i < |sorted| && j < |sorted|
    ensures Before(isUlid, sorted[i], sorted[j]) <==> i < j
  {
    BeforeIsOrder(isUlid, sorted[i], sorted[j], sorted[i]);
  }

  // ---- Agents ----

  /** What setup wrote into an agent's configuration, and everything else in it. */
  datatype Config = Config(executable: Option<Path>, expectedName: string, expectedVersion: string, others: string)

  datatype Agent = Agent(name: string, config: Option<Config>)

  datatype Identity = Identity(bin: Path, name: string, version: string)

  predicate Inside(executable: Path, root: Path) {
    root <= executable
  }

  predicate Runs(agent: Agent, root: Path) {
    agent.config.Some? && agent.config.value.executable.Some? && Inside(agent.config.value.executable.value, root)
  }

  function Repointed(agent: Agent, identity: Identity): Agent
    requires agent.config.Some?
  {
    agent.(config := Some(agent.config.value.(executable := Some(identity.bin), expectedName := identity.name,
                                              expectedVersion := identity.version)))
  }

  predicate Referenced(agents: seq<Agent>, root: Path) {
    exists i :: 0 <= i < |agents| && Runs(agents[i], root)
  }

  /** What one reclamation removes: surplus roots that can be removed and that no listed agent runs
      from. A listing that failed counts as one without agents. */
  ghost function Removed(isUlid: string -> bool, base: Path, roots: seq<string>, current: string,
                         listed: Option<seq<Agent>>, stuck: set<string>): (removed: set<string>)
  {
    set root | root in roots && Surplus(isUlid, roots, current, root) && root !in stuck
               && (listed.Some? ==> !Referenced(listed.value, base + [root]))
  }

  /** The current root, its predecessor and every later root stay. */
  lemma RecentRootsStay(isUlid: string -> bool, base: Path, roots: seq<string>, current: string,
                        listed: Option<seq<Agent>>, stuck: set<string>, root: string)
    requires root == current || Before(isUlid, current, root)
             || (forall between :: between in roots && Before(isUlid, between, current) ==>
                  !Before(isUlid, root, between))
    ensures root !in Removed(isUlid, base, roots, current, listed, stuck)
  {
    if Surplus(isUlid, roots, current, root) {
      var between :| between in roots && Before(isUlid, root, between) && Before(isUlid, between, current);
      BeforeIsOrder(isUlid, root, between, current);
      BeforeIsOrder(isUlid, root, current, root);
    }
  }

  /** A root some agent runs from is removed exactly when the second listing failed over one. */
  lemma UsedRootsStayUnlessListingFails(isUlid: string -> bool, base: Path, roots: seq<string>, current: string,
                                        agents: seq<Agent>, listed: bool, stuck: set<string>, root: string)
    ensures var removed := Removed(isUlid, base, roots, current, if listed then Some(agents) else None, stuck);
            root in removed && Referenced(agents, base + [root]) <==>
            !listed && Surplus(isUlid, roots, current, root) && root !in stuck && Referenced(agents, base + [root])
  {
  }

  /** After a reclamation whose removals all succeeded, another one finds nothing to remove. */
  lemma SecondRunRemovesNothing(isUlid: string -> bool, base: Path, roots: seq<string>, left: seq<string>,
                                current: string, agents: seq<Agent>, stuck: set<string>)
    requires forall root :: root in left <==> root in roots && root !in Removed(isUlid, base, roots, current,
              Some(agents), {})
    ensures Removed(isUlid, base, left, current, Some(agents), stuck) == {}
  {
    forall root ensures root !in Removed(isUlid, base, left, current, Some(agents), stuck) {
      if Surplus(isUlid, left, current, root) { SurplusOfMore(isUlid, left, roots, current, root); }
    }
  }

  lemma SurplusOfMore(isUlid: string -> bool, fewer: seq<string>, roots: seq<string>, current: string, root: string)
    requires Surplus(isUlid, fewer, current, root) && forall name :: name in fewer ==> name in roots
    ensures Surplus(isUlid, roots, current, root)
  {
  }

  /** The agents among the first `n` that an update reaches. */
  function Names(agents: seq<Agent>, root: Path, locked: set<nat>, n: nat): set<string>
    requires n <= |agents|
  {
    set i | 0 <= i < n && Runs(agents[i], root) && i !in locked :: agents[i].name
  }

  class Installations {
    const base: Path
    const isUlid: string -> bool
    var agents: seq<Agent>
    var roots: seq<string>
    var repointed: seq<string>
    var reclaimed: seq<string>
    var warnings: nat

    constructor (base: Path, isUlid: string -> bool, agents: seq<Agent>, roots: seq<string>)
      requires Distinct(roots)
      ensures this.agents == agents && this.roots == roots && this.base == base && this.isUlid == isUlid
      ensures repointed == [] && reclaimed == [] && warnings == 0
    {
      this.base, this.isUlid, this.agents, this.roots := base, isUlid, agents, roots;
      repointed, reclaimed, warnings := [], [], 0;
    }

    /** Exactly the agents that run from the replaced root follow the new identity, and of those
        only the generated fields change. */
    method Repoint(superseded: Path, identity: Identity, locked: set<nat>)
      modifies `agents, `repointed, `warnings
      ensures |agents| == |old(agents)|
      ensures forall name :: name in repointed <==>
                || name in old(repointed)
                || exists i :: 0 <= i < |agents| && old(agents[i]).name == name && i !in locked
                               && Runs(old(agents[i]), superseded)
      ensures forall i :: 0 <= i < |agents| ==>
                var Agent(name, config) := old(agents[i]);
                if config.Some? && config.value.executable.Some? && superseded <= config.value.executable.value
                   && i !in locked
                then agents[i] == Agent(name, Some(Config(Some(identity.bin), identity.name, identity.version,
                                                          config.value.others)))
                else agents[i] == old(agents[i])
    {
      ghost var before := agents;
      var i := 0;
      while i < |agents|
        invariant 0 <= i <= |agents| == |before|
        invariant forall k :: 0 <= k < i ==>
                    agents[k] == if Runs(before[k], superseded) && k !in locked then Repointed(before[k], identity)
                        else before[k]
        invariant forall k :: i <= k < |agents| ==> agents[k] == before[k]
        invariant forall name :: name in repointed <==> name in old(repointed) || name in Names(before, superseded,
                  locked, i)
      {
        var agent := agents[i];
        if Runs(agent, superseded) {
          if i in locked {
            warnings := warnings + 1;
          } else {
            agents := agents[i := Repointed(agent, identity)];
            repointed := repointed + [agent.name];
          }
        }
        i := i + 1;
      }
    }

    /** The roots from `sorted` before `limit` that may go. */
    method RemoveOld(sorted: seq<string>, limit: nat, referenced: seq<Agent>, stuck: set<string>)
      returns (gone: set<string>)
      requires limit <= |sorted|
      modifies `roots, `reclaimed, `warnings
      ensures forall name :: name in gone <==>
                name in sorted[..limit] && !Referenced(referenced, base + [name]) && name !in stuck
      ensures roots == Kept(old(roots), gone)
      ensures forall name :: name in reclaimed <==> name in old(reclaimed) || name in gone
    {
      gone := {};
      KeptAll(roots);
      for i := 0 to limit
        invariant forall name :: name in gone <==>
                    name in sorted[..i] && !Referenced(referenced, base + [name]) && name !in stuck
        invariant roots == Kept(old(roots), gone)
        invariant forall name :: name in reclaimed <==> name in old(reclaimed) || name in gone
      {
        var root := sorted[i];
        assert sorted[..i + 1] == sorted[..i] + [root];
        if Referenced(referenced, base + [root]) { continue; }
        if root in stuck {
          warnings := warnings + 1;
        } else {
          KeptMore(old(roots), gone, root);
          roots := Kept(roots, {root});
          reclaimed := reclaimed + [root];
          gone := gone + {root};
        }
      }
    }

    method ReclaimRoots(current: Option<string>, listable: bool, listed: bool,
        stuck: set<string>) returns (gone: set<string>)
      requires Distinct(roots)
      modifies `roots, `reclaimed, `warnings
      ensures gone == if current.None? || !listable || current.value !in old(roots) then {}
                      else Removed(isUlid, base, old(roots), current.value, if listed then Some(agents) else None,
                                   stuck)
      ensures forall name :: name in roots <==> name in old(roots) && name !in gone
      ensures forall name :: name in reclaimed <==> name in old(reclaimed) || name in gone
    {
      gone := {};
      if current.None? { return; }
      if !listable {
        warnings := warnings + 1;
        return;
      }
      var sorted := Sort(isUlid, roots);
      if current.value !in sorted { return; }
      var position := IndexOf(sorted, current.value);
      var referenced := if listed then agents else [];
      forall i | 0 <= i < |sorted|
        ensures i < (if position == 0 then 0 else position - 1) <==> Surplus(isUlid, roots, current.value, sorted[i])
      {
        SurplusByPosition(isUlid, sorted, position, i);
      }
      gone := RemoveOld(sorted, if position == 0 then 0 else position - 1, referenced, stuck);
    }

    /** Repointing comes first, so that a root every agent left can go in the same run. */
    method RepointAndReclaim(superseded: Option<Path>, identity: Identity, current: Option<string>, listed: bool,
                             listable: bool, listedAgain: bool, locked: set<nat>,
                                 stuck: set<string>) returns (gone: set<string>)
      requires Distinct(roots)
      modifies this
      ensures !listed ==> gone == {} && agents == old(agents) && roots == old(roots)
      ensures |agents| == |old(agents)|
      ensures forall i :: 0 <= i < |agents| ==>
                var Agent(name, config) := old(agents[i]);
                if listed && superseded.Some? && i !in locked
                   && config.Some? && config.value.executable.Some? && superseded.value <= config.value.executable.value
                then agents[i] == Agent(name, Some(Config(Some(identity.bin), identity.name, identity.version,
                                                          config.value.others)))
                else agents[i] == old(agents[i])
      ensures listed ==>
                gone == if current.None? || !listable || current.value !in old(roots) then {}
                        else Removed(isUlid, base, old(roots), current.value, if listedAgain then Some(agents)
                            else None, stuck)
      ensures listed && listedAgain ==> forall name :: name in gone ==> !Referenced(agents, base + [name])
      ensures listed && current.Some? && listable && current.value in old(roots) ==>
                forall root :: root in gone <==>
                  && root in old(roots) && root !in stuck
                  && (exists between :: between in old(roots)
                        && Before(isUlid, root, between) && Before(isUlid, between, current.value))
                  && (listedAgain ==> forall agent :: agent in agents ==>
                        !(agent.config.Some? && agent.config.value.executable.Some?
                          && base + [root] <= agent.config.value.executable.value))
      ensures current.Some? ==> current.value !in gone
      ensures forall name :: name in roots <==> name in old(roots) && name !in gone
    {
      gone := {};
      if !listed {
        warnings := warnings + 1;
        return;
      }
      if superseded.Some? { Repoint(superseded.value, identity, locked); }
      gone := ReclaimRoots(current, listable, listedAgain, stuck);
      if current.Some? {
        RecentRootsStay(isUlid, base, old(roots), current.value, if listedAgain then Some(agents)
            else None, stuck, current.value);
      }
    }
  }

  function Kept(roots: seq<string>, gone: set<string>): (kept: seq<string>)
    ensures forall name :: name in kept <==> name in roots && name !in gone
  {
    if roots == [] then []
    else if roots[0] in gone then Kept(roots[1..], gone)
    else [roots[0]] + Kept(roots[1..], gone)
  }

  lemma {:induction false} KeptAll(roots: seq<string>)
    ensures Kept(roots, {}) == roots
  {
    if roots != [] { KeptAll(roots[1..]); }
  }

  lemma {:induction false} KeptMore(roots: seq<string>, gone: set<string>, name: string)
    ensures Kept(Kept(roots, gone), {name}) == Kept(roots, gone + {name})
  {
    if roots != [] {
      KeptMore(roots[1..], gone, name);
      var kept := Kept(roots[1..], gone);
      if roots[0] !in gone { assert ([roots[0]] + kept)[1..] == kept; }
    }
  }

  method IndexOf(names: seq<string>, name: string) returns (position: nat)
    requires name in names
    ensures position < |names| && names[position] == name
  {
    position := 0;
    while names[position] != name
      invariant position < |names| && name !in names[..position]
      decreases |names| - position
    {
      position := position + 1;
    }
  }

  // ---- A used root that goes ----

  /** The digits and letters of Crockford's base 32. */
  predicate IsBase32(c: char) {
    '0' <= c <= '9' || ('A' <= c <= 'Z' && c != 'I' && c != 'L' && c != 'O' && c != 'U')
  }

  /** A name as installing generates it. */
  predicate UlidName(name: string) {
    |name| == 26 && forall i :: 0 <= i < 26 ==> IsBase32(name[i])
  }

  const OLDEST := "01HX5J8ZT4C9Q2W7R1M6K3V0BD"
  const MIDDLE := "01J2P7N0YGE5A8T3S6F4D9W1XC"
  const NEWEST := "01JA9K4QM7V2R5B8H0E3Z6T1NP"

  predicate InOrder(oldest: string, middle: string, newest: string) {
    Before(UlidName, oldest, middle) && Before(UlidName, middle, newest)
  }

  lemma OldestIsUlid()
    ensures UlidName(OLDEST)
  {
  }

  lemma MiddleIsUlid()
    ensures UlidName(MIDDLE)
  {
  }

  lemma NewestIsUlid()
    ensures UlidName(NEWEST)
  {
  }

  lemma NamesInOrder()
    ensures InOrder(OLDEST, MIDDLE, NEWEST)
  {
    hide UlidName, LessText;
    OldestIsUlid();
    MiddleIsUlid();
    NewestIsUlid();
    OldestIsLess();
    MiddleIsLess();
  }

  lemma OldestIsLess()
    ensures LessText(OLDEST, MIDDLE)
  {
    hide LessText;
    LessTextAt(OLDEST, MIDDLE, 2);
  }

  lemma MiddleIsLess()
    ensures LessText(MIDDLE, NEWEST)
  {
    hide LessText;
    LessTextAt(MIDDLE, NEWEST, 3);
  }

  lemma {:induction false} LessTextAt(a: string, b: string, n: nat)
    requires n < |a| && n < |b| && (forall i :: 0 <= i < n ==> a[i] == b[i]) && a[n] < b[n]
    ensures LessText(a, b)
  {
    if n > 0 { LessTextAt(a[1..], b[1..], n - 1); }
  }

  /** Three installations and an agent still on the oldest. Reclaiming leaves all of them, unless
      agents cannot be listed: then the root in use is removed. */
  method ReclaimThree(oldest: string, middle: string, newest: string, listed: bool)
    returns (store: Installations, gone: set<string>)
    requires InOrder(oldest, middle, newest)
    ensures fresh(store) && Referenced(store.agents, store.base + [oldest])
    ensures gone == if listed then {} else {oldest}
    ensures forall root :: root in store.roots <==> root in {oldest, middle, newest} && root !in gone
  {
    OnlyOldestIsSurplus(oldest, middle, newest);
    hide LessText, UlidName, Before;
    var base := ["adapters", "codex", "installations"];
    var agent := Agent("writer", Some(Config(Some(base + [oldest] + ["bin", "codex-acp"]), "codex", "1.10.0", "")));
    store := new Installations(base, UlidName, [agent], [newest, oldest, middle]);
    assert Runs(store.agents[0], base + [oldest]);
    gone := store.ReclaimRoots(Some(newest), true, listed, {});
  }

  lemma OnlyOldestIsSurplus(oldest: string, middle: string, newest: string)
    requires InOrder(oldest, middle, newest)
    ensures Distinct([newest, oldest, middle])
    ensures forall root :: Surplus(UlidName, [newest, oldest, middle], newest, root) <==> root == oldest
  {
    hide LessText, UlidName, Before;
    var roots := [newest, oldest, middle];
    assert middle in roots;
    BeforeIsOrder(UlidName, oldest, middle, newest);
    BeforeIsOrder(UlidName, middle, middle, middle);
    BeforeIsOrder(UlidName, newest, newest, newest);
    forall root | Surplus(UlidName, roots, newest, root) ensures root == oldest {
      var between :| between in roots && Before(UlidName, root, between) && Before(UlidName, between, newest);
      BeforeIsOrder(UlidName, root, between, newest);
      BeforeIsOrder(UlidName, root, between, root);
      BeforeIsOrder(UlidName, middle, oldest, middle);
    }
  }

  /** The same with names as the program generates them. */
  method ListingFailureRemovesUsedRoot(listed: bool) returns (store: Installations, gone: set<string>)
    ensures fresh(store) && Referenced(store.agents, store.base + [OLDEST])
    ensures gone == if listed then {} else {OLDEST}
    ensures forall root :: root in store.roots <==> root in {OLDEST, MIDDLE, NEWEST} && root !in gone
  {
    NamesInOrder();
    hide InOrder;
    store, gone := ReclaimThree(OLDEST, MIDDLE, NEWEST, listed);
  }
}
