/** When one tool grant contains another, and why nothing a chain of spawned
    agents holds goes beyond what its first agent was given. */
module ToolGrant {
  import opened Types

  predicate EndsWith(s: string, suffix: string) { |s| >= |suffix| && s[|s| - |suffix|..] == suffix }

  /** `strip_prefix` */
  function Rest(s: string, prefix: string): Option<string> {
    if prefix <= s then Some(s[|prefix|..]) else None
  }

  const AGGREGATE := ":*)"

  /** `tool_covers` */
  predicate Covers(parent: string, requested: string) {
    if parent == requested then true
    else if EndsWith(parent, AGGREGATE) then
      var rest := Rest(requested, parent[..|parent| - 3]);
      rest.Some? && rest.value != "" && (rest.value[0] == ' ' || rest.value[0] == ':')
    else
      var rest := Rest(requested, parent);
      || ('(' !in parent && rest.Some? && "(" <= rest.value)
      || ("mcp__" <= parent && rest.Some? && "__" <= rest.value)
  }

  lemma CoversIsReflexive(tool: string)
    ensures Covers(tool, tool)
  {
  }

  /** Everything past the prefix a grant fixes is free, so what one grant fixes
      for another is fixed for all that the other covers: an aggregate's own
      suffix never reaches back into the prefix of what covers it. */
  lemma SuffixStaysOutside(a: string, mark: string, b: string)
    requires a + mark <= b && EndsWith(b, AGGREGATE)
    requires mark == " " || mark == ":" || mark == "(" || mark == "__"
    requires mark == ":" ==> b != a + AGGREGATE
    ensures a + mark <= b[..|b| - 3]
  {
    var n := |b| - 3;
    assert b[n] == ':' && b[n + 1] == '*' && b[n + 2] == ')';
    var last := |a| + |mark| - 1;
    assert b[last] == (a + mark)[last] == mark[|mark| - 1];
    assert b == b[..n] + AGGREGATE;
  }

  /** The mark that must follow a grant's fixed prefix. */
  function Fixed(parent: string): string {
    if EndsWith(parent, AGGREGATE) then parent[..|parent| - 3] else parent
  }

  predicate MarkOf(parent: string, mark: string) {
    if EndsWith(parent, AGGREGATE) then mark == " " || mark == ":"
    else (mark == "(" && '(' !in parent) || (mark == "__" && "mcp__" <= parent)
  }

  /** A grant covers exactly itself and whatever continues its fixed prefix with
      one of its marks. */
  lemma CoversIff(parent: string, requested: string)
    ensures Covers(parent, requested) <==>
            parent == requested || exists mark :: MarkOf(parent, mark) && Fixed(parent) + mark <= requested
  {
    if parent != requested && Covers(parent, requested) {
      var fixed := Fixed(parent);
      var rest := Rest(requested, fixed).value;
      var mark :=
        if EndsWith(parent, AGGREGATE) then rest[..1]
        else if '(' !in parent && "(" <= rest then "(" else "__";
      assert requested == fixed + rest && mark <= rest;
      assert MarkOf(parent, mark) && fixed + mark <= requested;
    }
    if mark :| MarkOf(parent, mark) && Fixed(parent) + mark <= requested {
      var fixed := Fixed(parent);
      var rest := requested[|fixed|..];
      assert requested == fixed + rest;
      assert rest[..|mark|] == requested[|fixed|..|fixed| + |mark|] == mark;
    }
  }

  /** Coverage is transitive over all strings. */
  lemma CoversIsTransitive(a: string, b: string, c: string)
    requires Covers(a, b) && Covers(b, c)
    ensures Covers(a, c)
  {
    CoversIff(a, b);
    CoversIff(b, c);
    CoversIff(a, c);
    if a != b && b != c {
      var mark :| MarkOf(a, mark) && Fixed(a) + mark <= b;
      var other :| MarkOf(b, other) && Fixed(b) + other <= c;
      if EndsWith(b, AGGREGATE) {
        if b == Fixed(a) + AGGREGATE {
          SamePrefixSameGrant(a, b, mark);
        }
        SuffixStaysOutside(Fixed(a), mark, b);
      }
      assert Fixed(a) + mark <= Fixed(b) <= c;
    }
  }

  lemma SamePrefixSameGrant(a: string, b: string, mark: string)
    requires a != b && MarkOf(a, mark) && Fixed(a) + mark <= b && b == Fixed(a) + AGGREGATE
    ensures mark != ":"
  {
    assert EndsWith(a, AGGREGATE) ==> a == Fixed(a) + AGGREGATE;
  }

  // ---- Grants ----

  predicate Held(parent: seq<string>, tool: string) { exists held :: held in parent && Covers(held, tool) }

  /** `requested` taken apart into the two lists, in order. */
  predicate Merges(requested: seq<string>, left: seq<string>, right: seq<string>)
    decreases |requested|
  {
    if requested == [] then left == [] && right == []
    else
      || (left != [] && left[0] == requested[0] && Merges(requested[1..], left[1..], right))
      || (right != [] && right[0] == requested[0] && Merges(requested[1..], left, right[1..]))
  }

  lemma {:induction false} MergesSnoc(requested: seq<string>, left: seq<string>, right: seq<string>, tool: string)
    requires Merges(requested, left, right)
    ensures Merges(requested + [tool], left + [tool], right)
    ensures Merges(requested + [tool], left, right + [tool])
    decreases |requested|
  {
    if requested == [] {
      assert ([tool])[1..] == [];
      assert left + [tool] == [tool] && right + [tool] == [tool] && requested + [tool] == [tool];
    } else {
      assert (requested + [tool])[1..] == requested[1..] + [tool];
      if left != [] && left[0] == requested[0] && Merges(requested[1..], left[1..], right) {
        MergesSnoc(requested[1..], left[1..], right, tool);
        assert (left + [tool])[1..] == left[1..] + [tool];
      } else {
        MergesSnoc(requested[1..], left, right[1..], tool);
        assert (right + [tool])[1..] == right[1..] + [tool];
      }
    }
  }

  /** `grant_child_tools_from_parent`: an absent parent grants everything, a
      parent grants exactly what it holds; every request lands on one side, in
      the order it was made. */
  method GrantChildTools(parent: Option<seq<string>>, requested: seq<string>)
    returns (granted: seq<string>, denied: seq<string>)
    ensures Merges(requested, granted, denied)
    ensures parent.None? ==> granted == requested && denied == []
    ensures parent.Some? ==> forall tool | tool in granted :: Held(parent.value, tool)
    ensures parent.Some? ==> forall tool | tool in denied :: !Held(parent.value, tool)
  {
    granted, denied := [], [];
    assert requested[..0] == [];
    for i := 0 to |requested|
      invariant Merges(requested[..i], granted, denied)
      invariant parent.None? ==> granted == requested[..i] && denied == []
      invariant parent.Some? ==> forall tool | tool in granted :: Held(parent.value, tool)
      invariant parent.Some? ==> forall tool | tool in denied :: !Held(parent.value, tool)
    {
      MergesSnoc(requested[..i], granted, denied, requested[i]);
      assert requested[..i + 1] == requested[..i] + [requested[i]];
      var held := true;
      if parent.Some? {
        held := Holds(parent.value, requested[i]);
      }
      if held {
        granted := granted + [requested[i]];
      } else {
        denied := denied + [requested[i]];
      }
    }
    assert requested[..|requested|] == requested;
  }

  /** `any` over the parent's allowed tools. */
  method Holds(parent: seq<string>, tool: string) returns (held: bool)
    ensures held == Held(parent, tool)
  {
    for i := 0 to |parent|
      invariant forall j | 0 <= j < i :: !Covers(parent[j], tool)
    {
      if Covers(parent[i], tool) {
        assert parent[i] in parent;
        return true;
      }
    }
    return false;
  }

  // ---- Spawn chains ----

  /** An agent's parent and the tools its definition was granted. */
  datatype Agent = Agent(parent: Option<string>, tools: seq<string>)

  /** A child is created under a new name with what its parent could grant. */
  predicate Spawns(before: map<string, Agent>, child: string, agent: Agent, after: map<string, Agent>) {
    && child !in before && after == before[child := agent]
    && (agent.parent.Some? ==>
          agent.parent.value in before
          && forall tool | tool in agent.tools :: Held(before[agent.parent.value].tools, tool))
  }

  ghost predicate Attenuated(agents: map<string, Agent>) {
    forall a | a in agents && agents[a].parent.Some? ::
      agents[a].parent.value in agents
      && forall tool | tool in agents[a].tools :: Held(agents[agents[a].parent.value].tools, tool)
  }

  lemma SpawningAttenuates(before: map<string, Agent>, child: string, agent: Agent, after: map<string, Agent>)
    requires Attenuated(before) && Spawns(before, child, agent, after)
    ensures Attenuated(after)
  {
  }

  function Ancestor(agents: map<string, Agent>, a: string, n: nat): Option<string> {
    if n == 0 then Some(a)
    else
      var below := Ancestor(agents, a, n - 1);
      if below.Some? && below.value in agents then agents[below.value].parent else None
  }

  /** Along a chain of any length, whatever a descendant holds its ancestor's
      own grant covers: spawning never widens authority. */
  lemma {:induction false} DescendantsHoldNoMore(
    agents: map<string, Agent>, a: string, n: nat, top: string, tool: string)
    requires Attenuated(agents) && a in agents && tool in agents[a].tools
    requires Ancestor(agents, a, n) == Some(top)
    ensures top in agents && Held(agents[top].tools, tool)
  {
    if n == 0 {
      CoversIsReflexive(tool);
    } else {
      var below := Ancestor(agents, a, n - 1).value;
      DescendantsHoldNoMore(agents, a, n - 1, below, tool);
      var held :| held in agents[below].tools && Covers(held, tool);
      assert Held(agents[top].tools, held);
      var above :| above in agents[top].tools && Covers(above, held);
      CoversIsTransitive(above, held, tool);
    }
  }
}
