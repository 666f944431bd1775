/** internal/agent/profile.go: agent profiles and the inheritance between them. */
module Profile {
  import opened Wrappers

  datatype ProviderEntry = ProviderEntry(provider: string, timeout: int, retry: int)

  /** The fields of config.AgentConfig. */
  datatype AgentConfig = AgentConfig(
    name: string, inherits: string, systemPromptFile: string,
    routingMode: string, providerChain: seq<ProviderEntry>,
    piiMode: string,
    alwaysAvailable: bool, autoDiscover: bool, allowedSkills: seq<string>,
    maxHistoryTokens: int, summarize: bool, summarizeProvider: string, summarizeThreshold: int,
    memory: bool, topK: int, relevanceThreshold: real, recencyWeight: real,
    shellConfirmation: string, shellTimeout: int,
    allowlist: seq<string>)

  datatype ProfileError = Circular(name: string) | NotFound(name: string)

  type Agents = map<string, AgentConfig>

  function Over<T>(child: seq<T>, parent: seq<T>): seq<T> {
    if |child| > 0 then child else parent
  }

  function OverInt(child: int, parent: int): int {
    if child > 0 then child else parent
  }

  function OverReal(child: real, parent: real): real {
    if child > 0.0 then child else parent
  }

  /** mergeAgentConfig, field by field. */
  function Merge(parent: AgentConfig, child: AgentConfig): AgentConfig {
    parent.(
      name := Over(child.name, parent.name),
      inherits := "",
      systemPromptFile := Over(child.systemPromptFile, parent.systemPromptFile),
      routingMode := Over(child.routingMode, parent.routingMode),
      providerChain := Over(child.providerChain, parent.providerChain),
      piiMode := Over(child.piiMode, parent.piiMode),
      alwaysAvailable := child.alwaysAvailable || parent.alwaysAvailable,
      autoDiscover := child.autoDiscover || parent.autoDiscover,
      allowedSkills := Over(child.allowedSkills, parent.allowedSkills),
      maxHistoryTokens := OverInt(child.maxHistoryTokens, parent.maxHistoryTokens),
      summarize := child.summarize || parent.summarize,
      summarizeProvider := Over(child.summarizeProvider, parent.summarizeProvider),
      summarizeThreshold := OverInt(child.summarizeThreshold, parent.summarizeThreshold),
      memory := child.memory || parent.memory,
      topK := OverInt(child.topK, parent.topK),
      relevanceThreshold := OverReal(child.relevanceThreshold, parent.relevanceThreshold),
      recencyWeight := OverReal(child.recencyWeight, parent.recencyWeight),
      shellConfirmation := Over(child.shellConfirmation, parent.shellConfirmation),
      allowlist := Over(child.allowlist, parent.allowlist))
  }

  function Names(visited: seq<string>): set<string> {
    set i | 0 <= i < |visited| :: visited[i]
  }

  /** loadProfileChain. The names not visited yet run out. */
  function LoadChain(agents: Agents, name: string, visited: seq<string>): Result<AgentConfig, ProfileError>
    decreases |agents.Keys - Names(visited)|
  {
    if name in visited then Failure(Circular(name))
    else if name !in agents then Failure(NotFound(name))
    else if agents[name].inherits == "" then Success(agents[name])
    else
      assert agents.Keys - Names(visited + [name]) < agents.Keys - Names(visited) by {
        OneFewer(agents, name, visited);
      }
      SubsetSmaller(agents.Keys - Names(visited + [name]), agents.Keys - Names(visited));
      match LoadChain(agents, agents[name].inherits, visited + [name])
      case Failure(e) => Failure(e)
      case Success(parent) => Success(Merge(parent, agents[name]))
  }

  function LoadProfile(agents: Agents, name: string): Result<AgentConfig, ProfileError> {
    LoadChain(agents, name, [])
  }

  lemma {:induction false} OneFewer(agents: Agents, name: string, visited: seq<string>)
    requires name in agents && name !in visited
    ensures agents.Keys - Names(visited + [name]) < agents.Keys - Names(visited)
  {
    assert (visited + [name])[|visited|] == name;
    assert forall i :: 0 <= i < |visited| ==> (visited + [name])[i] == visited[i];
    assert name in Names(visited + [name]);
    forall x | x in Names(visited) ensures x in Names(visited + [name]) {
      var i :| 0 <= i < |visited| && visited[i] == x;
      assert (visited + [name])[i] == x;
    }
  }

  lemma {:induction false} SubsetSmaller(a: set<string>, b: set<string>)
    requires a < b
    ensures |a| < |b|
  {
    var x :| x in b && x !in a;
    SubsetNotLarger(a, b - {x});
  }

  lemma {:induction false} SubsetNotLarger(a: set<string>, b: set<string>)
    requires a <= b
    ensures |a| <= |b|
  {
    if a != {} {
      var x :| x in a;
      SubsetNotLarger(a - {x}, b - {x});
    }
  }

  // ----- The walk along the inherits fields -----

  /** The i-th name inherits from the next one. */
  predicate Inherits(agents: Agents, path: seq<string>, i: nat)
    requires i < |path|
  {
    path[i] in agents && (i + 1 < |path| ==> agents[path[i]].inherits == path[i+1] && path[i+1] != "")
  }

  predicate Distinct(path: seq<string>) {
    forall i, j :: 0 <= i < j < |path| ==> path[i] != path[j]
  }

  /** A walk: names in the map, each inheriting from the next, none twice. */
  predicate IsWalk(agents: Agents, path: seq<string>) {
    |path| > 0 && (forall i :: 0 <= i < |path| ==> Inherits(agents, path, i)) && Distinct(path)
  }

  /** Where a walk goes on from its last name; "" at a root. */
  function Onward(agents: Agents, path: seq<string>): string
    requires IsWalk(agents, path)
  {
    assert Inherits(agents, path, |path| - 1);
    agents[path[|path|-1]].inherits
  }

  /** The profiles of a walk, merged from its end, the root, to its start. */
  function Folded(agents: Agents, path: seq<string>): AgentConfig
    requires |path| > 0 && forall i :: 0 <= i < |path| ==> path[i] in agents
  {
    if |path| == 1 then agents[path[0]] else Merge(Folded(agents, path[1..]), agents[path[0]])
  }

  lemma {:induction false} InMap(agents: Agents, path: seq<string>)
    requires IsWalk(agents, path)
    ensures forall i :: 0 <= i < |path| ==> path[i] in agents
  {
    forall i | 0 <= i < |path| ensures path[i] in agents {
      assert Inherits(agents, path, i);
    }
  }

  lemma {:induction false} WalkTail(agents: Agents, path: seq<string>)
    requires IsWalk(agents, path) && |path| > 1
    ensures IsWalk(agents, path[1..]) && Onward(agents, path[1..]) == Onward(agents, path)
    ensures path[0] in agents && agents[path[0]].inherits == path[1] && path[1] != ""
  {
    assert Inherits(agents, path, 0);
    forall i | 0 <= i < |path[1..]| ensures Inherits(agents, path[1..], i) {
      assert Inherits(agents, path, i + 1);
    }
  }

  /** A walk that cannot go on decides the result: a root, a name met before, a name outside the map. */
  lemma {:induction false} WalkDecides(agents: Agents, path: seq<string>, visited: seq<string>)
    requires IsWalk(agents, path) && Distinct(visited + path)
    ensures forall i :: 0 <= i < |path| ==> path[i] in agents
    ensures var on := Onward(agents, path);
            && (on == "" ==> LoadChain(agents, path[0], visited) == Success(Folded(agents, path)))
            && (on != "" && on in visited + path ==> LoadChain(agents, path[0], visited) == Failure(Circular(on)))
            && (on != "" && on !in visited + path && on !in agents ==> LoadChain(agents, path[0], visited) == Failure(NotFound(on)))
    decreases |path|
  {
    InMap(agents, path);
    NotVisited(visited, path);
    hide Merge;
    if |path| == 1 {
      assert path == [path[0]] && visited + [path[0]] == visited + path;
    } else {
      WalkTail(agents, path);
      assert visited + [path[0]] + path[1..] == visited + path;
      WalkDecides(agents, path[1..], visited + [path[0]]);
    }
  }

  lemma {:induction false} NotVisited(visited: seq<string>, path: seq<string>)
    requires |path| > 0 && Distinct(visited + path)
    ensures path[0] !in visited
  {
    assert (visited + path)[|visited|] == path[0];
    assert forall i :: 0 <= i < |visited| ==> (visited + path)[i] == visited[i];
  }

  /** Every name in the map starts such a walk. */
  lemma {:induction false} WalkExists(agents: Agents, name: string, visited: seq<string>) returns (path: seq<string>)
    requires name in agents && name !in visited && Distinct(visited)
    ensures IsWalk(agents, path) && path[0] == name && Distinct(visited + path)
    ensures var on := Onward(agents, path); on == "" || on in visited + path || on !in agents
    decreases |agents.Keys - Names(visited)|
  {
    path := [name];
    assert Inherits(agents, path, 0);
    var on := agents[name].inherits;
    if on != "" && on !in visited + [name] && on in agents {
      OneFewer(agents, name, visited);
      SubsetSmaller(agents.Keys - Names(visited + [name]), agents.Keys - Names(visited));
      var rest := WalkExists(agents, on, visited + [name]);
      path := [name] + rest;
      Prepended(agents, name, rest, visited);
    }
  }

  lemma {:induction false} Prepended(agents: Agents, name: string, rest: seq<string>, visited: seq<string>)
    requires IsWalk(agents, rest) && name in agents && agents[name].inherits == rest[0] != "" && Distinct(visited + [name] + rest)
    ensures IsWalk(agents, [name] + rest) && Distinct(visited + ([name] + rest))
    ensures Onward(agents, [name] + rest) == Onward(agents, rest)
    ensures forall x :: x in visited + [name] + rest <==> x in visited + ([name] + rest)
  {
    var path := [name] + rest;
    var all := visited + [name] + rest;
    assert visited + path == all;
    assert forall i :: 0 <= i < |path| ==> path[i] == all[|visited| + i];
    forall i | 0 <= i < |path| ensures Inherits(agents, path, i) {
      if i > 0 {
        assert Inherits(agents, rest, i - 1);
      }
    }
  }

  ghost predicate Reaches(agents: Agents, name: string, path: seq<string>) {
    IsWalk(agents, path) && path[0] == name
  }

  /** Loading succeeds exactly when the walk from the name reaches a root, and then it gives the
      walk merged from the root down; it fails exactly when the walk repeats a name or leaves the
      map, and names where. */
  lemma {:induction false} LoadDecided(agents: Agents, name: string)
    ensures LoadProfile(agents, name).Success? <==>
              exists path :: Reaches(agents, name, path) && Onward(agents, path) == ""
    ensures forall path :: Reaches(agents, name, path) && Onward(agents, path) == "" ==>
              (forall i :: 0 <= i < |path| ==> path[i] in agents) && LoadProfile(agents, name) == Success(Folded(agents, path))
    ensures forall again :: LoadProfile(agents, name) == Failure(Circular(again)) <==>
              again != "" && exists path :: Reaches(agents, name, path) && Onward(agents, path) == again && again in path
    ensures forall missing :: LoadProfile(agents, name) == Failure(NotFound(missing)) <==>
              missing !in agents && (missing == name ||
              (missing != "" && exists path :: Reaches(agents, name, path) && Onward(agents, path) == missing))
  {
    hide Merge, LoadChain, Folded;
    forall path | Reaches(agents, name, path)
      ensures var on := Onward(agents, path);
              && (forall i :: 0 <= i < |path| ==> path[i] in agents)
              && (on == "" ==> LoadProfile(agents, name) == Success(Folded(agents, path)))
              && (on != "" && on in path ==> LoadProfile(agents, name) == Failure(Circular(on)))
              && (on != "" && on !in path && on !in agents ==> LoadProfile(agents, name) == Failure(NotFound(on)))
    {
      assert [] + path == path;
      WalkDecides(agents, path, []);
    }
    if name in agents {
      var path := WalkExists(agents, name, []);
      assert [] + path == path && Reaches(agents, name, path);
      InMap(agents, path);
    } else {
      MissingAtOnce(agents, name);
    }
  }

  lemma {:induction false} MissingAtOnce(agents: Agents, name: string)
    requires name !in agents
    ensures LoadProfile(agents, name) == Failure(NotFound(name))
    ensures forall path :: !Reaches(agents, name, path)
  {
    forall path ensures !Reaches(agents, name, path) {
      if Reaches(agents, name, path) {
        InMap(agents, path);
      }
    }
  }

  // ----- Merging -----

  /** A field of the child that is not empty, zero or false overrides the parent's; any other is the
      parent's. Only the shell timeout is the parent's in any case, and the result inherits nothing. */
  lemma ChildOverrides(p: AgentConfig, c: AgentConfig)
    ensures var m := Merge(p, c);
            && m.name == (if c.name != "" then c.name else p.name) && m.inherits == ""
            && m.systemPromptFile == (if c.systemPromptFile != "" then c.systemPromptFile else p.systemPromptFile)
            && m.routingMode == (if c.routingMode != "" then c.routingMode else p.routingMode)
            && m.providerChain == (if c.providerChain != [] then c.providerChain else p.providerChain)
            && m.piiMode == (if c.piiMode != "" then c.piiMode else p.piiMode)
            && (m.alwaysAvailable <==> c.alwaysAvailable || p.alwaysAvailable)
            && (m.autoDiscover <==> c.autoDiscover || p.autoDiscover)
            && m.allowedSkills == (if c.allowedSkills != [] then c.allowedSkills else p.allowedSkills)
    ensures var m := Merge(p, c);
            && m.maxHistoryTokens == (if c.maxHistoryTokens > 0 then c.maxHistoryTokens else p.maxHistoryTokens)
            && (m.summarize <==> c.summarize || p.summarize)
            && m.summarizeProvider == (if c.summarizeProvider != "" then c.summarizeProvider else p.summarizeProvider)
            && m.summarizeThreshold == (if c.summarizeThreshold > 0 then c.summarizeThreshold else p.summarizeThreshold)
            && (m.memory <==> c.memory || p.memory)
            && m.topK == (if c.topK > 0 then c.topK else p.topK)
            && m.relevanceThreshold == (if c.relevanceThreshold > 0.0 then c.relevanceThreshold else p.relevanceThreshold)
            && m.recencyWeight == (if c.recencyWeight > 0.0 then c.recencyWeight else p.recencyWeight)
            && m.shellConfirmation == (if c.shellConfirmation != "" then c.shellConfirmation else p.shellConfirmation)
            && m.shellTimeout == p.shellTimeout
            && m.allowlist == (if c.allowlist != [] then c.allowlist else p.allowlist)
  {
  }

  lemma MergeAssociative(a: AgentConfig, b: AgentConfig, c: AgentConfig)
    ensures Merge(Merge(a, b), c) == Merge(a, Merge(b, c))
  {
  }

  /** The result does not depend on how the walk is grouped. */
  lemma {:induction false} FoldGroups(agents: Agents, a: seq<string>, b: seq<string>)
    requires |a| > 0 && |b| > 0 && forall i :: 0 <= i < |a + b| ==> (a + b)[i] in agents
    ensures (forall i :: 0 <= i < |a| ==> a[i] in agents) && forall i :: 0 <= i < |b| ==> b[i] in agents
    ensures Folded(agents, a + b) == Merge(Folded(agents, b), Folded(agents, a))
    decreases |a|
  {
    assert forall i :: 0 <= i < |a| ==> a[i] == (a + b)[i];
    assert forall i :: 0 <= i < |b| ==> b[i] == (a + b)[|a| + i];
    assert (a + b)[1..] == a[1..] + b;
    if |a| == 1 {
      assert a[1..] + b == b;
    } else {
      FoldGroups(agents, a[1..], b);
      MergeAssociative(Folded(agents, b), Folded(agents, a[1..]), agents[a[0]]);
    }
  }

  /** One field is not merged at all: the shell timeout of a profile is its root's, whatever the
      profile and its other ancestors say. */
  lemma {:induction false} ShellTimeoutIsTheRoots(agents: Agents, path: seq<string>)
    requires |path| > 0 && forall i :: 0 <= i < |path| ==> path[i] in agents
    ensures Folded(agents, path).shellTimeout == agents[path[|path|-1]].shellTimeout
  {
    if |path| > 1 {
      ShellTimeoutIsTheRoots(agents, path[1..]);
    }
  }
}
