/** The MCP proxy (internal/mcpproxy/proxy.go): tool names with a server prefix, the tool list a
    run may see, the check before a call leaves the gateway, and the connection cache. */
module McpProxy {
  import opened Wrappers
  import opened Text

  datatype ToolInfo = ToolInfo(name: string, description: string, inputSchema: string)

  datatype Authz = Authz(org: string, user: string, grants: seq<string>)

  datatype Error = UnknownTool | Unavailable | BadResponse

  /** policy.Engine.Can for the fixed action mcp.call: caller, resource and required scope. */
  type Policy = (Authz, string, string) -> bool

  // ----- names

  function Namespace(server: string, tool: string): string {
    "mcp__" + server + "__" + tool
  }

  function SplitNamespace(name: string): Option<(string, string)> {
    var rest := if "mcp__" <= name then name[5..] else name;
    var i := Index(rest, "__");
    if i <= 0 || i == |rest| - 2 then None else Some((rest[..i], rest[i + 2..]))
  }

  /** A server name that a namespaced tool can be split back from. */
  ghost predicate Splittable(server: string) {
    server != "" && !Contains(server, "__") && server[|server| - 1] != '_'
  }

  lemma RestOf(server: string, tool: string)
    ensures "mcp__" <= Namespace(server, tool) && Namespace(server, tool)[5..] == server + "__" + tool
  {}

  /** The first "__" of server + "__" + tool is the one put there, exactly for names without a
      "__" of their own and without a trailing '_'. */
  lemma FirstBreak(server: string, tool: string)
    ensures server != "" ==> (Index(server + "__" + tool, "__") == |server| <==> Splittable(server))
  {
    var rest, n := server + "__" + tool, |server|;
    assert rest[n..n + 2] == "__";
    assert OccursAt(rest, "__", n);
    forall i | OccursAt(server, "__", i) ensures OccursAt(rest, "__", i) {
      assert rest[i..i + 2] == server[i..i + 2];
    }
    if server != "" && Index(rest, "__") == n {
      assert !OccursAt(rest, "__", n - 1);
      assert rest[n - 1..n + 1] == [server[n - 1], '_'];
    }
    if Splittable(server) {
      forall i | 0 <= i < n ensures !OccursAt(rest, "__", i) {
        if i + 2 <= n {
          assert rest[i..i + 2] == server[i..i + 2];
          assert !OccursAt(server, "__", i);
        } else {
          assert rest[i..i + 2][0] == server[n - 1];
        }
      }
    }
  }

  /** Splitting undoes naming exactly for a splittable server and a nonempty tool. */
  lemma SplitUndoesNamespaceIff(server: string, tool: string)
    ensures SplitNamespace(Namespace(server, tool)) == Some((server, tool)) <==> Splittable(server) && tool != ""
  {
    RestOf(server, tool);
    FirstBreak(server, tool);
    var rest, n := server + "__" + tool, |server|;
    assert rest[..n] == server && rest[n + 2..] == tool;
    if SplitNamespace(Namespace(server, tool)) == Some((server, tool)) {
      var i := Index(rest, "__");
      assert rest[..i] == server;
      assert i == n;
    }
  }

  /** A server name that another one runs into: with one more '_', or going on after a "__". */
  predicate RunsInto(s: string, s': string) {
    s' == s + "_" || s + "__" <= s'
  }

  /** Of two names that are equal the shorter server runs into the longer one. */
  lemma EqualNames(s: string, t: string, s': string, t': string)
    requires Namespace(s, t) == Namespace(s', t') && |s| <= |s'|
    ensures (s == s' && t == t') || RunsInto(s, s')
  {
    RestOf(s, t);
    RestOf(s', t');
    var x, y, n := s + "__" + t, s' + "__" + t', |s|;
    assert x == y && x[..n] == s && y[..n] == s'[..n];
    assert x[n] == '_' && x[n + 1] == '_' && x[n + 2..] == t;
    if |s'| == n {
      assert y[n + 2..] == t';
    } else if |s'| == n + 1 {
      assert s' == s'[..n] + [s'[n]] && s'[n] == y[n];
    } else {
      assert s'[n] == y[n] && s'[n + 1] == y[n + 1];
      assert s'[..n + 2] == s'[..n] + [s'[n], s'[n + 1]] == s + "__";
    }
  }

  /** A pair of tools that two such servers give one name. */
  lemma Collision(s: string, s': string) returns (t: string, t': string)
    requires RunsInto(s, s')
    ensures t != "" && t' != "" && Namespace(s, t) == Namespace(s', t')
  {
    t' := "b";
    if s' == s + "_" {
      t := "_b";
      assert s + "__" + t == s' + "__" + t';
    } else {
      var u := s'[|s| + 2..];
      assert s' == s + "__" + u;
      t := u + "__" + t';
      assert s + "__" + t == s' + "__" + t';
    }
    RestOf(s, t);
    RestOf(s', t');
    var x, y := Namespace(s, t), Namespace(s', t');
    assert x == x[..5] + x[5..] && y == y[..5] + y[5..] && x[..5] == "mcp__" == y[..5];
  }

  ghost predicate Collides(s: string, t: string, s': string, t': string) {
    t != "" && t' != "" && Namespace(s, t) == Namespace(s', t')
  }

  /** Two servers have tools with one name between them if and only if one server name is the
      other with "_" added, or starts with the other and "__". */
  lemma NamesCollideIff(s: string, s': string)
    requires s != s'
    ensures (exists t, t' :: Collides(s, t, s', t')) <==> RunsInto(s, s') || RunsInto(s', s)
  {
    if t, t' :| Collides(s, t, s', t') {
      if |s| <= |s'| { EqualNames(s, t, s', t'); } else { EqualNames(s', t', s, t); }
    }
    if RunsInto(s, s') {
      var t, t' := Collision(s, s');
      assert Collides(s, t, s', t');
    } else if RunsInto(s', s) {
      var t', t := Collision(s', s);
      assert Collides(s, t, s', t');
    }
  }

  /** So names of splittable servers never collide. */
  lemma NamesNeverCollide(s: string, t: string, s': string, t': string)
    requires Splittable(s) && Splittable(s') && Namespace(s, t) == Namespace(s', t')
    ensures s == s' && t == t'
  {
    RunsIntoNoSplittable(s, s');
    RunsIntoNoSplittable(s', s);
    if |s| <= |s'| { EqualNames(s, t, s', t'); } else { EqualNames(s', t', s, t); }
  }

  lemma RunsIntoNoSplittable(s: string, s': string)
    ensures RunsInto(s, s') ==> !Splittable(s')
  {
    if s + "__" <= s' {
      assert s'[|s|..|s| + 2] == "__";
      assert OccursAt(s', "__", |s|);
    }
  }

  /** For any server name at all: if a name built from a tool splits to that server, it splits to
      that tool. */
  lemma SplitFindsTheTool(server: string, tool: string, bare: string)
    requires SplitNamespace(Namespace(server, tool)) == Some((server, bare))
    ensures bare == tool
  {
    RestOf(server, tool);
    var rest := server + "__" + tool;
    var i := Index(rest, "__");
    assert |rest[..i]| == i;
    assert rest[|server| + 2..] == tool;
  }

  // ----- visibility

  function GlobMatch(pattern: string, name: string): bool {
    if pattern != "" && pattern[|pattern| - 1] == '*' then pattern[..|pattern| - 1] <= name else pattern == name
  }

  predicate MatchAny(globs: seq<string>, name: string) {
    exists i | 0 <= i < |globs| :: globs[i] == "*" || GlobMatch(globs[i], name)
  }

  function Scope(server: string, tool: string): string {
    "mcp:" + server + ":" + tool
  }

  /** What a pattern means: a name matches itself, and whatever starts with what stands before a
      closing star. */
  lemma GlobMeans(pattern: string, name: string)
    ensures GlobMatch(pattern, name) <==> pattern == name || exists p :: pattern == p + "*" && p <= name
  {
    if pattern != "" {
      var n := |pattern| - 1;
      assert pattern == pattern[..n] + [pattern[n]];
      assert forall p :: pattern == p + "*" ==> p == pattern[..n];
    }
  }

  /** A list of patterns lets a name pass if and only if it holds the name, or a beginning of it and
      then a star. */
  lemma MatchMeans(globs: seq<string>, name: string)
    ensures MatchAny(globs, name) <==> name in globs || exists p :: p + "*" in globs && p <= name
  {
    forall i | 0 <= i < |globs|
      ensures GlobMatch(globs[i], name) <==> globs[i] == name || exists p :: globs[i] == p + "*" && p <= name
    {
      GlobMeans(globs[i], name);
    }
    if i :| 0 <= i < |globs| && globs[i] == "*" {
      assert globs[i] == "" + "*" && "" <= name;
    }
    if p :| p + "*" in globs && p <= name {
      var i :| 0 <= i < |globs| && globs[i] == p + "*";
      assert GlobMatch(globs[i], name);
    }
  }

  lemma ScopeTail(server: string, tool: string)
    ensures Scope(server, tool)[4..] == server + ":" + tool && (server + ":" + tool)[|server| + 1..] == tool
  {}

  /** Tools of one server have different scopes. */
  lemma ScopesDiffer(server: string, t: string, t': string)
    requires Scope(server, t) == Scope(server, t')
    ensures t == t'
  {
    ScopeTail(server, t);
    ScopeTail(server, t');
  }

  /** Tools of two servers can share a scope if and only if one server name starts with the other and ":". */
  lemma ScopesCollideIff(s: string, s': string)
    requires s != s'
    ensures (exists t, t' :: Scope(s, t) == Scope(s', t')) <==> s + ":" <= s' || s' + ":" <= s
  {
    forall t, t' | Scope(s, t) == Scope(s', t') ensures s + ":" <= s' || s' + ":" <= s {
      if |s| <= |s'| { SharedScope(s, t, s', t'); } else { SharedScope(s', t', s, t); }
    }
    if s + ":" <= s' {
      SharesScope(s, s');
    } else if s' + ":" <= s {
      SharesScope(s', s);
    }
  }

  lemma SharedScope(s: string, t: string, s': string, t': string)
    requires Scope(s, t) == Scope(s', t') && |s| <= |s'| && s != s'
    ensures s + ":" <= s'
  {
    ScopeTail(s, t);
    ScopeTail(s', t');
    var x, y, n := s + ":" + t, s' + ":" + t', |s|;
    assert x == y && x[..n] == s && y[..n] == s'[..n] && x[n] == ':';
    assert |s'| > n && s'[n] == y[n];
    assert s'[..n + 1] == s'[..n] + [s'[n]] == s + ":";
  }

  lemma SharesScope(s: string, s': string)
    requires s + ":" <= s'
    ensures exists t, t' :: Scope(s, t) == Scope(s', t')
    ensures exists t', t :: Scope(s', t') == Scope(s, t)
  {
    var u := s'[|s| + 1..];
    assert s' == s + ":" + u;
    assert s + ":" + (u + ":") == s' + ":" + "";
    assert Scope(s, u + ":") == "mcp:" + (s + ":" + (u + ":")) && Scope(s', "") == "mcp:" + (s' + ":" + "");
  }

  predicate Admits(policy: Policy, req: Authz, server: string, globs: seq<string>, t: ToolInfo) {
    MatchAny(globs, t.name) && policy(req, server, Scope(server, t.name))
  }

  function Shown(server: string, t: ToolInfo): ToolInfo {
    ToolInfo(Namespace(server, t.name), t.description, t.inputSchema)
  }

  /** The listed tools that match a pattern and that policy admits, renamed, in order. */
  function Exposed(policy: Policy, req: Authz, server: string, globs: seq<string>,
                   listed: seq<ToolInfo>): seq<ToolInfo> {
    if listed == [] then []
    else
      var n := |listed| - 1;
      Exposed(policy, req, server, globs, listed[..n])
      + if Admits(policy, req, server, globs, listed[n]) then [Shown(server, listed[n])] else []
  }

  method MatchesAny(globs: seq<string>, name: string) returns (b: bool)
    ensures b == MatchAny(globs, name)
  {
    for i := 0 to |globs|
      invariant forall j :: 0 <= j < i ==> globs[j] != "*" && !GlobMatch(globs[j], name)
    {
      if globs[i] == "*" || GlobMatch(globs[i], name) {
        return true;
      }
    }
    return false;
  }

  /** ExposedTools after the session was found and has listed its tools. */
  method ExposedTools(policy: Policy, req: Authz, server: string, globs: seq<string>, listed: seq<ToolInfo>)
    returns (out: seq<ToolInfo>)
    ensures out == Exposed(policy, req, server, globs, listed)
  {
    out := [];
    for i := 0 to |listed|
      invariant out == Exposed(policy, req, server, globs, listed[..i])
    {
      assert listed[..i + 1][..i] == listed[..i];
      var t := listed[i];
      var m := MatchesAny(globs, t.name);
      if m && policy(req, server, Scope(server, t.name)) {
        out := out + [Shown(server, t)];
      }
    }
    assert listed[..|listed|] == listed;
  }

  lemma {:induction false} ExposedIs(policy: Policy, req: Authz, server: string, globs: seq<string>,
                                     listed: seq<ToolInfo>, o: ToolInfo)
    ensures o in Exposed(policy, req, server, globs, listed) <==>
      exists t :: t in listed && Admits(policy, req, server, globs, t) &&
        o == ToolInfo(Namespace(server, t.name), t.description, t.inputSchema)
    decreases |listed|
  {
    if listed != [] {
      var n := |listed| - 1;
      ExposedIs(policy, req, server, globs, listed[..n], o);
      assert listed == listed[..n] + [listed[n]];
      assert listed[n] in listed;
    }
  }

  /** A run sees under a name exactly the listed tools that a pattern lets pass and policy admits for
      that tool's own scope, with description and schema as listed. */
  lemma ExposedAre(policy: Policy, req: Authz, server: string, globs: seq<string>, listed: seq<ToolInfo>, name: string)
    ensures forall o :: o in Exposed(policy, req, server, globs, listed) <==>
      exists t :: t in listed && Admits(policy, req, server, globs, t) &&
        o == ToolInfo(Namespace(server, t.name), t.description, t.inputSchema)
    ensures (exists o :: o in Exposed(policy, req, server, globs, listed) && o.name == name)
       <==> (exists t :: t in listed && Admits(policy, req, server, globs, t) && Namespace(server, t.name) == name)
  {
    var all := Exposed(policy, req, server, globs, listed);
    forall o ensures o in all <==>
      exists t :: t in listed && Admits(policy, req, server, globs, t) &&
        o == ToolInfo(Namespace(server, t.name), t.description, t.inputSchema)
    {
      ExposedIs(policy, req, server, globs, listed, o);
    }
    if t :| t in listed && Admits(policy, req, server, globs, t) && Namespace(server, t.name) == name {
      assert ToolInfo(Namespace(server, t.name), t.description, t.inputSchema) in all;
    }
  }

  /** And in the order and as often as they are listed: what a list exposes is what its parts expose. */
  lemma {:induction false} ExposedInOrder(policy: Policy, req: Authz, server: string, globs: seq<string>,
                                          a: seq<ToolInfo>, b: seq<ToolInfo>)
    ensures Exposed(policy, req, server, globs, a + b) ==
      Exposed(policy, req, server, globs, a) + Exposed(policy, req, server, globs, b)
    decreases |b|
  {
    if b == [] {
      assert a + b == a;
    } else {
      var n := |b| - 1;
      ExposedInOrder(policy, req, server, globs, a, b[..n]);
      assert (a + b)[..|a + b| - 1] == a + b[..n];
    }
  }

  /** The tool a call may name: listed by the session, admitted by policy, and spelled by `name`. */
  ghost predicate Callable(policy: Policy, req: Authz, server: string, listed: seq<ToolInfo>, name: string,
                           tool: string) {
    && (exists t :: t in listed && t.name == tool)
    && policy(req, server, Scope(server, tool))
    && name == Namespace(server, tool)
  }

  predicate Addressed(server: string, name: string) {
    SplitNamespace(name).Some? && SplitNamespace(name).value.0 == server
  }

  /** Call: `listed` is what the caller's session lists, if it can be had, `again` tells whether a
      session can be had a second time, and `answer` is what it returns. A request leaves the gateway
      exactly when the name splits to this server and
      a callable tool; its answer comes back exactly if it is JSON within the size cap. */
  method Call(policy: Policy, req: Authz, server: string, name: string, listed: Option<seq<ToolInfo>>,
              again: bool, answer: Option<string>, maxResp: nat, json: string -> bool)
    returns (sent: Option<string>, r: Result<string, Error>)
    ensures forall tool :: sent == Some(tool) <==>
      && SplitNamespace(name) == Some((server, tool))
      && listed.Some? && Callable(policy, req, server, listed.value, name, tool) && again
    ensures sent.None? ==> r.Err? && (r.error == UnknownTool || r.error == Unavailable)
    ensures r == Err(UnknownTool) <==>
      || !Addressed(server, name)
      || (listed.Some? && !Callable(policy, req, server, listed.value, name, SplitNamespace(name).value.1))
    ensures sent.Some? && answer.None? ==> r == Err(Unavailable)
    ensures sent.Some? && answer.Some? ==>
      r == if |answer.value| <= maxResp && json(answer.value) then Ok(answer.value) else Err(BadResponse)
  {
    var split := SplitNamespace(name);
    if split.None? || split.value.0 != server {
      return None, Err(UnknownTool);
    }
    if listed.None? {
      return None, Err(Unavailable);
    }
    var bare := split.value.1;
    var exposed := ExposedTools(policy, req, server, ["*"], listed.value);
    ExposedAre(policy, req, server, ["*"], listed.value, name);
    var visible := false;
    for i := 0 to |exposed|
      invariant visible == exists j :: 0 <= j < i && exposed[j].name == name
    {
      if exposed[i].name == name {
        visible := true;
        break;
      }
    }
    VisibleIsCallable(policy, req, server, listed.value, name, bare);
    if !visible {
      return None, Err(UnknownTool);
    }
    if !again {
      return None, Err(Unavailable);
    }
    if answer.None? {
      return Some(bare), Err(Unavailable);
    }
    if |answer.value| > maxResp || !json(answer.value) {
      return Some(bare), Err(BadResponse);
    }
    return Some(bare), Ok(answer.value);
  }

  lemma VisibleIsCallable(policy: Policy, req: Authz, server: string, listed: seq<ToolInfo>, name: string, bare: string)
    requires SplitNamespace(name) == Some((server, bare))
    ensures Callable(policy, req, server, listed, name, bare)
       <==> exists t :: t in listed && Admits(policy, req, server, ["*"], t) && Namespace(server, t.name) == name
  {
    forall t: ToolInfo | Namespace(server, t.name) == name ensures t.name == bare {
      SplitFindsTheTool(server, t.name, bare);
    }
    assert forall t: ToolInfo :: MatchAny(["*"], t.name) by { assert ["*"][0] == "*"; }
  }
}
