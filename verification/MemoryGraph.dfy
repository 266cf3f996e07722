/** Which entities a tool call refers to. */
module MemoryEntities {
  import opened Common

  type ToolInput = map<string, string>

  datatype EdgeType = Executed | Read | Wrote | Called | Targeted

  datatype Entity = Entity(kind: string, identifier: string, edge: EdgeType)

  function Get(input: ToolInput, key: string, default: string): string {
    if key in input then input[key] else default
  }

  /** Where the first `__` of the name is, or its length when there is none. */
  function FindDunder(s: string): (n: nat)
    ensures n <= |s|
    ensures n < |s| ==> n + 2 <= |s| && s[n] == '_' && s[n + 1] == '_'
  {
    if |s| < 2 then |s| else if s[0] == '_' && s[1] == '_' then 0 else 1 + FindDunder(s[1..])
  }

  /** The part between the first two `__` of an MCP tool name, when there are two. */
  function Provider(tool: string): string {
    var i := FindDunder(tool);
    if i == |tool| then "unknown"
    else
      var rest := tool[i + 2..];
      if FindDunder(rest) == |rest| then "unknown" else rest[..FindDunder(rest)]
  }

  /** File entities hang on read and wrote edges, repositories on targeted ones, the others on called ones. */
  predicate EdgeFits(e: Entity) {
    match e.edge
    case Executed => false
    case Read => e.kind == "file"
    case Wrote => e.kind == "file"
    case Targeted => e.kind == "repo"
    case Called => e.kind == "api" || e.kind == "subagent" || e.kind == "channel"
  }

  /** At most two entities, of different kinds, each on an edge that fits it. */
  predicate Tidy(es: seq<Entity>) {
    && |es| <= 2
    && (|es| == 2 ==> es[0].kind != es[1].kind)
    && forall i :: 0 <= i < |es| ==> EdgeFits(es[i])
  }

  function File(path: string, edge: EdgeType): (es: seq<Entity>)
    requires edge == Read || edge == Wrote
    ensures Tidy(es)
  {
    if path == "" then [] else [Entity("file", path, edge)]
  }

  /** The API, and the repository named by owner and repo or by one combined key. */
  function Github(input: ToolInput): (es: seq<Entity>)
    ensures Tidy(es)
  {
    var owner := Get(input, "owner", "");
    var repo := Get(input, "repo", "");
    var repository := Get(input, "repository", "");
    if owner != "" && repo != "" then [Entity("api", "github", Called), Entity("repo", owner + "/" + repo, Targeted)]
    else if '/' in repository then [Entity("api", "github", Called), Entity("repo", repository, Targeted)]
    else [Entity("api", "github", Called)]
  }

  /** The API and the channel, when one is given. */
  function Slack(input: ToolInput): (es: seq<Entity>)
    ensures Tidy(es)
  {
    var channel := Get(input, "channel", "");
    if channel != "" then [Entity("api", "slack", Called), Entity("channel", channel, Called)]
    else [Entity("api", "slack", Called)]
  }

  function Api(name: string): (es: seq<Entity>)
    ensures Tidy(es)
  {
    [Entity("api", name, Called)]
  }

  /** Memory tools are skipped, so that the graph does not record itself. */
  function ExtractMcp(tool: string, input: ToolInput): (es: seq<Entity>)
    ensures Tidy(es)
    ensures "mcp__memory__" <= tool || !("mcp__" <= tool) ==> es == []
  {
    if !("mcp__" <= tool) then []
    else if "mcp__memory__" <= tool then []
    else if "mcp__github__" <= tool then Github(input)
    else if "mcp__jira__" <= tool then Api("jira")
    else if "mcp__slack__" <= tool then Slack(input)
    else if "mcp__aws__" <= tool then Api("aws")
    else Api(Provider(tool))
  }

  function ExtractEntities(tool: string, input: ToolInput): (es: seq<Entity>)
    ensures Tidy(es)
  {
    if tool == "Read" then File(Get(input, "file_path", ""), Read)
    else if tool == "Edit" || tool == "Write" then File(Get(input, "file_path", ""), Wrote)
    else if tool == "Glob" || tool == "Grep" then File(Get(input, "path", ""), Read)
    else if tool == "Bash" then []
    else if tool == "Agent" then [Entity("subagent", Get(input, "subagent_type", "unknown"), Called)]
    else ExtractMcp(tool, input)
  }

  /** What an edge says about the tool behind it, for every tool name and input. */
  lemma EdgeTellsTheTool(tool: string, input: ToolInput, e: Entity)
    requires e in ExtractEntities(tool, input)
    ensures e.edge == Wrote <==> tool == "Edit" || tool == "Write"
    ensures e.edge == Read <==> tool == "Read" || tool == "Glob" || tool == "Grep"
    ensures e.edge == Targeted ==> "mcp__github__" <= tool && '/' in e.identifier
    ensures e.kind == "subagent" <==> tool == "Agent"
    ensures e.kind == "file" ==> e.identifier != "" && e.identifier in input.Values
  {
    if "mcp__" <= tool { assert tool[0] == 'm'; }
  }

  /** Neither contains `__` nor ends in `_`. */
  predicate Plain(p: string) {
    FindDunder(p) == |p| && (p != "" ==> p[|p| - 1] != '_')
  }

  /** A plain name is found whole in front of `__`. */
  lemma {:induction false} FindsTheFirst(p: string, rest: string)
    requires Plain(p)
    ensures FindDunder(p + "__" + rest) == |p|
  {
    var s := p + "__" + rest;
    if p == "" {
      assert s[0] == '_' && s[1] == '_';
    } else {
      assert s[1..] == p[1..] + "__" + rest;
      assert s[0] == p[0] && (|p| > 1 ==> s[1] == p[1]);
      FindsTheFirst(p[1..], rest);
    }
  }

  /** The provider of `mcp__<provider>__<tool>` is recognised, whatever stands around it. */
  lemma ProviderIsNamed(scheme: string, p: string, rest: string)
    requires Plain(scheme) && Plain(p)
    ensures Provider(scheme + "__" + (p + "__" + rest)) == p
  {
    var tail := p + "__" + rest;
    var tool := scheme + "__" + tail;
    FindsTheFirst(scheme, tail);
    FindsTheFirst(p, rest);
    assert tool[|scheme| + 2..] == tail;
    assert tail[..|p|] == p;
  }

  /** A name without a second `__` has no provider. */
  lemma ProviderIsUnknown(scheme: string, p: string)
    requires Plain(scheme) && FindDunder(p) == |p|
    ensures Provider(p) == Provider(scheme + "__" + p) == "unknown"
  {
    FindsTheFirst(scheme, p);
    assert (scheme + "__" + p)[|scheme| + 2..] == p;
  }

  lemma {:induction false} PlainWithoutUnderscores(p: string)
    requires '_' !in p
    ensures Plain(p)
  {
    if p != "" { PlainWithoutUnderscores(p[1..]); }
  }

  lemma KnownProvider(name: string, prefix: string, tool: string)
    requires '_' !in name && prefix == "mcp" + "__" + (name + "__") && prefix <= tool
    ensures Provider(tool) == name
  {
    var scheme := prefix[..3];
    var rest := tool[|prefix|..];
    PlainWithoutUnderscores(scheme);
    PlainWithoutUnderscores(name);
    ProviderIsNamed(scheme, name, rest);
    assert tool == prefix + rest;
    assert scheme == "mcp";
    assert prefix + rest == scheme + "__" + (name + "__" + rest);
  }

  /** The API comes first, and no other API follows. */
  predicate NamesApi(es: seq<Entity>, api: string) {
    es != [] && es[0] == Entity("api", api, Called) && forall i :: 0 < i < |es| ==> es[i].kind != "api"
  }

  lemma GithubNamesApi(tool: string, input: ToolInput)
    requires "mcp__github__" <= tool
    ensures NamesApi(Github(input), Provider(tool))
  {
    KnownProvider("github", "mcp__github__", tool);
  }

  lemma SlackNamesApi(tool: string, input: ToolInput)
    requires "mcp__slack__" <= tool
    ensures NamesApi(Slack(input), Provider(tool))
  {
    KnownProvider("slack", "mcp__slack__", tool);
  }

  lemma JiraNamesApi(tool: string)
    requires "mcp__jira__" <= tool
    ensures NamesApi(Api("jira"), Provider(tool))
  {
    KnownProvider("jira", "mcp__jira__", tool);
  }

  lemma AwsNamesApi(tool: string)
    requires "mcp__aws__" <= tool
    ensures NamesApi(Api("aws"), Provider(tool))
  {
    KnownProvider("aws", "mcp__aws__", tool);
  }

  /** Whichever branch handles it, an MCP call outside the memory tools names its provider as API, first and once. */
  lemma ApiIsTheProvider(tool: string, input: ToolInput)
    requires "mcp__" <= tool && !("mcp__memory__" <= tool)
    ensures NamesApi(ExtractMcp(tool, input), Provider(tool))
  {
    if "mcp__github__" <= tool {
      GithubNamesApi(tool, input);
    } else if "mcp__jira__" <= tool {
      JiraNamesApi(tool);
    } else if "mcp__slack__" <= tool {
      SlackNamesApi(tool, input);
    } else if "mcp__aws__" <= tool {
      AwsNamesApi(tool);
    } else {
      assert ExtractMcp(tool, input) == Api(Provider(tool));
    }
  }

  /** The two spellings of a repository give the same entities. */
  lemma RepoSpellingsAgree(split: ToolInput, joined: ToolInput)
    requires Get(split, "owner", "") != "" && Get(split, "repo", "") != ""
    requires Get(joined, "owner", "") == "" || Get(joined, "repo", "") == ""
    requires Get(joined, "repository", "") == Get(split, "owner", "") + "/" + Get(split, "repo", "")
    ensures Github(split) == Github(joined)
  {
    var owner, repository := Get(split, "owner", ""), Get(joined, "repository", "");
    assert repository[|owner|] == '/';
  }

  /** Two calls that give owner and repo refer to the same entities exactly when they give the same ones. */
  lemma RepoIsIdentified(a: ToolInput, b: ToolInput)
    requires Get(a, "owner", "") != "" && Get(a, "repo", "") != "" && '/' !in Get(a, "owner", "")
    requires Get(b, "owner", "") != "" && Get(b, "repo", "") != "" && '/' !in Get(b, "owner", "")
    ensures
      Github(a) == Github(b) <==> Get(a, "owner", "") == Get(b, "owner", "") && Get(a, "repo", "") == Get(b, "repo", "")
  {
    if Github(a) == Github(b) {
      assert Github(a)[1].identifier == Github(b)[1].identifier;
      CutAt('/', Get(a, "owner", ""), Get(a, "repo", ""), Get(b, "owner", ""), Get(b, "repo", ""));
    }
  }

  /** Slack calls refer to the same entities exactly when they name the same channel, or none. */
  lemma ChannelIsIdentified(a: ToolInput, b: ToolInput)
    ensures Slack(a) == Slack(b) <==> Get(a, "channel", "") == Get(b, "channel", "")
  {
    if Slack(a) == Slack(b) && |Slack(a)| == 2 { assert Slack(a)[1].identifier == Slack(b)[1].identifier; }
    if |Slack(a)| == 2 || |Slack(b)| == 2 { assert |Slack(a)| != |Slack(b)| ==> Slack(a) != Slack(b); }
  }

  // ------------------------------------------ exactly which entities a call yields

  /** The input gives this value, not the empty one, for the key. */
  predicate Gives(input: ToolInput, key: string, value: string) {
    key in input && input[key] == value && value != ""
  }

  /** The prefixes of the providers exclude one another, and the built-in tools. */
  lemma OneFamily(tool: string)
    ensures "mcp__" <= tool ==> tool !in {"Read", "Edit", "Write", "Glob", "Grep", "Bash", "Agent"}
    ensures "mcp__github__" <= tool ==> !("mcp__memory__" <= tool) && "mcp__" <= tool
    ensures "mcp__slack__" <= tool ==> !("mcp__memory__" <= tool) && !("mcp__github__" <= tool) && "mcp__" <= tool
    ensures "mcp__slack__" <= tool ==> !("mcp__jira__" <= tool)
  {
    if "mcp__" <= tool { assert tool[0] == 'm'; }
    if "mcp__github__" <= tool { assert tool[5] == 'g'; }
    if "mcp__slack__" <= tool { assert tool[5] == 's'; }
  }

  /** A file is written by Edit and Write alone, and it is the one under `file_path`. */
  lemma WrittenFiles(tool: string, input: ToolInput, path: string)
    ensures
      Entity("file", path, Wrote) in ExtractEntities(tool, input) <==>
      tool in {"Edit", "Write"} && Gives(input, "file_path", path)
  {
    OneFamily(tool);
  }

  /** And read by Read under `file_path`, by Glob and Grep under `path`. */
  lemma ReadFiles(tool: string, input: ToolInput, path: string)
    ensures
      Entity("file", path, EdgeType.Read) in ExtractEntities(tool, input) <==>
      || (tool == "Read" && Gives(input, "file_path", path))
      || (tool in {"Glob", "Grep"} && Gives(input, "path", path))
  {
    OneFamily(tool);
  }

  /** Agent calls name their subagent, or the unknown one; Bash names nothing. */
  lemma SubagentsCalled(tool: string, input: ToolInput, name: string)
    ensures
      Entity("subagent", name, Called) in ExtractEntities(tool, input) <==>
      tool == "Agent" && (if "subagent_type" in input then input["subagent_type"] == name else name == "unknown")
    ensures ExtractEntities("Bash", input) == []
  {
    OneFamily(tool);
  }

  /** Slack calls name the channel they are given. */
  lemma ChannelsCalled(tool: string, input: ToolInput, channel: string)
    ensures
      Entity("channel", channel, Called) in ExtractEntities(tool, input) <==>
      "mcp__slack__" <= tool && Gives(input, "channel", channel)
  {
    OneFamily(tool);
  }

  /** GitHub calls name owner and repository when both are given, else the combined key, if it has a slash. */
  lemma ReposTargeted(tool: string, input: ToolInput, name: string)
    ensures
      Entity("repo", name, Targeted) in ExtractEntities(tool, input) <==>
      && "mcp__github__" <= tool
      && if "owner" in input && input["owner"] != "" && "repo" in input && input["repo"] != ""
         then name == input["owner"] + "/" + input["repo"]
         else Gives(input, "repository", name) && '/' in name
  {
    OneFamily(tool);
  }

  /** MCP calls outside the memory tools name their provider; nothing else names an API. */
  lemma ApisCalled(tool: string, input: ToolInput, api: string)
    ensures
      Entity("api", api, Called) in ExtractEntities(tool, input) <==>
      "mcp__" <= tool && !("mcp__memory__" <= tool) && api == Provider(tool)
  {
    OneFamily(tool);
    if "mcp__" <= tool && !("mcp__memory__" <= tool) {
      ApiIsTheProvider(tool, input);
      assert ExtractEntities(tool, input) == ExtractMcp(tool, input);
      assert ExtractMcp(tool, input)[0] == Entity("api", Provider(tool), Called);
    }
  }

  /** There are no other entities, and none occurs twice. */
  lemma NothingElse(tool: string, input: ToolInput, e: Entity)
    requires e in ExtractEntities(tool, input)
    ensures
      || (e.kind == "file" && (e.edge == Wrote || e.edge == EdgeType.Read))
      || (e.kind == "repo" && e.edge == Targeted)
      || (e.kind in {"subagent", "channel", "api"} && e.edge == Called)
    ensures multiset(ExtractEntities(tool, input))[e] == 1
  {
    var es := ExtractEntities(tool, input);
    var i :| 0 <= i < |es| && es[i] == e;
    assert es == [es[0]] || es == [es[0], es[1]];
  }
}

/**
 The memory graph, written node by node and edge by edge while any number of agents
 work, as an exact index of the log of their tool calls. Every write is a transaction
 of its own; between two of them the writes of other calls may land.
 */
module MemoryGraph {
  import opened Common
  import opened MemoryEntities

  datatype Node =
    | TaskNode(taskId: string, userId: int, description: string, attempt: nat, status: string, createdAt: nat)
    | ActionNode(tool: string, toolUseId: string, isError: Option<bool>)
    | EntityNode(kind: string, identifier: string)

  datatype Edge = Edge(source: nat, target: nat, kind: EdgeType, weight: nat)

  /** What was linked for one extracted entity: the entity and the id of its node. */
  datatype Link = Link(entity: Entity, id: nat)

  /** How the writes for one entity went: a lost race is an insert that met the unique index. */
  datatype Fault = NoFault | UpsertFails | LostRace | EdgeFails

  /**
   Where the recording of a call stands: before the SELECT for its next entity, between
   a SELECT that found nothing and the INSERT, or before the edge to the node it got.
   */
  datatype Point = Lookup | Insert | LinkTo(id: nat)

  /** One recorded tool call: what it refers to, how its writes went so far, and what it linked. */
  datatype Call = Call(task: nat, action: nat, tool: string, entities: seq<Entity>, faults: seq<Fault>,
    links: seq<Link>, at: Point)

  /** Every entity of the call has been dealt with. */
  predicate Done(c: Call) {
    |c.faults| >= |c.entities|
  }

  function Current(c: Call): Entity
    requires !Done(c)
  {
    c.entities[|c.faults|]
  }

  function NodeOf(e: Entity): Node {
    EntityNode(e.kind, e.identifier)
  }

  /** The entities, as far as they were dealt with, whose writes succeeded. */
  function Surviving(entities: seq<Entity>, faults: seq<Fault>): seq<Entity>
    requires |faults| <= |entities|
  {
    if faults == [] then []
    else
      var n := |faults| - 1;
      Surviving(entities, faults[..n]) + if faults[n].NoFault? then [entities[n]] else []
  }

  function EntitiesOf(links: seq<Link>): seq<Entity> {
    seq(|links|, i requires 0 <= i < |links| => links[i].entity)
  }

  // ------------------------------------------------------ the two tables and their SQL

  /** `SELECT id ... WHERE node_type = 'entity'` for one kind and identifier. */
  function FindEntity(nodes: seq<Node>, kind: string, identifier: string): (found: Option<nat>)
    ensures found.Some? ==> found.value < |nodes| && nodes[found.value] == EntityNode(kind, identifier)
    ensures found.None? ==> EntityNode(kind, identifier) !in nodes
  {
    if nodes == [] then None
    else
      var n := |nodes| - 1;
      if nodes[n] == EntityNode(kind, identifier) then Some(n) else FindEntity(nodes[..n], kind, identifier)
  }

  function FindEdge(edges: seq<Edge>, source: nat, target: nat, kind: EdgeType): (found: Option<nat>)
    ensures found.Some? ==>
      found.value < |edges|
      && var e := edges[found.value]; e.source == source && e.target == target && e.kind == kind
    ensures found.None? ==> forall e | e in edges :: !(e.source == source && e.target == target && e.kind == kind)
  {
    if edges == [] then None
    else
      var n := |edges| - 1;
      if edges[n].source == source && edges[n].target == target && edges[n].kind == kind then Some(n)
      else FindEdge(edges[..n], source, target, kind)
  }

  /** `INSERT ... ON CONFLICT DO UPDATE SET weight = weight + 1`. */
  function UpsertEdge(edges: seq<Edge>, source: nat, target: nat, kind: EdgeType): seq<Edge> {
    var found := FindEdge(edges, source, target, kind);
    if found.None? then edges + [Edge(source, target, kind, 1)]
    else edges[found.value := edges[found.value].(weight := edges[found.value].weight + 1)]
  }

  predicate Joins(e: Edge, source: nat, target: nat, kind: EdgeType) {
    e.source == source && e.target == target && e.kind == kind
  }

  /** `ON CONFLICT`: an edge that is there already gains one in weight, and a new one weighs one. */
  lemma RepeatedEdgeGainsWeight(edges: seq<Edge>, source: nat, target: nat, kind: EdgeType)
    ensures
      var after := UpsertEdge(edges, source, target, kind);
      if forall e | e in edges :: !Joins(e, source, target, kind) then
        after == edges + [Edge(source, target, kind, 1)]
      else
        && |after| == |edges|
        && exists k | 0 <= k < |edges| :: Joins(edges[k], source, target, kind)
             && after == edges[k := edges[k].(weight := edges[k].weight + 1)]
  {
    var found := FindEdge(edges, source, target, kind);
    if found.Some? { assert Joins(edges[found.value], source, target, kind); }
  }

  // -------------------------------------------------- the transactions of all writers

  /** The tables, and every call whose action node was written. */
  datatype State = State(nodes: seq<Node>, edges: seq<Edge>, log: seq<Call>)

  /** `ok` says whether the transaction, or the rest of it, succeeds. */
  datatype Action =
    | NewTask(taskId: string, userId: int, description: string, attempt: nat, now: nat)
    | FinishTask(id: nat, status: string)
    | Patch(toolUseId: string, isError: bool)
    | Record(task: nat, tool: string, toolUseId: string, input: ToolInput)
    | Advance(call: nat, ok: bool)

  const EMPTY := State([], [], [])

  function Patched(n: Node, toolUseId: string, isError: bool): Node {
    if n.ActionNode? && n.toolUseId == toolUseId then n.(isError := Some(isError)) else n
  }

  function PatchedAll(nodes: seq<Node>, toolUseId: string, isError: bool): seq<Node> {
    seq(|nodes|, n requires 0 <= n < |nodes| => Patched(nodes[n], toolUseId, isError))
  }

  function Finished(nodes: seq<Node>, id: nat, status: string): seq<Node> {
    if id < |nodes| && nodes[id].TaskNode? then nodes[id := nodes[id].(status := status)] else nodes
  }

  predicate IsTask(nodes: seq<Node>, task: nat) {
    task < |nodes| && nodes[task].TaskNode?
  }

  /** The action node and the edge from its task, in one transaction. */
  function RecordStep(s: State, task: nat, tool: string, toolUseId: string, input: ToolInput): State {
    State(s.nodes + [ActionNode(tool, toolUseId, None)],
          UpsertEdge(s.edges, task, |s.nodes|, Executed),
          s.log + [Call(task, |s.nodes|, tool, ExtractEntities(tool, input), [], [], Lookup)])
  }

  /** The entity is given up or done with; the next one is looked up. */
  function Settled(c: Call, fault: Fault): Call {
    c.(faults := c.faults + [fault], at := Lookup)
  }

  function SetCall(s: State, i: nat, c: Call): State
    requires i < |s.log|
  {
    s.(log := s.log[i := c])
  }

  /** The SELECT of `upsert_entity`. */
  function SelectStep(s: State, i: nat, ok: bool): State
    requires i < |s.log| && !Done(s.log[i])
  {
    var c := s.log[i];
    var found := FindEntity(s.nodes, Current(c).kind, Current(c).identifier);
    var next := if found.Some? then LinkTo(found.value) else Insert;
    SetCall(s, i, if !ok then Settled(c, UpsertFails) else c.(at := next))
  }

  /** Its INSERT, which the unique index on entity identity refuses when somebody else was faster. */
  function InsertStep(s: State, i: nat, ok: bool): State
    requires i < |s.log| && !Done(s.log[i])
  {
    var c := s.log[i];
    if !ok then SetCall(s, i, Settled(c, UpsertFails))
    else if NodeOf(Current(c)) in s.nodes then SetCall(s, i, Settled(c, LostRace))
    else SetCall(s, i, c.(at := LinkTo(|s.nodes|))).(nodes := s.nodes + [NodeOf(Current(c))])
  }

  /** The edge from the action to the node. */
  function EdgeStep(s: State, i: nat, id: nat, ok: bool): State
    requires i < |s.log| && !Done(s.log[i])
  {
    var c := s.log[i];
    if !ok then SetCall(s, i, Settled(c, EdgeFails))
    else
      SetCall(s, i, Settled(c, NoFault).(links := c.links + [Link(Current(c), id)])).
      (edges := UpsertEdge(s.edges, c.action, id, Current(c).edge))
  }

  function AdvanceStep(s: State, i: nat, ok: bool): State
    requires i < |s.log| && !Done(s.log[i])
  {
    match s.log[i].at
    case Lookup => SelectStep(s, i, ok)
    case Insert => InsertStep(s, i, ok)
    case LinkTo(id) => EdgeStep(s, i, id, ok)
  }

  function Step(s: State, a: Action): State {
    match a
    case NewTask(taskId, userId, description, attempt, now) =>
      s.(nodes := s.nodes + [TaskNode(taskId, userId, description, attempt, "running", now)])
    case FinishTask(id, status) => s.(nodes := Finished(s.nodes, id, status))
    case Patch(toolUseId, isError) => s.(nodes := PatchedAll(s.nodes, toolUseId, isError))
    case Record(task, tool, toolUseId, input) =>
      if IsTask(s.nodes, task) then RecordStep(s, task, tool, toolUseId, input) else s
    case Advance(i, ok) => if i < |s.log| && !Done(s.log[i]) then AdvanceStep(s, i, ok) else s
  }

  function Play(s: State, schedule: seq<Action>): State {
    if schedule == [] then s
    else Step(Play(s, schedule[..|schedule| - 1]), schedule[|schedule| - 1])
  }

  // ------------------------------------------------------------- the graph as an index

  function LinkEdges(action: nat, links: seq<Link>): seq<Edge> {
    if links == [] then []
    else
      var last := links[|links| - 1];
      LinkEdges(action, links[..|links| - 1]) + [Edge(action, last.id, last.entity.edge, 1)]
  }

  function CallEdges(c: Call): seq<Edge> {
    [Edge(c.task, c.action, Executed, 1)] + LinkEdges(c.action, c.links)
  }

  function EdgesOf(log: seq<Call>): seq<Edge> {
    if log == [] then [] else EdgesOf(log[..|log| - 1]) + CallEdges(log[|log| - 1])
  }

  predicate LinkOk(nodes: seq<Node>, l: Link) {
    l.id < |nodes| && nodes[l.id] == NodeOf(l.entity) && l.entity.edge != Executed
  }

  predicate CallOk(nodes: seq<Node>, c: Call) {
    && IsTask(nodes, c.task)
    && c.action < |nodes| && nodes[c.action].ActionNode? && nodes[c.action].tool == c.tool
    && (forall l | l in c.links :: LinkOk(nodes, l))
  }

  predicate OwnActions(log: seq<Call>) {
    forall i, j :: 0 <= i < j < |log| ==> log[i].action != log[j].action
  }

  predicate OneNodeEach(nodes: seq<Node>) {
    forall m, n :: 0 <= m < n < |nodes| && nodes[m].EntityNode? ==> nodes[m] != nodes[n]
  }

  /**
   The edge table holds exactly the edges the log of calls dictates, in some order;
   every call has its own action node; no entity has two nodes.
   */
  ghost predicate Index(nodes: seq<Node>, edges: seq<Edge>, log: seq<Call>) {
    && multiset(edges) == multiset(EdgesOf(log))
    && (forall i :: 0 <= i < |log| ==> CallOk(nodes, log[i]))
    && OwnActions(log)
    && OneNodeEach(nodes)
  }

  /** The links of a call are those of its entities whose writes succeeded; what it is about to link exists. */
  predicate ProgressOk(nodes: seq<Node>, c: Call) {
    && Tidy(c.entities) && |c.faults| <= |c.entities|
    && EntitiesOf(c.links) == Surviving(c.entities, c.faults)
    && (c.at != Lookup ==> !Done(c))
    && (c.at.LinkTo? ==> c.at.id < |nodes| && nodes[c.at.id] == NodeOf(Current(c)))
  }

  ghost predicate Inv(s: State) {
    && Index(s.nodes, s.edges, s.log)
    && forall i :: 0 <= i < |s.log| ==> ProgressOk(s.nodes, s.log[i])
  }

  lemma {:induction false} LinkEdgesFrom(action: nat, links: seq<Link>)
    ensures |LinkEdges(action, links)| == |links|
    ensures
      forall i :: 0 <= i < |links| ==> LinkEdges(action, links)[i] == Edge(action, links[i].id, links[i].entity.edge, 1)
  {
    if links != [] { LinkEdgesFrom(action, links[..|links| - 1]); }
  }

  /** Every edge of the log is the `executed` edge of a call or the edge of one of its links. */
  lemma {:induction false} EdgeOrigin(log: seq<Call>, e: Edge) returns (i: nat)
    requires e in EdgesOf(log)
    ensures i < |log|
    ensures e == Edge(log[i].task, log[i].action, Executed, 1)
         || exists l :: l in log[i].links && e == Edge(log[i].action, l.id, l.entity.edge, 1)
  {
    var n := |log| - 1;
    if e in EdgesOf(log[..n]) {
      i := EdgeOrigin(log[..n], e);
    } else {
      i := n;
      LinkEdgesFrom(log[n].action, log[n].links);
      if e != Edge(log[n].task, log[n].action, Executed, 1) {
        assert e in LinkEdges(log[n].action, log[n].links);
        var k :| 0 <= k < |log[n].links| && LinkEdges(log[n].action, log[n].links)[k] == e;
        assert log[n].links[k] in log[n].links;
      }
    }
  }

  lemma SameEdges(edges: seq<Edge>, log: seq<Call>)
    requires multiset(edges) == multiset(EdgesOf(log))
    ensures forall e :: e in edges <==> e in EdgesOf(log)
  {
    assert forall e :: e in edges <==> e in multiset(edges);
    assert forall e :: e in EdgesOf(log) <==> e in multiset(EdgesOf(log));
  }

  // --------------------------------------------------------- what keeps the index

  /** Nothing that the index or a call relies on goes away. */
  predicate Grown(nodes: seq<Node>, nodes': seq<Node>) {
    && |nodes| <= |nodes'|
    && forall n :: 0 <= n < |nodes| ==>
         && (nodes[n].EntityNode? ==> nodes'[n] == nodes[n])
         && (nodes[n].TaskNode? ==> nodes'[n].TaskNode?)
         && (nodes[n].ActionNode? ==> nodes'[n].ActionNode? && nodes'[n].tool == nodes[n].tool)
  }

  lemma NodesGrow(nodes: seq<Node>, nodes': seq<Node>, edges: seq<Edge>, log: seq<Call>)
    requires Index(nodes, edges, log) && Grown(nodes, nodes') && OneNodeEach(nodes')
    ensures Index(nodes', edges, log)
    ensures forall i :: 0 <= i < |log| && ProgressOk(nodes, log[i]) ==> ProgressOk(nodes', log[i])
  {
    forall i | 0 <= i < |log|
      ensures CallOk(nodes', log[i])
    {
      assert CallOk(nodes, log[i]);
      forall l | l in log[i].links
        ensures LinkOk(nodes', l)
      {
        assert LinkOk(nodes, l);
      }
    }
  }

  /** A new node disturbs nothing, as long as it is not a second copy of an entity. */
  lemma NodeAdded(nodes: seq<Node>, edges: seq<Edge>, log: seq<Call>, node: Node)
    requires Index(nodes, edges, log)
    requires node.EntityNode? ==> node !in nodes
    ensures Index(nodes + [node], edges, log)
    ensures forall i :: 0 <= i < |log| && ProgressOk(nodes, log[i]) ==> ProgressOk(nodes + [node], log[i])
  {
    NodesGrow(nodes, nodes + [node], edges, log);
  }

  /** No edge of the table ends in a node that is not there. */
  lemma TargetsExist(nodes: seq<Node>, edges: seq<Edge>, log: seq<Call>, e: Edge)
    requires Index(nodes, edges, log) && e in edges
    ensures e.target < |nodes|
  {
    SameEdges(edges, log);
    var i := EdgeOrigin(log, e);
    assert CallOk(nodes, log[i]);
  }

  lemma EdgesOfNext(before: seq<Call>, c: Call)
    ensures
      EdgesOf(before + [c]) == EdgesOf(before) + [Edge(c.task, c.action, Executed, 1)] + LinkEdges(c.action, c.links)
  {
    assert (before + [c])[..|before|] == before;
  }

  lemma CallAppended(nodes: seq<Node>, edges: seq<Edge>, log: seq<Call>, c: Call)
    requires Index(nodes, edges, log) && CallOk(nodes, c) && c.links == []
    requires forall d | d in log :: d.action != c.action
    ensures Index(nodes, edges + [Edge(c.task, c.action, Executed, 1)], log + [c])
  {
    EdgesOfNext(log, c);
    assert EdgesOf(log + [c]) == EdgesOf(log) + [Edge(c.task, c.action, Executed, 1)];
  }

  /** The `executed` edge of a new action is always inserted afresh. */
  lemma CallAdded(nodes: seq<Node>, edges: seq<Edge>, log: seq<Call>, node: Node, c: Call)
    requires Index(nodes, edges, log)
    requires IsTask(nodes, c.task) && node.ActionNode? && c.tool == node.tool && c.action == |nodes| && c.links == []
    ensures UpsertEdge(edges, c.task, c.action, Executed) == edges + [Edge(c.task, c.action, Executed, 1)]
    ensures Index(nodes + [node], edges + [Edge(c.task, c.action, Executed, 1)], log + [c])
  {
    forall e | e in edges
      ensures e.target != c.action
    {
      TargetsExist(nodes, edges, log, e);
    }
    NodeAdded(nodes, edges, log, node);
    forall d | d in log
      ensures d.action != c.action
    {
      var j :| 0 <= j < |log| && log[j] == d;
      assert CallOk(nodes, log[j]);
    }
    CallAppended(nodes + [node], edges, log, c);
  }

  /** Progress that changes neither ends nor links of a call changes no edge. */
  lemma {:induction false} EdgesStay(log: seq<Call>, i: nat, c: Call)
    requires i < |log| && c.task == log[i].task && c.action == log[i].action && c.links == log[i].links
    ensures EdgesOf(log[i := c]) == EdgesOf(log)
  {
    var n := |log| - 1;
    if i < n {
      assert log[i := c][..n] == log[..n][i := c];
      EdgesStay(log[..n], i, c);
    } else {
      assert log[i := c][..n] == log[..n];
    }
  }

  /** Another record of the same call fits in its place. */
  lemma CallReplaced(nodes: seq<Node>, log: seq<Call>, i: nat, c: Call, log': seq<Call>)
    requires i < |log| && c.action == log[i].action && CallOk(nodes, c) && log' == log[i := c]
    requires OwnActions(log) && forall j :: 0 <= j < |log| ==> CallOk(nodes, log[j])
    ensures OwnActions(log') && forall j :: 0 <= j < |log'| ==> CallOk(nodes, log'[j])
  {
    assert forall j :: 0 <= j < |log| ==> log'[j].action == log[j].action;
  }

  lemma CallTouched(nodes: seq<Node>, edges: seq<Edge>, log: seq<Call>, i: nat, c: Call)
    requires Index(nodes, edges, log) && i < |log|
    requires c.task == log[i].task && c.action == log[i].action && c.tool == log[i].tool && c.links == log[i].links
    ensures Index(nodes, edges, log[i := c])
  {
    EdgesStay(log, i, c);
    assert CallOk(nodes, log[i]);
    CallReplaced(nodes, log, i, c, log[i := c]);
  }

  /** The edges of a log as a table without an order. */
  ghost function Table(log: seq<Call>): multiset<Edge> {
    multiset(EdgesOf(log))
  }

  lemma TableNext(before: seq<Call>, c: Call)
    ensures Table(before + [c]) == Table(before) + multiset(CallEdges(c))
  {
    assert (before + [c])[..|before|] == before;
  }

  lemma CallGrows(old': Call, c: Call, l: Link)
    requires c.task == old'.task && c.action == old'.action && c.links == old'.links + [l]
    ensures multiset(CallEdges(c)) == multiset(CallEdges(old')) + multiset{Edge(c.action, l.id, l.entity.edge, 1)}
  {
    assert c.links[..|old'.links|] == old'.links;
    assert CallEdges(c) == CallEdges(old') + [Edge(c.action, l.id, l.entity.edge, 1)];
  }

  /** One more link of any call of the log is one more edge. */
  lemma {:induction false} LinkGrows(log: seq<Call>, i: nat, c: Call, l: Link)
    requires i < |log| && c.task == log[i].task && c.action == log[i].action && c.links == log[i].links + [l]
    ensures Table(log[i := c]) == Table(log) + multiset{Edge(c.action, l.id, l.entity.edge, 1)}
  {
    var front, last := log[..|log| - 1], log[|log| - 1];
    var e := Edge(c.action, l.id, l.entity.edge, 1);
    assert log == front + [last];
    if i < |front| {
      var front' := front[i := c];
      assert log[i := c] == front' + [last];
      LinkGrows(front, i, c, l);
      OneMoreInFront(front, front', last, e);
    } else {
      assert log[i := c] == front + [c];
      OneMoreAtTheEnd(front, last, c, l);
    }
  }

  lemma OneMoreInFront(front: seq<Call>, front': seq<Call>, last: Call, e: Edge)
    requires Table(front') == Table(front) + multiset{e}
    ensures Table(front' + [last]) == Table(front + [last]) + multiset{e}
  {
    TableNext(front, last);
    TableNext(front', last);
  }

  lemma OneMoreAtTheEnd(front: seq<Call>, old': Call, c: Call, l: Link)
    requires c.task == old'.task && c.action == old'.action && c.links == old'.links + [l]
    ensures Table(front + [c]) == Table(front + [old']) + multiset{Edge(c.action, l.id, l.entity.edge, 1)}
  {
    TableNext(front, old');
    TableNext(front, c);
    CallGrows(old', c, l);
  }

  /** A call has no edge yet to a node of a kind it has not linked. */
  lemma EdgeIsNew(nodes: seq<Node>, edges: seq<Edge>, log: seq<Call>, i: nat, l: Link)
    requires Index(nodes, edges, log) && i < |log| && LinkOk(nodes, l)
    requires forall k | k in log[i].links :: k.entity.kind != l.entity.kind
    ensures
      UpsertEdge(edges, log[i].action, l.id, l.entity.edge) == edges + [Edge(log[i].action, l.id, l.entity.edge, 1)]
  {
    SameEdges(edges, log);
    forall e | e in edges
      ensures !(e.source == log[i].action && e.target == l.id && e.kind == l.entity.edge)
    {
      var j := EdgeOrigin(log, e);
      assert CallOk(nodes, log[j]) && CallOk(nodes, log[i]);
      assert i != j ==> log[i].action != log[j].action;
    }
  }

  /**
   One more link of any call, whatever other calls have written since: its edge is
   new, so it is inserted with weight 1, and the table stays the index of the log.
   */
  lemma LinkAdded(nodes: seq<Node>, edges: seq<Edge>, log: seq<Call>, i: nat, c: Call, l: Link)
    requires Index(nodes, edges, log) && i < |log| && LinkOk(nodes, l)
    requires forall k | k in log[i].links :: k.entity.kind != l.entity.kind
    requires
      c.task == log[i].task && c.action == log[i].action && c.tool == log[i].tool && c.links == log[i].links + [l]
    ensures UpsertEdge(edges, c.action, l.id, l.entity.edge) == edges + [Edge(c.action, l.id, l.entity.edge, 1)]
    ensures Index(nodes, edges + [Edge(c.action, l.id, l.entity.edge, 1)], log[i := c])
  {
    EdgeIsNew(nodes, edges, log, i, l);
    LinkGrows(log, i, c, l);
    assert CallOk(nodes, log[i]);
    CallReplaced(nodes, log, i, c, log[i := c]);
  }

  // --------------------------------------------------------- what keeps the progress

  lemma {:induction false} SurvivingIsEarlier(entities: seq<Entity>, faults: seq<Fault>)
    requires |faults| <= |entities|
    ensures forall e | e in Surviving(entities, faults) :: e in entities[..|faults|]
  {
    if faults != [] {
      var n := |faults| - 1;
      SurvivingIsEarlier(entities, faults[..n]);
      assert entities[..n + 1] == entities[..n] + [entities[n]];
    }
  }

  /** What a call has linked differs in kind from what it links next. */
  lemma NextKindIsNew(nodes: seq<Node>, c: Call)
    requires ProgressOk(nodes, c) && !Done(c)
    ensures forall k | k in c.links :: k.entity.kind != Current(c).kind
  {
    SurvivingIsEarlier(c.entities, c.faults);
    forall k | k in c.links
      ensures k.entity.kind != Current(c).kind
    {
      var j :| 0 <= j < |c.links| && c.links[j] == k;
      assert EntitiesOf(c.links)[j] == k.entity;
      assert k.entity in c.entities[..|c.faults|];
    }
  }

  lemma SettledOk(nodes: seq<Node>, c: Call, fault: Fault)
    requires ProgressOk(nodes, c) && !Done(c) && fault != NoFault
    ensures ProgressOk(nodes, Settled(c, fault))
  {
    assert (c.faults + [fault])[..|c.faults|] == c.faults;
  }

  lemma LinkedOk(nodes: seq<Node>, c: Call, id: nat)
    requires ProgressOk(nodes, c) && !Done(c)
    ensures ProgressOk(nodes, Settled(c, NoFault).(links := c.links + [Link(Current(c), id)]))
  {
    assert (c.faults + [NoFault])[..|c.faults|] == c.faults;
    assert EntitiesOf(c.links + [Link(Current(c), id)]) == EntitiesOf(c.links) + [Current(c)];
  }

  /** Progress of one call that writes nothing but that call. */
  lemma CallPut(s: State, i: nat, c: Call)
    requires Inv(s) && i < |s.log| && ProgressOk(s.nodes, c)
    requires
      c.task == s.log[i].task && c.action == s.log[i].action && c.tool == s.log[i].tool && c.links == s.log[i].links
    ensures Inv(SetCall(s, i, c))
  {
    CallTouched(s.nodes, s.edges, s.log, i, c);
  }

  lemma SelectKeepsInv(s: State, i: nat, ok: bool)
    requires Inv(s) && i < |s.log| && !Done(s.log[i])
    ensures Inv(SelectStep(s, i, ok))
  {
    SettledOk(s.nodes, s.log[i], UpsertFails);
    CallPut(s, i, SelectStep(s, i, ok).log[i]);
  }

  lemma InsertKeepsInv(s: State, i: nat, ok: bool)
    requires Inv(s) && i < |s.log| && !Done(s.log[i])
    ensures Inv(InsertStep(s, i, ok))
  {
    var c := s.log[i];
    if !ok {
      SettledOk(s.nodes, c, UpsertFails);
      CallPut(s, i, Settled(c, UpsertFails));
    } else if NodeOf(Current(c)) in s.nodes {
      SettledOk(s.nodes, c, LostRace);
      CallPut(s, i, Settled(c, LostRace));
    } else {
      NodeAdded(s.nodes, s.edges, s.log, NodeOf(Current(c)));
      CallPut(s.(nodes := s.nodes + [NodeOf(Current(c))]), i, c.(at := LinkTo(|s.nodes|)));
    }
  }

  lemma EdgeKeepsInv(s: State, i: nat, ok: bool)
    requires Inv(s) && i < |s.log| && !Done(s.log[i]) && s.log[i].at.LinkTo?
    ensures Inv(EdgeStep(s, i, s.log[i].at.id, ok))
  {
    var c := s.log[i];
    if !ok {
      SettledOk(s.nodes, c, EdgeFails);
      CallPut(s, i, Settled(c, EdgeFails));
    } else {
      var l := Link(Current(c), c.at.id);
      var c' := Settled(c, NoFault).(links := c.links + [l]);
      assert EdgeFits(Current(c));
      NextKindIsNew(s.nodes, c);
      LinkedOk(s.nodes, c, c.at.id);
      LinkAdded(s.nodes, s.edges, s.log, i, c', l);
    }
  }

  lemma RecordKeepsInv(s: State, task: nat, tool: string, toolUseId: string, input: ToolInput)
    requires Inv(s) && IsTask(s.nodes, task)
    ensures Inv(RecordStep(s, task, tool, toolUseId, input))
  {
    FreshCallKeepsInv(s, ActionNode(tool, toolUseId, None), task, tool, ExtractEntities(tool, input));
  }

  /** A new node leaves the progress of all calls as it was, and the new call has none yet. */
  lemma FreshProgress(nodes: seq<Node>, log: seq<Call>, node: Node, c: Call)
    requires forall i :: 0 <= i < |log| ==> ProgressOk(nodes, log[i])
    requires Tidy(c.entities) && c.faults == [] && c.links == [] && c.at == Lookup
    ensures forall i :: 0 <= i < |log + [c]| ==> ProgressOk(nodes + [node], (log + [c])[i])
  {
    forall i | 0 <= i < |log + [c]|
      ensures ProgressOk(nodes + [node], (log + [c])[i])
    {
      if i < |log| {
        assert (log + [c])[i] == log[i] && ProgressOk(nodes, log[i]);
      } else {
        assert (log + [c])[i] == c;
      }
    }
  }

  lemma FreshCallKeepsInv(s: State, node: Node, task: nat, tool: string, entities: seq<Entity>)
    requires Inv(s) && IsTask(s.nodes, task) && node.ActionNode? && node.tool == tool && Tidy(entities)
    ensures
      var c := Call(task, |s.nodes|, tool, entities, [], [], Lookup);
      Inv(State(s.nodes + [node], UpsertEdge(s.edges, task, |s.nodes|, Executed), s.log + [c]))
  {
    var c := Call(task, |s.nodes|, tool, entities, [], [], Lookup);
    var edges := UpsertEdge(s.edges, task, |s.nodes|, Executed);
    assert Index(s.nodes + [node], edges, s.log + [c]) by { CallAdded(s.nodes, s.edges, s.log, node, c); }
    FreshProgress(s.nodes, s.log, node, c);
    InvOf(s.nodes + [node], edges, s.log + [c]);
  }

  lemma InvOf(nodes: seq<Node>, edges: seq<Edge>, log: seq<Call>)
    requires Index(nodes, edges, log) && forall i :: 0 <= i < |log| ==> ProgressOk(nodes, log[i])
    ensures Inv(State(nodes, edges, log))
  {
  }

  /** Writing task nodes, and properties that identify neither actions nor entities. */
  lemma NodesKeepInv(s: State, nodes': seq<Node>)
    requires Inv(s) && Grown(s.nodes, nodes') && OneNodeEach(nodes')
    ensures Inv(s.(nodes := nodes'))
  {
    NodesGrow(s.nodes, nodes', s.edges, s.log);
  }

  lemma FinishedGrows(nodes: seq<Node>, id: nat, status: string)
    requires OneNodeEach(nodes)
    ensures Grown(nodes, Finished(nodes, id, status)) && OneNodeEach(Finished(nodes, id, status))
  {
  }

  lemma PatchedGrows(nodes: seq<Node>, toolUseId: string, isError: bool)
    requires OneNodeEach(nodes)
    ensures Grown(nodes, PatchedAll(nodes, toolUseId, isError)) && OneNodeEach(PatchedAll(nodes, toolUseId, isError))
  {
    var nodes' := PatchedAll(nodes, toolUseId, isError);
    assert forall n :: 0 <= n < |nodes| && nodes'[n].EntityNode? ==> nodes'[n] == nodes[n];
  }

  lemma TaskKeepsInv(s: State, node: Node)
    requires Inv(s) && node.TaskNode?
    ensures Inv(s.(nodes := s.nodes + [node]))
  {
    NodesKeepInv(s, s.nodes + [node]);
  }

  lemma FinishKeepsInv(s: State, id: nat, status: string)
    requires Inv(s)
    ensures Inv(s.(nodes := Finished(s.nodes, id, status)))
  {
    FinishedGrows(s.nodes, id, status);
    NodesKeepInv(s, Finished(s.nodes, id, status));
  }

  lemma PatchKeepsInv(s: State, toolUseId: string, isError: bool)
    requires Inv(s)
    ensures Inv(s.(nodes := PatchedAll(s.nodes, toolUseId, isError)))
  {
    PatchedGrows(s.nodes, toolUseId, isError);
    NodesKeepInv(s, PatchedAll(s.nodes, toolUseId, isError));
  }

  lemma AdvanceKeepsInv(s: State, i: nat, ok: bool)
    requires Inv(s) && i < |s.log| && !Done(s.log[i])
    ensures Inv(AdvanceStep(s, i, ok))
  {
    match s.log[i].at
    case Lookup => SelectKeepsInv(s, i, ok);
    case Insert => InsertKeepsInv(s, i, ok);
    case LinkTo(_) => EdgeKeepsInv(s, i, ok);
  }

  lemma NodeStepKeepsInv(s: State, a: Action)
    requires Inv(s) && (a.NewTask? || a.FinishTask? || a.Patch?)
    ensures Inv(Step(s, a))
  {
    match a
    case NewTask(taskId, userId, description, attempt, now) =>
      TaskKeepsInv(s, TaskNode(taskId, userId, description, attempt, "running", now));
    case FinishTask(id, status) => FinishKeepsInv(s, id, status);
    case Patch(toolUseId, isError) => PatchKeepsInv(s, toolUseId, isError);
  }

  lemma RecordedKeepsInv(s: State, a: Action)
    requires Inv(s) && a.Record?
    ensures Inv(Step(s, a))
  {
    if IsTask(s.nodes, a.task) { RecordKeepsInv(s, a.task, a.tool, a.toolUseId, a.input); }
  }

  lemma AdvancedKeepsInv(s: State, a: Action)
    requires Inv(s) && a.Advance?
    ensures Inv(Step(s, a))
  {
    if a.call < |s.log| && !Done(s.log[a.call]) {
      AdvanceKeepsInv(s, a.call, a.ok);
      assert Step(s, a) == AdvanceStep(s, a.call, a.ok);
    }
  }

  lemma StepKeepsInv(s: State, a: Action)
    requires Inv(s)
    ensures Inv(Step(s, a))
  {
    if a.Record? {
      RecordedKeepsInv(s, a);
    } else if a.Advance? {
      AdvancedKeepsInv(s, a);
    } else {
      NodeStepKeepsInv(s, a);
    }
  }

  lemma {:induction false} PlayKeepsInv(s: State, schedule: seq<Action>)
    requires Inv(s)
    ensures Inv(Play(s, schedule))
  {
    if schedule != [] {
      PlayKeepsInv(s, schedule[..|schedule| - 1]);
      StepKeepsInv(Play(s, schedule[..|schedule| - 1]), schedule[|schedule| - 1]);
    }
  }

  /**
   However the transactions of any number of writers interleave and fail, the edge table
   is the one the log dictates, up to order, each call has its own action, no entity has
   two nodes, and what a call is linked to is what of its entities was written.
   */
  lemma GraphIsTheIndex(schedule: seq<Action>)
    ensures
      var s := Play(EMPTY, schedule);
      && multiset(s.edges) == multiset(EdgesOf(s.log))
      && OwnActions(s.log)
      && OneNodeEach(s.nodes)
      && (forall c | c in s.log :: CallOk(s.nodes, c))
      && (forall c | c in s.log :: |c.faults| <= |c.entities| && EntitiesOf(c.links) == Surviving(c.entities, c.faults))
  {
    PlayKeepsInv(EMPTY, schedule);
  }

  // ------------------------------------------------------------------ the lost race

  /** The schedule leaves call `i` alone. */
  predicate Spares(schedule: seq<Action>, i: nat) {
    forall a | a in schedule && a.Advance? :: a.call != i
  }

  lemma SparedStep(s: State, a: Action, i: nat)
    requires i < |s.log| && (a.Advance? ==> a.call != i)
    ensures |s.log| <= |Step(s, a).log| && Step(s, a).log[i] == s.log[i]
  {
  }

  lemma {:induction false} SparedCallStays(s: State, schedule: seq<Action>, i: nat)
    requires i < |s.log| && Spares(schedule, i)
    ensures |s.log| <= |Play(s, schedule).log| && Play(s, schedule).log[i] == s.log[i]
  {
    if schedule != [] {
      var before := Play(s, schedule[..|schedule| - 1]);
      SparedCallStays(s, schedule[..|schedule| - 1], i);
      SparedStep(before, schedule[|schedule| - 1], i);
    }
  }

  /**
   Between its SELECT and its INSERT a call can be overtaken. With no transaction
   failing, the entity is lost exactly when the SELECT found no node and somebody else
   has inserted it before the INSERT; otherwise the call goes on to its edge.
   */
  lemma LostExactlyWhenOvertaken(s: State, i: nat, others: seq<Action>)
    requires i < |s.log| && !Done(s.log[i]) && s.log[i].at == Lookup && Spares(others, i)
    ensures
      var c := s.log[i];
      var node := NodeOf(Current(c));
      var seen := Step(s, Advance(i, true));
      var later := Play(seen, others);
      var t := if seen.log[i].at == Insert then Step(later, Advance(i, true)) else later;
      && i < |t.log|
      && (t.log[i] == Settled(c, LostRace) <==> node !in s.nodes && node in later.nodes)
      && (t.log[i] != Settled(c, LostRace) ==>
            t.log[i].at.LinkTo? && t.log[i] == c.(at := t.log[i].at) && (node !in s.nodes ==> node in t.nodes))
  {
    SparedCallStays(Step(s, Advance(i, true)), others, i);
  }

  /** Two calls name the same new entity at once: no transaction fails, and one of them links nothing. */
  lemma RaceLosesALink(s: State, i: nat, j: nat)
    requires i < |s.log| && j < |s.log| && i != j && !Done(s.log[i]) && !Done(s.log[j])
    requires s.log[i].at == Lookup && s.log[j].at == Lookup
    requires NodeOf(Current(s.log[i])) == NodeOf(Current(s.log[j])) && NodeOf(Current(s.log[i])) !in s.nodes
    ensures
      var both := SelectStep(SelectStep(s, i, true), j, true);
      var t := Step(Step(both, Advance(j, true)), Advance(i, true));
      && |t.log| == |s.log| && t.log[i] == Settled(s.log[i], LostRace)
      && t.log[j].at.LinkTo? && t.log[j] == s.log[j].(at := t.log[j].at)
  {
    var both := SelectStep(SelectStep(s, i, true), j, true);
    assert both.nodes == s.nodes && both.log[i] == s.log[i].(at := Insert) && both.log[j] == s.log[j].(at := Insert);
    var first := InsertStep(both, j, true);
    assert first.nodes == s.nodes + [NodeOf(Current(s.log[j]))] && first.log[i] == both.log[i];
    assert first.nodes[|s.nodes|] == NodeOf(Current(s.log[i]));
  }

  lemma Then(schedule: seq<Action>, a: Action) returns (longer: seq<Action>)
    ensures longer == schedule + [a]
    ensures Play(EMPTY, longer) == Step(Play(EMPTY, schedule), a)
  {
    longer := schedule + [a];
    assert longer[..|schedule|] == schedule;
  }

  /** No transaction fails by itself. */
  predicate AllSucceed(schedule: seq<Action>) {
    forall a | a in schedule && a.Advance? :: a.ok
  }

  /** A call of Read whose one entity has not been looked up. */
  predicate FreshRead(c: Call, path: string) {
    c.entities == [Entity("file", path, Read)] && c.faults == [] && c.links == [] && c.at == Lookup
  }

  lemma ReadIsRecorded(s: State, path: string, toolUseId: string)
    requires path != "" && IsTask(s.nodes, 0)
    ensures
      var t := Step(s, Record(0, "Read", toolUseId, map["file_path" := path]));
      && t.nodes == s.nodes + [ActionNode("Read", toolUseId, None)]
      && |t.log| == |s.log| + 1 && t.log[..|s.log|] == s.log && FreshRead(t.log[|s.log|], path)
  {
    assert "file_path" in map["file_path" := path];
    assert ExtractEntities("Read", map["file_path" := path]) == [Entity("file", path, Read)];
  }

  lemma TwoReads(path: string) returns (schedule: seq<Action>)
    requires path != ""
    ensures
      var s := Play(EMPTY, schedule);
      && |s.log| == 2 && FreshRead(s.log[0], path) && FreshRead(s.log[1], path)
      && NodeOf(Entity("file", path, Read)) !in s.nodes
    ensures AllSucceed(schedule)
  {
    schedule := Then([], NewTask("task", 0, "", 1, 0));
    assert Play(EMPTY, schedule).nodes == [TaskNode("task", 0, "", 1, "running", 0)];
    ReadIsRecorded(Play(EMPTY, schedule), path, "first");
    schedule := Then(schedule, Record(0, "Read", "first", map["file_path" := path]));
    ReadIsRecorded(Play(EMPTY, schedule), path, "second");
    schedule := Then(schedule, Record(0, "Read", "second", map["file_path" := path]));
    var s := Play(EMPTY, schedule);
    assert s.log[..1][0] == s.log[0];
  }

  /** And they do: two calls read one path, and both SELECTs come before either INSERT. */
  lemma RaceHappens(path: string) returns (schedule: seq<Action>)
    requires path != ""
    ensures AllSucceed(schedule)
    ensures
      var s := Play(EMPTY, schedule);
      && |s.log| == 2 && s.log[0].entities == s.log[1].entities == [Entity("file", path, Read)]
      && s.log[0].faults == [LostRace] && s.log[0].links == [] && s.log[1].at.LinkTo?
  {
    schedule := TwoReads(path);
    var s := Play(EMPTY, schedule);
    RaceLosesALink(s, 0, 1);
    schedule := Then(schedule, Advance(0, true));
    assert Play(EMPTY, schedule) == SelectStep(s, 0, true);
    schedule := Then(schedule, Advance(1, true));
    assert Play(EMPTY, schedule) == SelectStep(SelectStep(s, 0, true), 1, true);
    schedule := Then(schedule, Advance(1, true));
    schedule := Then(schedule, Advance(0, true));
  }

  // ---------------------------------------------------------- what steps achieve

  function Alone(i: nat, n: nat): seq<Action> {
    seq(n, k => Advance(i, true))
  }

  lemma AloneNext(s: State, i: nat, n: nat)
    ensures Play(s, Alone(i, n + 1)) == Step(Play(s, Alone(i, n)), Advance(i, true))
  {
    assert Alone(i, n + 1)[..n] == Alone(i, n);
  }

  /** The call has dealt with `n` more entities, and linked them all. */
  predicate Linked(before: Call, after: Call, n: nat) {
    && after == before.(faults := after.faults, links := after.links)
    && |after.faults| == |before.faults| + n && |after.links| == |before.links| + n
    && before.faults <= after.faults && before.links <= after.links
    && forall k | |before.faults| <= k < |after.faults| :: after.faults[k] == NoFault
  }

  lemma LinkedChains(a: Call, m: nat, b: Call, n: nat, c: Call)
    requires Linked(a, b, m) && Linked(b, c, n)
    ensures Linked(a, c, m + n)
  {
    assert forall k | 0 <= k < |b.faults| :: c.faults[k] == b.faults[k];
  }

  /** A call that nobody overtakes links its next entity, in two or three transactions. */
  lemma NextIsLinked(s: State, i: nat) returns (n: nat, end: State)
    requires i < |s.log| && !Done(s.log[i]) && s.log[i].at == Lookup
    ensures end == Play(s, Alone(i, n))
    ensures |end.log| == |s.log| && Linked(s.log[i], end.log[i], 1) && NodeOf(Current(s.log[i])) in end.nodes
  {
    var c := s.log[i];
    assert Alone(i, 0) == [];
    AloneNext(s, i, 0);
    var t := SelectStep(s, i, true);
    AloneNext(s, i, 1);
    if t.log[i].at == Insert {
      AloneNext(s, i, 2);
      n := 3;
      assert t.nodes == s.nodes && NodeOf(Current(c)) !in s.nodes;
      assert InsertStep(t, i, true).nodes[|s.nodes|] == NodeOf(Current(c));
    } else {
      n := 2;
    }
    end := Play(s, Alone(i, n));
  }

  lemma {:induction false} PlayConcat(s: State, first: seq<Action>, second: seq<Action>)
    ensures Play(s, first + second) == Play(Play(s, first), second)
  {
    if second == [] {
      assert first + second == first;
    } else {
      var n := |second| - 1;
      assert (first + second)[..|first| + n] == first + second[..n];
      PlayConcat(s, first, second[..n]);
    }
  }

  lemma AloneConcat(s: State, i: nat, m: nat, n: nat)
    ensures Play(s, Alone(i, m + n)) == Play(Play(s, Alone(i, m)), Alone(i, n))
  {
    assert Alone(i, m + n) == Alone(i, m) + Alone(i, n);
    PlayConcat(s, Alone(i, m), Alone(i, n));
  }

  /** And so any number of those that are left. */
  lemma {:induction false} NextAreLinked(s: State, i: nat, n: nat) returns (steps: nat, end: State)
    requires i < |s.log| && s.log[i].at == Lookup && |s.log[i].faults| + n <= |s.log[i].entities|
    ensures end == Play(s, Alone(i, steps))
    ensures |end.log| == |s.log| && Linked(s.log[i], end.log[i], n)
  {
    if n == 0 {
      steps, end := 0, s;
      assert Alone(i, 0) == [];
    } else {
      var before, t := NextAreLinked(s, i, n - 1);
      var last, u := NextIsLinked(t, i);
      AloneConcat(s, i, before, last);
      LinkedChains(s.log[i], n - 1, t.log[i], 1, u.log[i]);
      steps, end := before + last, u;
    }
  }

  /** With nobody in between, and nothing failing, a call is linked to everything it refers to. */
  lemma UndisturbedCallLinksAll(s: State, i: nat) returns (steps: nat)
    requires Inv(s) && i < |s.log| && s.log[i].at == Lookup && s.log[i].faults == []
    ensures
      var t := Play(s, Alone(i, steps));
      && |t.log| == |s.log| && Done(t.log[i]) && EntitiesOf(t.log[i].links) == s.log[i].entities
      && Inv(t)
  {
    assert ProgressOk(s.nodes, s.log[i]);
    var t;
    steps, t := NextAreLinked(s, i, |s.log[i].entities|);
    PlayKeepsInv(s, Alone(i, steps));
    assert ProgressOk(t.nodes, t.log[i]);
    NothingLost(t.log[i].entities, t.log[i].faults);
  }

  lemma {:induction false} NothingLost(entities: seq<Entity>, faults: seq<Fault>)
    requires |faults| <= |entities| && forall k | 0 <= k < |faults| :: faults[k] == NoFault
    ensures Surviving(entities, faults) == entities[..|faults|]
  {
    if faults != [] {
      var n := |faults| - 1;
      NothingLost(entities, faults[..n]);
      assert entities[..|faults|] == entities[..n] + [entities[n]];
    }
  }

  /** A recorded call gets a node of its own that can be found by its tool use id, and what it extracts to link. */
  lemma RecordedCallIsFresh(s: State, task: nat, tool: string, toolUseId: string, input: ToolInput)
    requires IsTask(s.nodes, task)
    ensures
      var t := Step(s, Record(task, tool, toolUseId, input));
      && t.nodes == s.nodes + [ActionNode(tool, toolUseId, None)]
      && t.log == s.log + [Call(task, |s.nodes|, tool, ExtractEntities(tool, input), [], [], Lookup)]
  {
  }

  /** A transaction that fails writes nothing: the entity is skipped, and the call goes on with the next one. */
  lemma FailureSkipsTheEntity(s: State, i: nat)
    requires i < |s.log| && !Done(s.log[i])
    ensures
      var c := s.log[i];
      var fault := if c.at.LinkTo? then EdgeFails else UpsertFails;
      Step(s, Advance(i, false)) == s.(log := s.log[i := c.(faults := c.faults + [fault], at := Lookup)])
  {
  }

  /** The outcome reaches exactly the actions with that tool use id; every other node stays. */
  lemma OutcomeReachesItsAction(s: State, toolUseId: string, isError: bool, n: nat)
    requires n < |s.nodes|
    ensures
      var t := Step(s, Patch(toolUseId, isError));
      && |t.nodes| == |s.nodes| && t.edges == s.edges && t.log == s.log
      && t.nodes[n] == if s.nodes[n].ActionNode? && s.nodes[n].toolUseId == toolUseId
                       then s.nodes[n].(isError := Some(isError)) else s.nodes[n]
  {
  }

  /** A task starts as running, and finishing it changes its status alone. */
  lemma TaskStartsAndFinishes(s: State, taskId: string, userId: int, description: string, attempt: nat, now: nat,
        status: string)
    ensures
      var t := Step(s, NewTask(taskId, userId, description, attempt, now));
      var u := Step(t, FinishTask(|s.nodes|, status));
      && t == s.(nodes := s.nodes + [TaskNode(taskId, userId, description, attempt, "running", now)])
      && u == s.(nodes := s.nodes + [TaskNode(taskId, userId, description, attempt, status, now)])
  {
  }

  // -------------------------------------------------------------------- the writer

  /** The schedule without the steps of call `i`. */
  function Without(schedule: seq<Action>, i: nat): (r: seq<Action>)
    ensures Spares(r, i)
  {
    if schedule == [] then []
    else
      var last := schedule[|schedule| - 1];
      Without(schedule[..|schedule| - 1], i) + if last.Advance? && last.call == i then [] else [last]
  }

  /** The SELECT of call `i`, and, when it finds nothing, the others and then the INSERT. */
  function Upserted(s: State, i: nat, selected: bool, meanwhile: seq<Action>, inserted: bool): State
    requires i < |s.log| && !Done(s.log[i]) && s.log[i].at == Lookup
  {
    var seen := SelectStep(s, i, selected);
    if seen.log[i].at != Insert then seen
    else
      SparedCallStays(seen, Without(meanwhile, i), i);
      InsertStep(Play(seen, Without(meanwhile, i)), i, inserted)
  }

  /** An upsert is a schedule of the machine. */
  lemma UpsertIsPlayed(s: State, i: nat, selected: bool, meanwhile: seq<Action>, inserted: bool)
    returns (played: seq<Action>)
    requires i < |s.log| && !Done(s.log[i]) && s.log[i].at == Lookup
    ensures Play(s, played) == Upserted(s, i, selected, meanwhile, inserted)
  {
    played := [Advance(i, selected)];
    var seen := SelectStep(s, i, selected);
    assert played[..0] == [] && Play(s, played) == seen;
    if seen.log[i].at == Insert {
      SparedCallStays(seen, Without(meanwhile, i), i);
      PlayConcat(s, played, Without(meanwhile, i));
      played := played + Without(meanwhile, i);
      PlayConcat(s, played, [Advance(i, inserted)]);
      assert [Advance(i, inserted)][..0] == [];
      played := played + [Advance(i, inserted)];
    }
  }

  /**
   The two tables, with a writer that records calls while others do the same: between
   any two of its transactions any schedule of the others may pass.
   */
  class GraphWriter {
    var nodes: seq<Node>
    var edges: seq<Edge>
    var log: seq<Call>

    function View(): State
      reads this
    {
      State(nodes, edges, log)
    }

    ghost predicate Valid()
      reads this
    {
      Inv(View())
    }

    constructor ()
      ensures Valid() && View() == EMPTY
    {
      nodes, edges, log := [], [], [];
    }

    method CreateTaskNode(taskId: string, userId: int, description: string, attempt: nat, now: nat, ok: bool)
      returns (id: Option<nat>)
      requires Valid()
      modifies this
      ensures Valid() && log == old(log)
      ensures
        if ok then id == Some(|old(nodes)|)
          && nodes == old(nodes) + [TaskNode(taskId, userId, description, attempt, "running", now)]
        else id == None && nodes == old(nodes)
    {
      if !ok { return None; }
      StepKeepsInv(View(), NewTask(taskId, userId, description, attempt, now));
      id := Some(|nodes|);
      nodes := nodes + [TaskNode(taskId, userId, description, attempt, "running", now)];
    }

    method FinishTask(id: Option<nat>, status: string, ok: bool)
      requires Valid()
      modifies this
      ensures Valid() && log == old(log) && |nodes| == |old(nodes)|
      ensures forall n :: 0 <= n < |nodes| ==>
        nodes[n] ==
        if ok && id == Some(n) && old(nodes)[n].TaskNode? then old(nodes)[n].(status := status) else old(nodes)[n]
    {
      if id.None? || !ok || id.value >= |nodes| || !nodes[id.value].TaskNode? { return; }
      StepKeepsInv(View(), Action.FinishTask(id.value, status));
      nodes := nodes[id.value := nodes[id.value].(status := status)];
    }

    method PatchActionOutcome(toolUseId: string, isError: bool, ok: bool)
      requires Valid()
      modifies this
      ensures Valid() && log == old(log) && |nodes| == |old(nodes)|
      ensures
        forall n :: 0 <= n < |nodes| ==>
          nodes[n] ==
            if ok && old(nodes)[n].ActionNode? && old(nodes)[n].toolUseId == toolUseId
            then old(nodes)[n].(isError := Some(isError)) else old(nodes)[n]
    {
      if !ok { return; }
      PatchKeepsInv(View(), toolUseId, isError);
      nodes := PatchedAll(nodes, toolUseId, isError);
      assert View() == old(View()).(nodes := nodes);
    }

    /** The others write for a while; call `mine` is not theirs. */
    method Others(schedule: seq<Action>, mine: nat)
      modifies this
      ensures View() == Play(old(View()), Without(schedule, mine))
    {
      var s := Play(View(), Without(schedule, mine));
      nodes, edges, log := s.nodes, s.edges, s.log;
    }

    /** The action node and the edge from its task, in one transaction. */
    method CreateActionNode(task: nat, tool: string, toolUseId: string, input: ToolInput, ok: bool)
      returns (action: Option<nat>)
      modifies this
      ensures View() == if ok then RecordStep(old(View()), task, tool, toolUseId, input) else old(View())
      ensures action == if ok then Some(|old(nodes)|) else None
    {
      if !ok { return None; }
      action := Some(|nodes|);
      log := log + [Call(task, |nodes|, tool, ExtractEntities(tool, input), [], [], Lookup)];
      edges := UpsertEdge(edges, task, |nodes|, Executed);
      nodes := nodes + [ActionNode(tool, toolUseId, None)];
    }

    method SelectEntity(i: nat, ok: bool)
      requires i < |log| && !Done(log[i])
      modifies this
      ensures View() == SelectStep(old(View()), i, ok)
    {
      var c := log[i];
      if !ok {
        log := log[i := Settled(c, UpsertFails)];
        return;
      }
      var existing := FindEntity(nodes, Current(c).kind, Current(c).identifier);
      log := log[i := c.(at := if existing.Some? then LinkTo(existing.value) else Insert)];
    }

    method InsertEntity(i: nat, ok: bool)
      requires i < |log| && !Done(log[i])
      modifies this
      ensures View() == InsertStep(old(View()), i, ok)
    {
      var c := log[i];
      if !ok {
        log := log[i := Settled(c, UpsertFails)];
      } else if EntityNode(Current(c).kind, Current(c).identifier) in nodes {
        log := log[i := Settled(c, LostRace)];
      } else {
        log := log[i := c.(at := LinkTo(|nodes|))];
        nodes := nodes + [EntityNode(Current(c).kind, Current(c).identifier)];
      }
    }

    /**
     Finds or creates the node of the next entity of call `i`. Between the SELECT and
     the INSERT the others write; an INSERT that comes too late is swallowed.
     */
    method UpsertEntity(i: nat, selected: bool, meanwhile: seq<Action>, inserted: bool) returns (id: Option<nat>)
      requires i < |log| && !Done(log[i]) && log[i].at == Lookup
      modifies this
      ensures View() == Upserted(old(View()), i, selected, meanwhile, inserted)
      ensures i < |log|
      ensures id.Some? ==> log[i] == old(log)[i].(at := LinkTo(id.value))
      ensures id.None? ==> log[i] == Settled(old(log)[i], UpsertFails) || log[i] == Settled(old(log)[i], LostRace)
      ensures selected && inserted && id.None? ==>
        NodeOf(Current(old(log)[i])) !in old(nodes) && NodeOf(Current(old(log)[i])) in nodes
    {
      SelectEntity(i, selected);
      if log[i].at == Insert {
        SparedCallStays(View(), Without(meanwhile, i), i);
        Others(meanwhile, i);
        InsertEntity(i, inserted);
      }
      id := if log[i].at.LinkTo? then Some(log[i].at.id) else None;
    }

    /** The edge from the action of call `i` to the node it got. */
    method CreateEdge(i: nat, id: nat, ok: bool)
      requires i < |log| && !Done(log[i])
      modifies this
      ensures View() == EdgeStep(old(View()), i, id, ok)
    {
      var c := log[i];
      if !ok {
        log := log[i := Settled(c, EdgeFails)];
        return;
      }
      edges := UpsertEdge(edges, c.action, id, Current(c).edge);
      log := log[i := Settled(c, NoFault).(links := c.links + [Link(Current(c), id)])];
    }

    /** One entity of call `i`: its node, then the edge, with the others before each transaction. */
    method LinkEntity(i: nat, oks: nat -> bool, others: nat -> seq<Action>, k: nat) returns (ghost played: seq<Action>)
      requires i < |log| && !Done(log[i]) && log[i].at == Lookup
      modifies this
      ensures View() == Play(old(View()), played)
      ensures i < |log| && log[i].at == Lookup && |log[i].faults| == |old(log)[i].faults| + 1
      ensures log[i] == old(log)[i].(faults := log[i].faults, links := log[i].links)
    {
      ghost var start := View();
      played := Without(others(k), i);
      SparedCallStays(start, played, i);
      Others(others(k), i);
      ghost var upsert := UpsertIsPlayed(View(), i, oks(k), others(k + 1), oks(k + 1));
      PlayConcat(start, played, upsert);
      played := played + upsert;
      var id := UpsertEntity(i, oks(k), others(k + 1), oks(k + 1));
      if id.Some? {
        ghost var linked := LinkLater(i, id.value, others(k + 2), oks(k + 2));
        PlayConcat(start, played, linked);
        played := played + linked;
      }
    }

    /** The others, then the edge to the node found. */
    method LinkLater(i: nat, id: nat, meanwhile: seq<Action>, ok: bool) returns (ghost played: seq<Action>)
      requires i < |log| && !Done(log[i]) && log[i].at == LinkTo(id)
      modifies this
      ensures View() == Play(old(View()), played)
      ensures i < |log| && log[i].at == Lookup && |log[i].faults| == |old(log)[i].faults| + 1
      ensures log[i] == old(log)[i].(faults := log[i].faults, links := log[i].links, at := Lookup)
    {
      ghost var start := View();
      played := Without(meanwhile, i);
      SparedCallStays(start, played, i);
      Others(meanwhile, i);
      PlayConcat(start, played, [Advance(i, ok)]);
      assert [Advance(i, ok)][..0] == [];
      played := played + [Advance(i, ok)];
      CreateEdge(i, id, ok);
    }

    /**
     Records a call: its action node, then each extracted entity and the edge to it.
     An entity whose writes fail is skipped; a failed action node ends the call. `oks`
     and `others` say, for each transaction, how it ends and what passes before it.
     */
    method RecordToolCall(task: nat, tool: string, toolUseId: string, input: ToolInput, actionOk: bool,
                          oks: nat -> bool, others: nat -> seq<Action>)
      returns (action: Option<nat>, ghost played: seq<Action>)
      requires Valid() && IsTask(nodes, task)
      modifies this
      ensures Valid() && View() == Play(old(View()), played)
      ensures !actionOk ==> action == None && View() == old(View())
      ensures actionOk ==>
        && action == Some(|old(nodes)|) && |log| > |old(log)|
        && var c := log[|old(log)|];
           && c.task == task && c.action == |old(nodes)| && c.tool == tool
           && c.entities == ExtractEntities(tool, input) && |c.faults| == |c.entities|
           && EntitiesOf(c.links) == Surviving(c.entities, c.faults)
    {
      ghost var start := View();
      var i := |log|;
      played := [];
      action := CreateActionNode(task, tool, toolUseId, input, actionOk);
      if action.None? { return; }
      played := [Record(task, tool, toolUseId, input)];
      assert played[..0] == [];
      var entities := ExtractEntities(tool, input);
      for k := 0 to |entities|
        invariant View() == Play(start, played) && i < |log|
        invariant log[i].task == task && log[i].action == action.value && log[i].tool == tool
        invariant log[i].entities == entities && |log[i].faults| == k && log[i].at == Lookup
      {
        ghost var more := LinkEntity(i, oks, others, 3 * k);
        PlayConcat(start, played, more);
        played := played + more;
      }
      PlayKeepsInv(start, played);
      assert ProgressOk(nodes, log[i]);
    }
  }
}
