/**
 The read path of the memory graph: what its joins over the edge table return,
 against a direct scan of the log of tool calls.
 */
module MemoryRetrieval {
  import opened MemoryEntities
  import opened MemoryGraph

  const FILE_LIMIT: nat := 8
  const SEARCH_LIMIT: nat := 10

  // ------------------------------------------------------------ layers and weights

  /** The edges out of actions carry one unit of weight for each link of the log. */
  function EntityWeight(edges: seq<Edge>): nat {
    if edges == [] then 0
    else
      var e := edges[|edges| - 1];
      EntityWeight(edges[..|edges| - 1]) + if e.kind == Executed then 0 else e.weight
  }

  function LinkTotal(log: seq<Call>): nat {
    if log == [] then 0 else LinkTotal(log[..|log| - 1]) + |log[|log| - 1].links|
  }

  /** The entities dealt with so far, over all calls. */
  function TreatedTotal(log: seq<Call>): nat {
    if log == [] then 0 else TreatedTotal(log[..|log| - 1]) + |log[|log| - 1].faults|
  }

  /** The failed transactions of one call, lost races included. */
  function Losses(faults: seq<Fault>): nat {
    if faults == [] then 0 else Losses(faults[..|faults| - 1]) + if faults[|faults| - 1].NoFault? then 0 else 1
  }

  function LossTotal(log: seq<Call>): nat {
    if log == [] then 0 else LossTotal(log[..|log| - 1]) + Losses(log[|log| - 1].faults)
  }

  /** Every edge runs from a task to an action or from an action to an entity, and weighs 1. */
  lemma EdgesAreLayered(nodes: seq<Node>, edges: seq<Edge>, log: seq<Call>, e: Edge)
    requires Index(nodes, edges, log) && e in edges
    ensures e.source < |nodes| && e.target < |nodes| && e.weight == 1
    ensures e.kind == Executed ==> nodes[e.source].TaskNode? && nodes[e.target].ActionNode?
    ensures e.kind != Executed ==> nodes[e.source].ActionNode? && nodes[e.target].EntityNode?
  {
    SameEdges(edges, log);
    var i := EdgeOrigin(log, e);
    assert CallOk(nodes, log[i]);
  }

  lemma WeightNext(edges: seq<Edge>, e: Edge)
    ensures EntityWeight(edges + [e]) == EntityWeight(edges) + if e.kind == Executed then 0 else e.weight
  {
    assert (edges + [e])[..|edges|] == edges;
  }

  lemma {:induction false} WeightWithout(edges: seq<Edge>, k: nat)
    requires k < |edges|
    ensures EntityWeight(edges) ==
      EntityWeight(edges[..k] + edges[k + 1..]) + if edges[k].kind == Executed then 0 else edges[k].weight
  {
    var front, last := edges[..|edges| - 1], edges[|edges| - 1];
    if k < |front| {
      WeightWithout(front, k);
      assert edges[..k] + edges[k + 1..] == front[..k] + front[k + 1..] + [last];
      WeightNext(front[..k] + front[k + 1..], last);
    } else {
      assert edges[..k] + edges[k + 1..] == front;
    }
  }

  /** The order of the table does not matter. */
  lemma {:induction false} WeightAnyOrder(a: seq<Edge>, b: seq<Edge>)
    requires multiset(a) == multiset(b)
    ensures EntityWeight(a) == EntityWeight(b)
  {
    if a == [] {
      assert |multiset(b)| == 0;
    } else {
      var k := LastElsewhere(a, b);
      WeightWithout(b, k);
      WeightAnyOrder(a[..|a| - 1], b[..k] + b[k + 1..]);
    }
  }

  /** Where the last element of one order stands in another, and that the rest agrees. */
  lemma LastElsewhere(a: seq<Edge>, b: seq<Edge>) returns (k: nat)
    requires a != [] && multiset(a) == multiset(b)
    ensures k < |b| && b[k] == a[|a| - 1]
    ensures multiset(a[..|a| - 1]) == multiset(b[..k] + b[k + 1..])
  {
    var last := a[|a| - 1];
    assert last in multiset(b);
    k :| 0 <= k < |b| && b[k] == last;
    assert a == a[..|a| - 1] + [last];
    assert b == b[..k] + ([last] + b[k + 1..]);
    assert multiset(a) - multiset{last} == multiset(a[..|a| - 1]);
    assert multiset(b) - multiset{last} == multiset(b[..k] + b[k + 1..]);
  }

  lemma {:induction false} LinksWeigh(edges: seq<Edge>, action: nat, links: seq<Link>)
    requires forall l | l in links :: l.entity.edge != Executed
    ensures EntityWeight(edges + LinkEdges(action, links)) == EntityWeight(edges) + |links|
  {
    if links == [] {
      assert edges + LinkEdges(action, links) == edges;
    } else {
      var n := |links| - 1;
      LinkEdgesNext(edges, action, links);
      LinksWeigh(edges, action, links[..n]);
      WeightNext(edges + LinkEdges(action, links[..n]), Edge(action, links[n].id, links[n].entity.edge, 1));
    }
  }

  lemma CallWeighs(before: seq<Call>, c: Call)
    requires forall l | l in c.links :: l.entity.edge != Executed
    ensures EntityWeight(EdgesOf(before + [c])) == EntityWeight(EdgesOf(before)) + |c.links|
  {
    var edges, e := EdgesOf(before), Edge(c.task, c.action, Executed, 1);
    EdgesOfNext(before, c);
    LinksWeigh(edges + [e], c.action, c.links);
    WeightNext(edges, e);
  }

  lemma {:induction false} LogWeighs(log: seq<Call>)
    requires forall c, l | c in log && l in c.links :: l.entity.edge != Executed
    ensures EntityWeight(EdgesOf(log)) == LinkTotal(log)
  {
    if log != [] {
      var n := |log| - 1;
      LogWeighs(log[..n]);
      assert log[..n] + [log[n]] == log;
      CallWeighs(log[..n], log[n]);
    }
  }

  /** The total weight between actions and entities is the number of entities linked. */
  lemma WeightIsLinks(nodes: seq<Node>, edges: seq<Edge>, log: seq<Call>)
    requires Index(nodes, edges, log)
    ensures EntityWeight(edges) == LinkTotal(log)
  {
    forall c, l | c in log && l in c.links
      ensures l.entity.edge != Executed
    {
      var i :| 0 <= i < |log| && log[i] == c;
      assert CallOk(nodes, log[i]);
    }
    LogWeighs(log);
    WeightAnyOrder(edges, EdgesOf(log));
  }

  lemma {:induction false} SurvivingCount(entities: seq<Entity>, faults: seq<Fault>)
    requires |faults| <= |entities|
    ensures |Surviving(entities, faults)| + Losses(faults) == |faults|
  {
    if faults != [] { SurvivingCount(entities, faults[..|faults| - 1]); }
  }

  lemma {:induction false} LinksAndLosses(nodes: seq<Node>, log: seq<Call>)
    requires forall c | c in log :: ProgressOk(nodes, c)
    ensures LinkTotal(log) + LossTotal(log) == TreatedTotal(log)
  {
    if log != [] {
      var c := log[|log| - 1];
      LinksAndLosses(nodes, log[..|log| - 1]);
      assert ProgressOk(nodes, c) && |EntitiesOf(c.links)| == |c.links|;
      SurvivingCount(c.entities, c.faults);
    }
  }

  /**
   Conservation, after any schedule of all writers: the total weight between actions
   and entities plus the failed writes is the number of extracted entities dealt with.
   */
  lemma WeightPlusLosses(schedule: seq<Action>)
    ensures
      var s := Play(EMPTY, schedule);
      EntityWeight(s.edges) + LossTotal(s.log) == TreatedTotal(s.log)
  {
    var s := Play(EMPTY, schedule);
    PlayKeepsInv(EMPTY, schedule);
    WeightIsLinks(s.nodes, s.edges, s.log);
    forall c | c in s.log
      ensures ProgressOk(s.nodes, c)
    {
      var i :| 0 <= i < |s.log| && s.log[i] == c;
    }
    LinksAndLosses(s.nodes, s.log);
  }

  /** A call is linked to everything dealt with exactly when none of its writes failed or came too late. */
  lemma {:induction false} FaultsAreTheOnlyLoss(entities: seq<Entity>, faults: seq<Fault>)
    requires |faults| <= |entities|
    ensures |Surviving(entities, faults)| <= |faults|
    ensures |Surviving(entities, faults)| == |faults| <==> forall f | f in faults :: f.NoFault?
    ensures |Surviving(entities, faults)| == |faults| ==> Surviving(entities, faults) == entities[..|faults|]
  {
    if faults != [] {
      var n := |faults| - 1;
      FaultsAreTheOnlyLoss(entities, faults[..n]);
      assert faults == faults[..n] + [faults[n]];
      assert entities[..n + 1] == entities[..n] + [entities[n]];
    }
  }

  // -------------------------------------------------------------- the two-hop join

  /** What the formatter reads of a result row: its task and the kind and key properties of a node. */
  datatype Row =
    | ActionRow(task: nat, tool: string)
    | EntityRow(task: nat, kind: string, identifier: string)
    | OtherRow(task: nat)

  function ToolOf(node: Node): string {
    if node.ActionNode? then node.tool else "?"
  }

  function RowOf(task: nat, node: Node): Row {
    match node
    case TaskNode(_, _, _, _, _, _) => OtherRow(task)
    case ActionNode(tool, _, _) => ActionRow(task, tool)
    case EntityNode(kind, identifier) => EntityRow(task, kind, identifier)
  }

  /** The rows that the edges contribute, one edge after the other. */
  function Collect(edges: seq<Edge>, rows: Edge -> seq<Row>): seq<Row> {
    if edges == [] then [] else Collect(edges[..|edges| - 1], rows) + rows(edges[|edges| - 1])
  }

  function ActionRows(nodes: seq<Node>, ids: seq<nat>): Edge -> seq<Row> {
    (e: Edge) =>
      if e.source in ids && e.kind == Executed && e.target < |nodes|
      then [ActionRow(e.source, ToolOf(nodes[e.target]))] else []
  }

  /** Task to actions. */
  function Hop1(nodes: seq<Node>, edges: seq<Edge>, ids: seq<nat>): seq<Row> {
    Collect(edges, ActionRows(nodes, ids))
  }

  function RowsFrom(nodes: seq<Node>, task: nat, action: nat): Edge -> seq<Row> {
    (e: Edge) =>
      if e.source == action && e.kind != Executed && e.target < |nodes|
      then [RowOf(task, nodes[e.target])] else []
  }

  /** From one action, along its own edges. */
  function Reached(nodes: seq<Node>, edges: seq<Edge>, task: nat, action: nat): seq<Row> {
    Collect(edges, RowsFrom(nodes, task, action))
  }

  function JoinedRows(nodes: seq<Node>, second: seq<Edge>, ids: seq<nat>): Edge -> seq<Row> {
    (e: Edge) => if e.source in ids && e.kind == Executed then Reached(nodes, second, e.source, e.target) else []
  }

  /** Task to actions to entities: the self-join of the edge table. */
  function Hop2(nodes: seq<Node>, first: seq<Edge>, second: seq<Edge>, ids: seq<nat>): seq<Row> {
    Collect(first, JoinedRows(nodes, second, ids))
  }

  function Expansion(nodes: seq<Node>, edges: seq<Edge>, ids: seq<nat>): seq<Row> {
    Hop1(nodes, edges, ids) + Hop2(nodes, edges, edges, ids)
  }

  // ------------------------------------------------------- a direct scan of the log

  function CallRows(log: seq<Call>, ids: seq<nat>): seq<Row> {
    if log == [] then []
    else
      var c := log[|log| - 1];
      CallRows(log[..|log| - 1], ids) + if c.task in ids then [ActionRow(c.task, c.tool)] else []
  }

  function LinkRows(task: nat, links: seq<Link>): seq<Row> {
    if links == [] then []
    else
      var l := links[|links| - 1];
      LinkRows(task, links[..|links| - 1]) + [EntityRow(task, l.entity.kind, l.entity.identifier)]
  }

  function TouchRows(log: seq<Call>, ids: seq<nat>): seq<Row> {
    if log == [] then []
    else
      var c := log[|log| - 1];
      TouchRows(log[..|log| - 1], ids) + if c.task in ids then LinkRows(c.task, c.links) else []
  }

  // ------------------------------------------------------------- the join is the scan

  lemma CollectNext(edges: seq<Edge>, e: Edge, rows: Edge -> seq<Row>)
    ensures Collect(edges + [e], rows) == Collect(edges, rows) + rows(e)
  {
    assert (edges + [e])[..|edges|] == edges;
  }

  ghost function Bag(edges: seq<Edge>, rows: Edge -> seq<Row>): multiset<Row> {
    multiset(Collect(edges, rows))
  }

  lemma BagNext(edges: seq<Edge>, e: Edge, rows: Edge -> seq<Row>)
    ensures Bag(edges + [e], rows) == Bag(edges, rows) + multiset(rows(e))
  {
    CollectNext(edges, e, rows);
  }

  lemma {:induction false} BagWithout(edges: seq<Edge>, k: nat, rows: Edge -> seq<Row>)
    requires k < |edges|
    ensures Bag(edges, rows) == Bag(edges[..k] + edges[k + 1..], rows) + multiset(rows(edges[k]))
  {
    var front, last := edges[..|edges| - 1], edges[|edges| - 1];
    assert edges == front + [last];
    BagNext(front, last, rows);
    if k < |front| {
      var rest := front[..k] + front[k + 1..];
      BagWithout(front, k, rows);
      assert edges[..k] + edges[k + 1..] == rest + [last];
      BagNext(rest, last, rows);
    } else {
      assert edges[..k] + edges[k + 1..] == front;
    }
  }

  /** A join over the table in another order gives the same rows in another order. */
  lemma {:induction false} CollectAnyOrder(a: seq<Edge>, b: seq<Edge>, rows: Edge -> seq<Row>)
    requires multiset(a) == multiset(b)
    ensures Bag(a, rows) == Bag(b, rows)
  {
    if a == [] {
      assert |multiset(b)| == 0;
    } else {
      var k := LastElsewhere(a, b);
      BagWithout(b, k, rows);
      assert a == a[..|a| - 1] + [a[|a| - 1]];
      BagNext(a[..|a| - 1], a[|a| - 1], rows);
      CollectAnyOrder(a[..|a| - 1], b[..k] + b[k + 1..], rows);
    }
  }

  lemma {:induction false} CollectPointwise(edges: seq<Edge>, f: Edge -> seq<Row>, g: Edge -> seq<Row>)
    requires forall e :: multiset(f(e)) == multiset(g(e))
    ensures multiset(Collect(edges, f)) == multiset(Collect(edges, g))
  {
    if edges != [] {
      CollectPointwise(edges[..|edges| - 1], f, g);
      assert multiset(f(edges[|edges| - 1])) == multiset(g(edges[|edges| - 1]));
    }
  }

  lemma LinkEdgesNext(edges: seq<Edge>, action: nat, links: seq<Link>)
    requires links != []
    ensures
      var l := links[|links| - 1];
      edges + LinkEdges(action, links) ==
        edges + LinkEdges(action, links[..|links| - 1]) + [Edge(action, l.id, l.entity.edge, 1)]
  {
  }

  lemma Hop1Next(nodes: seq<Node>, edges: seq<Edge>, e: Edge, ids: seq<nat>)
    ensures Hop1(nodes, edges + [e], ids) == Hop1(nodes, edges, ids)
      + if e.source in ids && e.kind == Executed && e.target < |nodes|
        then [ActionRow(e.source, ToolOf(nodes[e.target]))] else []
  {
    CollectNext(edges, e, ActionRows(nodes, ids));
  }

  lemma Hop2Next(nodes: seq<Node>, edges: seq<Edge>, e: Edge, second: seq<Edge>, ids: seq<nat>)
    ensures Hop2(nodes, edges + [e], second, ids) == Hop2(nodes, edges, second, ids)
      + if e.source in ids && e.kind == Executed then Reached(nodes, second, e.source, e.target) else []
  {
    CollectNext(edges, e, JoinedRows(nodes, second, ids));
  }

  lemma ReachedNext(nodes: seq<Node>, edges: seq<Edge>, e: Edge, task: nat, action: nat)
    ensures Reached(nodes, edges + [e], task, action) == Reached(nodes, edges, task, action)
      + if e.source == action && e.kind != Executed && e.target < |nodes| then [RowOf(task, nodes[e.target])] else []
  {
    CollectNext(edges, e, RowsFrom(nodes, task, action));
  }

  lemma {:induction false} Hop1SkipsLinks(nodes: seq<Node>, edges: seq<Edge>, action: nat, links: seq<Link>,
          ids: seq<nat>)
    requires forall l | l in links :: LinkOk(nodes, l)
    ensures Hop1(nodes, edges + LinkEdges(action, links), ids) == Hop1(nodes, edges, ids)
  {
    if links == [] {
      assert edges + LinkEdges(action, links) == edges;
    } else {
      var n := |links| - 1;
      assert LinkOk(nodes, links[n]);
      LinkEdgesNext(edges, action, links);
      Hop1SkipsLinks(nodes, edges, action, links[..n], ids);
      Hop1Next(nodes, edges + LinkEdges(action, links[..n]), Edge(action, links[n].id, links[n].entity.edge, 1), ids);
    }
  }

  lemma {:induction false} Hop2SkipsLinks(
      nodes: seq<Node>, edges: seq<Edge>, second: seq<Edge>, action: nat, links: seq<Link>, ids: seq<nat>)
    requires forall l | l in links :: LinkOk(nodes, l)
    ensures Hop2(nodes, edges + LinkEdges(action, links), second, ids) == Hop2(nodes, edges, second, ids)
  {
    if links == [] {
      assert edges + LinkEdges(action, links) == edges;
    } else {
      var n := |links| - 1;
      assert LinkOk(nodes, links[n]);
      LinkEdgesNext(edges, action, links);
      Hop2SkipsLinks(nodes, edges, second, action, links[..n], ids);
      var e := Edge(action, links[n].id, links[n].entity.edge, 1);
      Hop2Next(nodes, edges + LinkEdges(action, links[..n]), e, second, ids);
    }
  }

  lemma {:induction false} ReachedAlongLinks(nodes: seq<Node>, edges: seq<Edge>, task: nat, action: nat, from: nat,
          links: seq<Link>)
    requires forall l | l in links :: LinkOk(nodes, l)
    ensures Reached(nodes, edges + LinkEdges(from, links), task, action)
         == Reached(nodes, edges, task, action) + if from == action then LinkRows(task, links) else []
  {
    if links == [] {
      assert edges + LinkEdges(from, links) == edges;
    } else {
      var n := |links| - 1;
      assert LinkOk(nodes, links[n]);
      LinkEdgesNext(edges, from, links);
      ReachedAlongLinks(nodes, edges, task, action, from, links[..n]);
      var e := Edge(from, links[n].id, links[n].entity.edge, 1);
      ReachedNext(nodes, edges + LinkEdges(from, links[..n]), e, task, action);
    }
  }

  predicate CallsOk(nodes: seq<Node>, log: seq<Call>) {
    forall c | c in log :: CallOk(nodes, c)
  }

  lemma Hop1Step(nodes: seq<Node>, before: seq<Call>, c: Call, ids: seq<nat>)
    requires CallOk(nodes, c)
    ensures Hop1(nodes, EdgesOf(before + [c]), ids)
         == Hop1(nodes, EdgesOf(before), ids) + if c.task in ids then [ActionRow(c.task, c.tool)] else []
  {
    var edges, e := EdgesOf(before), Edge(c.task, c.action, Executed, 1);
    EdgesOfNext(before, c);
    Hop1SkipsLinks(nodes, edges + [e], c.action, c.links, ids);
    Hop1Next(nodes, edges, e, ids);
  }

  lemma Hop2Step(nodes: seq<Node>, before: seq<Call>, c: Call, second: seq<Edge>, ids: seq<nat>)
    requires CallOk(nodes, c)
    ensures Hop2(nodes, EdgesOf(before + [c]), second, ids)
         == Hop2(nodes, EdgesOf(before), second, ids)
           + if c.task in ids then Reached(nodes, second, c.task, c.action) else []
  {
    var edges, e := EdgesOf(before), Edge(c.task, c.action, Executed, 1);
    EdgesOfNext(before, c);
    Hop2SkipsLinks(nodes, edges + [e], second, c.action, c.links, ids);
    Hop2Next(nodes, edges, e, second, ids);
  }

  lemma {:induction false} Hop1OfLog(nodes: seq<Node>, log: seq<Call>, ids: seq<nat>)
    requires CallsOk(nodes, log)
    ensures Hop1(nodes, EdgesOf(log), ids) == CallRows(log, ids)
  {
    if log != [] {
      var n := |log| - 1;
      Hop1OfLog(nodes, log[..n], ids);
      assert log[..n] + [log[n]] == log && CallOk(nodes, log[n]);
      Hop1Step(nodes, log[..n], log[n], ids);
    }
  }

  /** The last call adds what is reached from its own action and nothing else. */
  lemma ReachedStep(nodes: seq<Node>, before: seq<Call>, c: Call, task: nat, action: nat)
    requires CallOk(nodes, c)
    ensures Reached(nodes, EdgesOf(before + [c]), task, action)
         == Reached(nodes, EdgesOf(before), task, action) + if c.action == action then LinkRows(task, c.links) else []
  {
    var e := Edge(c.task, c.action, Executed, 1);
    EdgesOfNext(before, c);
    ReachedAlongLinks(nodes, EdgesOf(before) + [e], task, action, c.action, c.links);
    ReachedNext(nodes, EdgesOf(before), e, task, action);
  }

  lemma {:induction false} ReachedElsewhere(nodes: seq<Node>, log: seq<Call>, task: nat, action: nat)
    requires CallsOk(nodes, log) && forall i :: 0 <= i < |log| ==> log[i].action != action
    ensures Reached(nodes, EdgesOf(log), task, action) == []
  {
    if log != [] {
      var n := |log| - 1;
      ReachedElsewhere(nodes, log[..n], task, action);
      assert log[..n] + [log[n]] == log;
      ReachedStep(nodes, log[..n], log[n], task, action);
    }
  }

  /** From an action the join reaches the links of its own call and of no other. */
  lemma {:induction false} ReachedOfLog(nodes: seq<Node>, log: seq<Call>, task: nat, i: nat)
    requires CallsOk(nodes, log) && OwnActions(log) && i < |log|
    ensures Reached(nodes, EdgesOf(log), task, log[i].action) == LinkRows(task, log[i].links)
  {
    var front, last := log[..|log| - 1], log[|log| - 1];
    assert front + [last] == log;
    ReachedStep(nodes, front, last, task, log[i].action);
    if i < |front| {
      assert front[i] == log[i];
      ReachedOfLog(nodes, front, task, i);
    } else {
      forall j | 0 <= j < |front|
        ensures front[j].action != last.action
      {
        assert front[j] == log[j];
      }
      ReachedElsewhere(nodes, front, task, last.action);
    }
  }

  lemma {:induction false} Hop2OfLog(nodes: seq<Node>, log: seq<Call>, n: nat, ids: seq<nat>)
    requires CallsOk(nodes, log) && OwnActions(log) && n <= |log|
    ensures Hop2(nodes, EdgesOf(log[..n]), EdgesOf(log), ids) == TouchRows(log[..n], ids)
  {
    if n > 0 {
      var c := log[n - 1];
      assert log[..n][..n - 1] == log[..n - 1] && log[..n - 1] + [c] == log[..n];
      Hop2OfLog(nodes, log, n - 1, ids);
      Hop2Step(nodes, log[..n - 1], c, EdgesOf(log), ids);
      ReachedOfLog(nodes, log, c.task, n - 1);
    }
  }

  lemma Hop2AnyOrder(nodes: seq<Node>, edges: seq<Edge>, other: seq<Edge>, ids: seq<nat>)
    requires multiset(edges) == multiset(other)
    ensures multiset(Hop2(nodes, edges, edges, ids)) == multiset(Hop2(nodes, other, other, ids))
  {
    CollectAnyOrder(edges, other, JoinedRows(nodes, edges, ids));
    forall e
      ensures multiset(JoinedRows(nodes, edges, ids)(e)) == multiset(JoinedRows(nodes, other, ids)(e))
    {
      CollectAnyOrder(edges, other, RowsFrom(nodes, e.source, e.target));
    }
    CollectPointwise(other, JoinedRows(nodes, edges, ids), JoinedRows(nodes, other, ids));
  }

  /** Up to their order, the two-hop join over the edge table returns exactly the rows of a scan of the log. */
  lemma ExpansionIsTheLog(nodes: seq<Node>, edges: seq<Edge>, log: seq<Call>, ids: seq<nat>)
    requires Index(nodes, edges, log)
    ensures multiset(Expansion(nodes, edges, ids)) == multiset(CallRows(log, ids) + TouchRows(log, ids))
  {
    assert log[..|log|] == log;
    Hop1OfLog(nodes, log, ids);
    Hop2OfLog(nodes, log, |log|, ids);
    CollectAnyOrder(edges, EdgesOf(log), ActionRows(nodes, ids));
    Hop2AnyOrder(nodes, edges, EdgesOf(log), ids);
  }

  // ------------------------------------------------------------- formatting a recall

  datatype Bucket = Bucket(files: seq<string>, apis: seq<string>, subagents: seq<string>)

  /** One task of the memory block. */
  datatype Block = Block(task: nat, files: seq<string>, apis: seq<string>, subagents: seq<string>,
    counts: map<string, nat>)

  function BucketOf(buckets: map<nat, Bucket>, task: nat): Bucket {
    if task in buckets then buckets[task] else Bucket([], [], [])
  }

  function CountsOf(counts: map<nat, map<string, nat>>, task: nat): map<string, nat> {
    if task in counts then counts[task] else map[]
  }

  function CountOf(counts: map<string, nat>, tool: string): nat {
    if tool in counts then counts[tool] else 0
  }

  /** The identifiers of one kind found for a task, in row order. */
  function Named(rows: seq<Row>, task: nat, kind: string): seq<string> {
    if rows == [] then []
    else
      var r := rows[|rows| - 1];
      Named(rows[..|rows| - 1], task, kind)
      + if r.EntityRow? && r.task == task && r.kind == kind then [r.identifier] else []
  }

  /** `list(dict.fromkeys(s))`: every element once, where it first occurs. */
  function FirstOnly(s: seq<string>): (r: seq<string>)
    ensures forall x :: x in r <==> x in s
    ensures forall i, j :: 0 <= i < j < |r| ==> r[i] != r[j]
  {
    if s == [] then []
    else
      var before := FirstOnly(s[..|s| - 1]);
      var last := s[|s| - 1];
      assert s == s[..|s| - 1] + [last];
      if last in before then before else before + [last]
  }

  function Cut<T>(s: seq<T>, n: nat): seq<T> {
    if |s| <= n then s else s[..n]
  }

  /** The counts are those of the task's rows, one entry for each tool that occurs. */
  ghost predicate CountsRows(counts: map<string, nat>, rows: seq<Row>, task: nat) {
    forall tool: string ::
      && CountOf(counts, tool) == multiset(rows)[ActionRow(task, tool)]
      && (tool in counts ==> counts[tool] > 0)
  }

  ghost predicate BucketsRows(bucket: Bucket, rows: seq<Row>, task: nat) {
    && bucket.files == Named(rows, task, "file")
    && bucket.apis == Named(rows, task, "api")
    && bucket.subagents == Named(rows, task, "subagent")
  }

  ghost predicate BlockOk(b: Block, rows: seq<Row>, task: nat) {
    && b.task == task
    && b.files == Cut(FirstOnly(Named(rows, task, "file")), FILE_LIMIT)
    && b.apis == FirstOnly(Named(rows, task, "api"))
    && b.subagents == FirstOnly(Named(rows, task, "subagent"))
    && CountsRows(b.counts, rows, task)
  }

  /** The rows grouped by task, as far as they have been read. */
  ghost predicate Grouped(buckets: map<nat, Bucket>, counts: map<nat, map<string, nat>>, rows: seq<Row>) {
    && (forall t: nat :: BucketsRows(BucketOf(buckets, t), rows, t))
    && (forall t: nat :: CountsRows(CountsOf(counts, t), rows, t))
  }

  lemma NamedNext(rows: seq<Row>, r: Row, task: nat, kind: string)
    ensures Named(rows + [r], task, kind) ==
      Named(rows, task, kind) + if r.EntityRow? && r.task == task && r.kind == kind then [r.identifier] else []
  {
    assert (rows + [r])[..|rows|] == rows;
  }

  /** The bucket of a task after one more row. */
  function Filed(b: Bucket, r: Row, t: nat): Bucket {
    if !r.EntityRow? || r.task != t then b
    else if r.kind == "file" then b.(files := b.files + [r.identifier])
    else if r.kind == "api" then b.(apis := b.apis + [r.identifier])
    else if r.kind == "subagent" then b.(subagents := b.subagents + [r.identifier])
    else b
  }

  /** The counts of a task after one more row. */
  function Counted(mine: map<string, nat>, r: Row, t: nat): map<string, nat> {
    if r.ActionRow? && r.task == t then mine[r.tool := CountOf(mine, r.tool) + 1] else mine
  }

  lemma BucketsNext(b: Bucket, rows: seq<Row>, r: Row, t: nat)
    requires BucketsRows(b, rows, t)
    ensures BucketsRows(Filed(b, r, t), rows + [r], t)
  {
    NamedNext(rows, r, t, "file");
    NamedNext(rows, r, t, "api");
    NamedNext(rows, r, t, "subagent");
  }

  lemma CountsNext(mine: map<string, nat>, rows: seq<Row>, r: Row, t: nat)
    requires CountsRows(mine, rows, t)
    ensures CountsRows(Counted(mine, r, t), rows + [r], t)
  {
    var mine' := Counted(mine, r, t);
    assert multiset(rows + [r]) == multiset(rows) + multiset{r};
    forall tool: string
      ensures CountOf(mine', tool) == multiset(rows + [r])[ActionRow(t, tool)]
      ensures tool in mine' ==> mine'[tool] > 0
    {
      assert CountOf(mine, tool) == multiset(rows)[ActionRow(t, tool)];
    }
  }

  lemma GroupedNext(buckets: map<nat, Bucket>, counts: map<nat, map<string, nat>>, rows: seq<Row>, r: Row,
        buckets': map<nat, Bucket>, counts': map<nat, map<string, nat>>)
    requires Grouped(buckets, counts, rows)
    requires forall t: nat :: BucketOf(buckets', t) == Filed(BucketOf(buckets, t), r, t)
    requires forall t: nat :: CountsOf(counts', t) == Counted(CountsOf(counts, t), r, t)
    ensures Grouped(buckets', counts', rows + [r])
  {
    forall t: nat
      ensures BucketsRows(BucketOf(buckets', t), rows + [r], t)
    {
      BucketsNext(BucketOf(buckets, t), rows, r, t);
    }
    forall t: nat
      ensures CountsRows(CountsOf(counts', t), rows + [r], t)
    {
      CountsNext(CountsOf(counts, t), rows, r, t);
    }
  }

  /** Files one row under its task. */
  method Group(buckets: map<nat, Bucket>, counts: map<nat, map<string, nat>>, ghost rows: seq<Row>, r: Row)
    returns (buckets': map<nat, Bucket>, counts': map<nat, map<string, nat>>)
    requires Grouped(buckets, counts, rows)
    ensures Grouped(buckets', counts', rows + [r])
  {
    buckets', counts' := buckets, counts;
    match r {
      case ActionRow(task, tool) =>
        var mine := CountsOf(counts, task);
        counts' := counts[task := mine[tool := CountOf(mine, tool) + 1]];
      case EntityRow(task, kind, identifier) =>
        var b := BucketOf(buckets, task);
        if kind == "file" {
          buckets' := buckets[task := b.(files := b.files + [identifier])];
        } else if kind == "api" {
          buckets' := buckets[task := b.(apis := b.apis + [identifier])];
        } else if kind == "subagent" {
          buckets' := buckets[task := b.(subagents := b.subagents + [identifier])];
        }
      case OtherRow(_) =>
    }
    GroupedNext(buckets, counts, rows, r, buckets', counts');
  }

  /** The first loop: every row under its task. */
  method GroupRows(rows: seq<Row>) returns (buckets: map<nat, Bucket>, counts: map<nat, map<string, nat>>)
    ensures Grouped(buckets, counts, rows)
  {
    buckets, counts := map[], map[];
    for i := 0 to |rows|
      invariant Grouped(buckets, counts, rows[..i])
    {
      assert rows[..i + 1] == rows[..i] + [rows[i]];
      buckets, counts := Group(buckets, counts, rows[..i], rows[i]);
    }
    assert rows[..|rows|] == rows;
  }

  function BlockOf(task: nat, bucket: Bucket, counts: map<string, nat>): Block {
    Block(task, Cut(FirstOnly(bucket.files), FILE_LIMIT), FirstOnly(bucket.apis), FirstOnly(bucket.subagents), counts)
  }

  /** Groups the rows by task, then lists each task with what its rows name. */
  method FormatRecall(tasks: seq<nat>, rows: seq<Row>) returns (blocks: seq<Block>)
    ensures |blocks| == |tasks|
    ensures forall i :: 0 <= i < |tasks| ==> BlockOk(blocks[i], rows, tasks[i])
  {
    var buckets, counts := GroupRows(rows);
    blocks := [];
    for i := 0 to |tasks|
      invariant |blocks| == i
      invariant forall k :: 0 <= k < i ==>
        blocks[k] == BlockOf(tasks[k], BucketOf(buckets, tasks[k]), CountsOf(counts, tasks[k]))
    {
      blocks := blocks + [BlockOf(tasks[i], BucketOf(buckets, tasks[i]), CountsOf(counts, tasks[i]))];
    }
    forall i | 0 <= i < |tasks|
      ensures BlockOk(blocks[i], rows, tasks[i])
    {
      assert BucketsRows(BucketOf(buckets, tasks[i]), rows, tasks[i]);
      assert CountsRows(CountsOf(counts, tasks[i]), rows, tasks[i]);
    }
  }

  // --------------------------------------------------------- a recall reports the log

  /** How often the task called the tool. */
  function Calls(log: seq<Call>, task: nat, tool: string): nat {
    if log == [] then 0
    else
      var c := log[|log| - 1];
      Calls(log[..|log| - 1], task, tool) + if c.task == task && c.tool == tool then 1 else 0
  }

  predicate LinkedTo(c: Call, kind: string, identifier: string) {
    exists l | l in c.links :: l.entity.kind == kind && l.entity.identifier == identifier
  }

  /** Some call of the task was linked to the entity. */
  predicate Touched(log: seq<Call>, task: nat, kind: string, identifier: string) {
    exists i :: 0 <= i < |log| && log[i].task == task && LinkedTo(log[i], kind, identifier)
  }

  lemma {:induction false} CallRowsCount(log: seq<Call>, ids: seq<nat>, task: nat, tool: string)
    requires task in ids
    ensures multiset(CallRows(log, ids))[ActionRow(task, tool)] == Calls(log, task, tool)
    ensures forall r | r in CallRows(log, ids) :: r.ActionRow?
  {
    if log != [] { CallRowsCount(log[..|log| - 1], ids, task, tool); }
  }

  lemma {:induction false} LinkRowsName(task: nat, links: seq<Link>, r: Row)
    ensures r in LinkRows(task, links) <==>
      exists l | l in links :: r == EntityRow(task, l.entity.kind, l.entity.identifier)
  {
    if links != [] {
      var n := |links| - 1;
      LinkRowsName(task, links[..n], r);
      assert links == links[..n] + [links[n]];
    }
  }

  lemma TouchedNext(before: seq<Call>, c: Call, task: nat, kind: string, identifier: string)
    ensures Touched(before + [c], task, kind, identifier) <==>
      Touched(before, task, kind, identifier) || (c.task == task && LinkedTo(c, kind, identifier))
  {
    var log := before + [c];
    if Touched(before, task, kind, identifier) {
      var i :| 0 <= i < |before| && before[i].task == task && LinkedTo(before[i], kind, identifier);
      assert log[i].task == task && LinkedTo(log[i], kind, identifier);
    }
    if c.task == task && LinkedTo(c, kind, identifier) {
      assert log[|before|].task == task && LinkedTo(log[|before|], kind, identifier);
    }
  }

  lemma {:induction false} TouchRowsName(log: seq<Call>, ids: seq<nat>, r: Row)
    ensures r in TouchRows(log, ids) <==>
      r.EntityRow? && r.task in ids && Touched(log, r.task, r.kind, r.identifier)
  {
    if log != [] {
      var front, c := log[..|log| - 1], log[|log| - 1];
      assert log == front + [c];
      TouchRowsName(front, ids, r);
      LinkRowsName(c.task, c.links, r);
      if r.EntityRow? { TouchedNext(front, c, r.task, r.kind, r.identifier); }
    }
  }

  lemma {:induction false} NamedRows(rows: seq<Row>, task: nat, kind: string, identifier: string)
    ensures identifier in Named(rows, task, kind) <==> EntityRow(task, kind, identifier) in rows
  {
    if rows != [] {
      var n := |rows| - 1;
      NamedRows(rows[..n], task, kind, identifier);
      assert rows == rows[..n] + [rows[n]];
    }
  }

  /** In whatever order the database returns the rows, they count calls and name what they touched. */
  lemma RowsReportTheLog(nodes: seq<Node>, edges: seq<Edge>, log: seq<Call>, ids: seq<nat>, rows: seq<Row>, task: nat)
    requires Index(nodes, edges, log) && task in ids
    requires multiset(rows) == multiset(Expansion(nodes, edges, ids))
    ensures forall tool: string :: multiset(rows)[ActionRow(task, tool)] == Calls(log, task, tool)
    ensures forall kind, identifier :: identifier in Named(rows, task, kind) <==> Touched(log, task, kind, identifier)
  {
    ExpansionIsTheLog(nodes, edges, log, ids);
    var scan := CallRows(log, ids) + TouchRows(log, ids);
    assert multiset(scan) == multiset(CallRows(log, ids)) + multiset(TouchRows(log, ids));
    forall tool: string
      ensures multiset(rows)[ActionRow(task, tool)] == Calls(log, task, tool)
    {
      CallRowsCount(log, ids, task, tool);
      TouchRowsName(log, ids, ActionRow(task, tool));
    }
    forall kind, identifier
      ensures identifier in Named(rows, task, kind) <==> Touched(log, task, kind, identifier)
    {
      var r := EntityRow(task, kind, identifier);
      NamedRows(rows, task, kind, identifier);
      CallRowsCount(log, ids, task, "");
      TouchRowsName(log, ids, r);
      assert r in rows <==> r in multiset(rows);
      assert r in scan <==> r in multiset(scan);
    }
  }

  lemma CountsReport(counts: map<string, nat>, rows: seq<Row>, log: seq<Call>, task: nat, tool: string)
    requires CountsRows(counts, rows, task)
    requires multiset(rows)[ActionRow(task, tool)] == Calls(log, task, tool)
    ensures CountOf(counts, tool) == Calls(log, task, tool)
  {
  }

  lemma CutLosesOnlyTheRest(s: seq<string>, n: nat)
    requires forall i, j :: 0 <= i < j < |s| ==> s[i] != s[j]
    ensures |Cut(s, n)| <= n && (|Cut(s, n)| < n ==> Cut(s, n) == s)
    ensures forall x | x in Cut(s, n) :: x in s
    ensures forall i, j :: 0 <= i < j < |Cut(s, n)| ==> Cut(s, n)[i] != Cut(s, n)[j]
  {
  }

  /**
   What a recall prints about a task: for each tool it used, the number of recorded
   calls; every API and subagent it called; and the files it touched, each once, all
   of them unless there are more than eight.
   */
  lemma RecallReportsTheLog(nodes: seq<Node>, edges: seq<Edge>, log: seq<Call>, ids: seq<nat>, rows: seq<Row>, b: Block)
    requires Index(nodes, edges, log) && b.task in ids
    requires multiset(rows) == multiset(Expansion(nodes, edges, ids)) && BlockOk(b, rows, b.task)
    ensures forall tool: string :: CountOf(b.counts, tool) == Calls(log, b.task, tool)
    ensures forall x :: x in b.apis <==> Touched(log, b.task, "api", x)
    ensures forall x :: x in b.subagents <==> Touched(log, b.task, "subagent", x)
    ensures forall x | x in b.files :: Touched(log, b.task, "file", x)
    ensures |b.files| < 8 ==> forall x | Touched(log, b.task, "file", x) :: x in b.files
    ensures |b.files| <= 8 && forall i, j :: 0 <= i < j < |b.files| ==> b.files[i] != b.files[j]
  {
    RowsReportTheLog(nodes, edges, log, ids, rows, b.task);
    forall tool: string
      ensures CountOf(b.counts, tool) == Calls(log, b.task, tool)
    {
      CountsReport(b.counts, rows, log, b.task, tool);
    }
    CutLosesOnlyTheRest(FirstOnly(Named(rows, b.task, "file")), FILE_LIMIT);
  }

  // ----------------------------------------------------------------- entity history

  /** The five-way join: the entity, an edge into it, its action, an edge into that, its task. */
  ghost predicate Hit(nodes: seq<Node>, edges: seq<Edge>, userId: int, kind: string, identifier: string, task: nat) {
    && task < |nodes| && nodes[task].TaskNode? && nodes[task].userId == userId
    && exists e, f ::
         && e in edges && f in edges
         && e.target < |nodes| && nodes[e.target] == EntityNode(kind, identifier)
         && e.source == f.target && f.source == task
  }

  lemma {:induction false} CallEdgesPresent(log: seq<Call>, i: nat)
    requires i < |log|
    ensures Edge(log[i].task, log[i].action, Executed, 1) in EdgesOf(log)
    ensures forall l | l in log[i].links :: Edge(log[i].action, l.id, l.entity.edge, 1) in EdgesOf(log)
  {
    var n := |log| - 1;
    if i < n {
      CallEdgesPresent(log[..n], i);
    } else {
      LinkEdgesFrom(log[n].action, log[n].links);
      forall l | l in log[n].links
        ensures Edge(log[n].action, l.id, l.entity.edge, 1) in LinkEdges(log[n].action, log[n].links)
      {
        var k :| 0 <= k < |log[n].links| && log[n].links[k] == l;
        assert LinkEdges(log[n].action, log[n].links)[k] == Edge(log[n].action, l.id, l.entity.edge, 1);
      }
    }
  }

  /** Both edges of a hit belong to one call. */
  lemma HitIsACall(nodes: seq<Node>, edges: seq<Edge>, log: seq<Call>, userId: int, kind: string, identifier: string,
          task: nat)
    requires Index(nodes, edges, log) && Hit(nodes, edges, userId, kind, identifier, task)
    ensures Touched(log, task, kind, identifier)
  {
    var e, f :|
      && e in edges && f in edges
      && e.target < |nodes| && nodes[e.target] == EntityNode(kind, identifier)
      && e.source == f.target && f.source == task;
    SameEdges(edges, log);
    var i := EdgeOrigin(log, e);
    var j := EdgeOrigin(log, f);
    assert CallOk(nodes, log[i]) && CallOk(nodes, log[j]);
    var l :| l in log[i].links && e == Edge(log[i].action, l.id, l.entity.edge, 1);
    assert LinkOk(nodes, l);
    assert f == Edge(log[j].task, log[j].action, Executed, 1);
    assert i == j;
    assert LinkedTo(log[i], kind, identifier);
  }

  /** The join finds a task exactly when a scan of the log does. */
  lemma HitExactlyWhenTouched(nodes: seq<Node>, edges: seq<Edge>, log: seq<Call>, userId: int, kind: string,
          identifier: string, task: nat)
    requires Index(nodes, edges, log)
    ensures Hit(nodes, edges, userId, kind, identifier, task) <==>
      && task < |nodes| && nodes[task].TaskNode? && nodes[task].userId == userId
      && Touched(log, task, kind, identifier)
  {
    if Hit(nodes, edges, userId, kind, identifier, task) {
      HitIsACall(nodes, edges, log, userId, kind, identifier, task);
    }
    if task < |nodes| && nodes[task].TaskNode? && nodes[task].userId == userId && Touched(log, task, kind, identifier) {
      var i :| 0 <= i < |log| && log[i].task == task && LinkedTo(log[i], kind, identifier);
      var l :| l in log[i].links && l.entity.kind == kind && l.entity.identifier == identifier;
      assert CallOk(nodes, log[i]) && LinkOk(nodes, l);
      CallEdgesPresent(log, i);
      SameEdges(edges, log);
      assert Edge(log[i].action, l.id, l.entity.edge, 1) in edges && Edge(task, log[i].action, Executed, 1) in edges;
    }
  }

  /** `SELECT DISTINCT properties, created_at ...`: two tasks alike in every column are one row. */
  ghost function Hits(nodes: seq<Node>, edges: seq<Edge>, userId: int, kind: string, identifier: string): set<Node> {
    set t | 0 <= t < |nodes| && Hit(nodes, edges, userId, kind, identifier, t) :: nodes[t]
  }

  /** `ORDER BY created_at DESC LIMIT 10`: the order among equal times is the database's choice. */
  ghost predicate Newest(all: set<Node>, answer: seq<Node>)
    requires forall n | n in all :: n.TaskNode?
  {
    && |answer| == (if |all| < SEARCH_LIMIT then |all| else SEARCH_LIMIT)
    && (forall n | n in answer :: n in all)
    && (forall i, j :: 0 <= i < j < |answer| ==> answer[i] != answer[j] && answer[i].createdAt >= answer[j].createdAt)
    && (forall n, m | n in all && n !in answer && m in answer :: m.createdAt >= n.createdAt)
  }

  lemma DistinctFill(all: set<Node>, answer: seq<Node>)
    requires |answer| == |all| && forall n | n in answer :: n in all
    requires forall i, j :: 0 <= i < j < |answer| ==> answer[i] != answer[j]
    ensures forall n | n in all :: n in answer
  {
    var members := set n | n in answer;
    DistinctSize(answer);
    if exists n :: n in all && n !in answer {
      var n :| n in all && n !in answer;
      SubsetSize(members, all - {n});
    }
  }

  lemma {:induction false} DistinctSize(s: seq<Node>)
    requires forall i, j :: 0 <= i < j < |s| ==> s[i] != s[j]
    ensures |set n | n in s| == |s|
  {
    if s != [] {
      var k := |s| - 1;
      DistinctSize(s[..k]);
      assert (set n | n in s) == (set n | n in s[..k]) + {s[k]};
    }
  }

  lemma {:induction false} SubsetSize(a: set<Node>, b: set<Node>)
    requires a <= b
    ensures |a| <= |b|
  {
    if a != {} {
      var n :| n in a;
      SubsetSize(a - {n}, b - {n});
    }
  }

  /** The task is not newer than any of these. */
  predicate NoneOlder(n: Node, answer: seq<Node>)
    requires n.TaskNode?
  {
    forall m | m in answer :: m.TaskNode? && m.createdAt >= n.createdAt
  }

  /**
   Entity history is a scan of the log: it lists only tasks of that user that touched
   the entity, and all of them when fewer than ten; otherwise no task left out is newer
   than one listed.
   */
  lemma HistoryIsTheLog(
      nodes: seq<Node>, edges: seq<Edge>, log: seq<Call>, userId: int, kind: string, identifier: string,
      answer: seq<Node>)
    requires Index(nodes, edges, log)
    requires Newest(Hits(nodes, edges, userId, kind, identifier), answer)
    ensures forall n | n in answer :: exists t ::
      0 <= t < |nodes| && nodes[t] == n && n.TaskNode? && n.userId == userId && Touched(log, t, kind, identifier)
    ensures
      forall t | 0 <= t < |nodes| && nodes[t].TaskNode? ::
        nodes[t].userId == userId && Touched(log, t, kind, identifier) ==>
        nodes[t] in answer || (|answer| == 10 && NoneOlder(nodes[t], answer))
  {
    var all := Hits(nodes, edges, userId, kind, identifier);
    forall t | 0 <= t < |nodes|
      ensures Hit(nodes, edges, userId, kind, identifier, t) <==>
        nodes[t].TaskNode? && nodes[t].userId == userId && Touched(log, t, kind, identifier)
    {
      HitExactlyWhenTouched(nodes, edges, log, userId, kind, identifier, t);
    }
    if |all| < SEARCH_LIMIT { DistinctFill(all, answer); }
  }
}
