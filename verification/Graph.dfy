/** The edits of a graph description (src/graph.rs): nodes by name, edges in a list, initial packets among the edges. */
module Graph {
  import opened Prelude

  datatype Node = Node(component: string, metadata: string)

  datatype Spec = Spec(process: string, port: string, index: Option<string>)

  datatype Edge = Edge(source: Spec, data: Option<string>, target: Spec, metadata: string)

  /** What `remove_node` reports of an edge it dropped. */
  datatype RemovedEdge = RemovedEdge(graph: string, src: Spec, tgt: Spec)

  datatype Error = WrongGraph | AlreadyExists | NotFound

  datatype Result<T> = Ok(value: T) | Err(error: Error)

  datatype Doc = Doc(nodes: map<string, Node>, edges: seq<Edge>)

  // ----- substitution -----

  function Subst(x: string, from: string, into: string): string {
    if x == from then into else x
  }

  function RenameEdge(e: Edge, from: string, into: string): Edge {
    e.(source := e.source.(process := Subst(e.source.process, from, into)),
       target := e.target.(process := Subst(e.target.process, from, into)))
  }

  function RenameEdges(edges: seq<Edge>, from: string, into: string): seq<Edge> {
    seq(|edges|, i requires 0 <= i < |edges| => RenameEdge(edges[i], from, into))
  }

  function Rename(d: Doc, from: string, into: string): Doc
    requires from in d.nodes
  {
    Doc((d.nodes - {from})[into := d.nodes[from]], RenameEdges(d.edges, from, into))
  }

  predicate Touches(e: Edge, n: string) {
    e.source.process == n || e.target.process == n
  }

  predicate Mentioned(edges: seq<Edge>, n: string) {
    exists i :: 0 <= i < |edges| && Touches(edges[i], n)
  }

  /** Every edge ends at nodes of the graph; initial packets come from the nameless process. */
  ghost predicate Closed(d: Doc) {
    forall i :: 0 <= i < |d.edges| ==>
      (d.edges[i].source.process in d.nodes || d.edges[i].source.process == "") && d.edges[i].target.process in d.nodes
  }

  /** Renaming to an unused name is the substitution: same nodes under substituted names, nothing merged or lost. */
  lemma RenameSubstitutes(d: Doc, from: string, into: string)
    requires from in d.nodes && into !in d.nodes
    ensures var r := Rename(d, from, into);
      && (forall x :: x in d.nodes ==> Subst(x, from, into) in r.nodes && r.nodes[Subst(x, from, into)] == d.nodes[x])
      && (forall y :: y in r.nodes ==> exists x :: x in d.nodes && Subst(x, from, into) == y)
      && |r.nodes| == |d.nodes| && |r.edges| == |d.edges|
  {
    var r := Rename(d, from, into);
    assert r.nodes.Keys == d.nodes.Keys - {from} + {into};
    forall y | y in r.nodes ensures exists x :: x in d.nodes && Subst(x, from, into) == y {
      var x := if y == into then from else y;
      assert Subst(x, from, into) == y && x in d.nodes;
    }
  }

  /** The reverse rename restores the graph exactly when no edge, dangling, already mentioned the new name. */
  lemma RenameUndone(d: Doc, from: string, into: string)
    requires from in d.nodes && into !in d.nodes
    ensures Rename(Rename(d, from, into), into, from) == d <==> !Mentioned(d.edges, into)
  {
    var r := Rename(d, from, into);
    var back := Rename(r, into, from);
    assert back.nodes == d.nodes;
    if Mentioned(d.edges, into) {
      var i :| 0 <= i < |d.edges| && Touches(d.edges[i], into);
      assert back.edges[i] != d.edges[i];
    } else {
      forall i | 0 <= i < |d.edges| ensures back.edges[i] == d.edges[i] {
        assert !Touches(d.edges[i], into);
      }
    }
  }

  /** In a closed graph no edge mentions an unused, non-empty name. */
  lemma ClosedMentions(d: Doc, n: string)
    requires Closed(d) && n !in d.nodes && n != ""
    ensures !Mentioned(d.edges, n)
  {
  }

  // ----- removal -----

  function Kept(edges: seq<Edge>, n: string): seq<Edge> {
    if edges == [] then []
    else
      var before, last := Kept(edges[..|edges| - 1], n), edges[|edges| - 1];
      if Touches(last, n) then before else before + [last]
  }

  function Dropped(edges: seq<Edge>, n: string): seq<Edge> {
    if edges == [] then []
    else
      var before, last := Dropped(edges[..|edges| - 1], n), edges[|edges| - 1];
      if Touches(last, n) then before + [last] else before
  }

  function Reports(graph: string, dropped: seq<Edge>): seq<RemovedEdge> {
    seq(|dropped|, i requires 0 <= i < |dropped| => RemovedEdge(graph, dropped[i].source, dropped[i].target))
  }

  function Remove(d: Doc, n: string): Doc {
    Doc(d.nodes - {n}, Kept(d.edges, n))
  }

  /** a is what is left of b after dropping some elements: the order is kept. */
  predicate Subsequence(a: seq<Edge>, b: seq<Edge>) {
    if a == [] then true
    else if b == [] then false
    else Subsequence(a, b[..|b| - 1]) || (a[|a| - 1] == b[|b| - 1] && Subsequence(a[..|a| - 1], b[..|b| - 1]))
  }

  lemma RemoveSorts(edges: seq<Edge>, n: string)
    ensures forall e :: e in Kept(edges, n) <==> e in edges && !Touches(e, n)
    ensures forall e :: e in Dropped(edges, n) <==> e in edges && Touches(e, n)
  {
    if edges != [] {
      assert edges == edges[..|edges| - 1] + [edges[|edges| - 1]];
    }
  }

  lemma SubsequenceSnoc(a: seq<Edge>, b: seq<Edge>, x: Edge)
    requires Subsequence(a, b)
    ensures Subsequence(a, b + [x]) && Subsequence(a + [x], b + [x])
  {
    assert (b + [x])[..|b|] == b && (a + [x])[..|a|] == a;
  }

  lemma {:induction false} RemoveInOrder(edges: seq<Edge>, n: string)
    ensures Subsequence(Kept(edges, n), edges) && Subsequence(Dropped(edges, n), edges)
  {
    if edges != [] {
      var before, last := edges[..|edges| - 1], edges[|edges| - 1];
      assert edges == before + [last];
      RemoveInOrder(before, n);
      SubsequenceSnoc(Kept(before, n), before, last);
      SubsequenceSnoc(Dropped(before, n), before, last);
    }
  }

  lemma {:induction false} RemoveCounts(edges: seq<Edge>, n: string)
    ensures multiset(edges) == multiset(Kept(edges, n)) + multiset(Dropped(edges, n))
  {
    if edges != [] {
      RemoveCounts(edges[..|edges| - 1], n);
      assert edges == edges[..|edges| - 1] + [edges[|edges| - 1]];
    }
  }

  /** Removal splits the edges into the kept and the reported, each in its old order, none lost or doubled. */
  lemma RemovePartitions(edges: seq<Edge>, n: string)
    ensures multiset(edges) == multiset(Kept(edges, n)) + multiset(Dropped(edges, n))
    ensures Subsequence(Kept(edges, n), edges) && Subsequence(Dropped(edges, n), edges)
    ensures forall e :: e in Kept(edges, n) <==> e in edges && !Touches(e, n)
    ensures forall e :: e in Dropped(edges, n) <==> e in edges && Touches(e, n)
  {
    RemoveCounts(edges, n);
    RemoveInOrder(edges, n);
    RemoveSorts(edges, n);
  }

  lemma {:induction false} KeptRenamed(edges: seq<Edge>, from: string, into: string)
    ensures |Kept(RenameEdges(edges, from, into), into)| <= |Kept(edges, from)|
    ensures Kept(RenameEdges(edges, from, into), into) == Kept(edges, from) <==>
      forall i :: 0 <= i < |edges| && Touches(edges[i], into) ==> Touches(edges[i], from)
    ensures Kept(RenameEdges(edges, from, into), into) != Kept(edges, from) ==>
      |Kept(RenameEdges(edges, from, into), into)| < |Kept(edges, from)|
    decreases |edges|
  {
    if edges != [] {
      var before, last := edges[..|edges| - 1], edges[|edges| - 1];
      var renamed := RenameEdges(edges, from, into);
      KeptRenamed(before, from, into);
      assert renamed[..|renamed| - 1] == RenameEdges(before, from, into);
      assert renamed[|renamed| - 1] == RenameEdge(last, from, into);
      assert edges == before + [last];
      if !Touches(last, from) {
        assert RenameEdge(last, from, into) == last;
      }
    }
  }

  /**
   Renaming and then removing the new name is removing the old name, exactly when every edge that
   already mentioned the new name also touched the old node.
   */
  lemma RenameThenRemove(d: Doc, from: string, into: string)
    requires from in d.nodes && into !in d.nodes
    ensures Remove(Rename(d, from, into), into) == Remove(d, from) <==>
      forall i :: 0 <= i < |d.edges| && Touches(d.edges[i], into) ==> Touches(d.edges[i], from)
  {
    KeptRenamed(d.edges, from, into);
    assert (Rename(d, from, into).nodes - {into}) == d.nodes - {from};
  }

  /** A graph the editor accepts: nodes "a" and "c", and an edge from "c" to an absent "b". */
  const DANGLING := Doc(
    map["a" := Node("Repeat", ""), "c" := Node("Repeat", "")],
    [Edge(Spec("c", "OUT", None), None, Spec("b", "IN", None), "")])

  /** There neither law holds: the reverse rename moves the edge to "a", and removing "b" takes the edge along. */
  lemma DanglingEdgeCaptured()
    ensures Rename(Rename(DANGLING, "a", "b"), "b", "a").edges[0].target.process == "a"
    ensures Rename(Rename(DANGLING, "a", "b"), "b", "a") != DANGLING
    ensures Remove(Rename(DANGLING, "a", "b"), "b").edges == [] && Remove(DANGLING, "a").edges == DANGLING.edges
  {
    var e := DANGLING.edges[0];
    assert "a" != "b" && "c" != "b" && "c" != "a" by {
      assert "a"[0] != "b"[0] && "c"[0] != "b"[0] && "c"[0] != "a"[0];
    }
    assert RenameEdges(DANGLING.edges, "a", "b") == [e];
    assert [e][..0] == [] && Touches(e, "b") && !Touches(e, "a");
    RenameUndone(DANGLING, "a", "b");
  }

  lemma RenameClosed(d: Doc, from: string, into: string)
    requires Closed(d) && from in d.nodes && into !in d.nodes
    ensures Closed(Rename(d, from, into))
  {
    forall i | 0 <= i < |d.edges|
      ensures var e := Rename(d, from, into).edges[i];
        (e.source.process in Rename(d, from, into).nodes || e.source.process == "")
          && e.target.process in Rename(d, from, into).nodes
    {
      assert d.edges[i].target.process in d.nodes;
    }
  }

  /** No edge dangles after a removal, and only the removed node's edges went. */
  lemma RemoveClosed(d: Doc, n: string)
    requires Closed(d)
    ensures Closed(Remove(d, n))
  {
    RemoveSorts(d.edges, n);
    var kept := Kept(d.edges, n);
    forall i | 0 <= i < |kept|
      ensures (kept[i].source.process in d.nodes - {n} || kept[i].source.process == "")
        && kept[i].target.process in d.nodes - {n}
    {
      assert kept[i] in kept && !Touches(kept[i], n);
      var k :| 0 <= k < |d.edges| && d.edges[k] == kept[i];
    }
  }

  // ----- initial packets, found by data and target -----

  /** The edge is an initial packet for that target, with those data if they are given. */
  predicate Carries(e: Edge, data: Option<string>, to: Spec) {
    e.data.Some? && (data.None? || e.data.value == data.value) && e.target == to
  }

  function FirstMatch(edges: seq<Edge>, data: Option<string>, to: Spec): (i: nat)
    ensures i <= |edges|
    ensures i < |edges| ==> Carries(edges[i], data, to)
    ensures forall j :: 0 <= j < i ==> !Carries(edges[j], data, to)
  {
    if edges == [] || Carries(edges[0], data, to) then 0
    else
      var i := 1 + FirstMatch(edges[1..], data, to);
      assert forall j :: 1 <= j < i ==> edges[j] == edges[1..][j - 1];
      i
  }

  function RemoveMatch(edges: seq<Edge>, data: Option<string>, to: Spec): seq<Edge> {
    var i := FirstMatch(edges, data, to);
    if i == |edges| then edges else edges[..i] + edges[i + 1..]
  }

  /** An initial packet as an edge; an empty one keeps no data and so is an edge without a source. */
  function Packet(data: string, to: Spec, metadata: string): Edge {
    Edge(Spec("", "", Some("")), if data != "" then Some(data) else None, to, metadata)
  }

  lemma FirstMatchAppend(edges: seq<Edge>, e: Edge, data: Option<string>, to: Spec)
    ensures FirstMatch(edges + [e], data, to) ==
      if FirstMatch(edges, data, to) < |edges| then FirstMatch(edges, data, to)
      else if Carries(e, data, to) then |edges| else |edges| + 1
  {
    var i, k := FirstMatch(edges, data, to), FirstMatch(edges + [e], data, to);
    if i < |edges| {
      assert Carries((edges + [e])[i], data, to);
      assert k < |edges| ==> Carries(edges[k], data, to);
    } else {
      assert forall j :: 0 <= j < |edges| ==> !Carries((edges + [e])[j], data, to);
      assert (edges + [e])[|edges|] == e;
    }
  }

  function Packets(edges: seq<Edge>): seq<(Option<string>, Spec)> {
    seq(|edges|, i requires 0 <= i < |edges| => (edges[i].data, edges[i].target))
  }

  lemma PacketsConcat(a: seq<Edge>, b: seq<Edge>)
    ensures Packets(a + b) == Packets(a) + Packets(b)
  {
  }

  /** Exchanging an edge for a like packet at the end keeps the packets. */
  lemma SwapPackets(a: seq<Edge>, x: Edge, b: seq<Edge>, e: Edge)
    requires x.data == e.data && x.target == e.target
    ensures multiset(Packets(a + b + [e])) == multiset(Packets(a + [x] + b))
  {
    assert Packets([x]) == Packets([e]);
    PacketsConcat(a + b, [e]);
    PacketsConcat(a, b);
    PacketsConcat(a + [x], b);
    PacketsConcat(a, [x]);
  }

  /** Appending a like packet and dropping an earlier one keeps the packets. */
  lemma DropEarlier(edges: seq<Edge>, i: nat, e: Edge)
    requires i < |edges| && edges[i].data == e.data && edges[i].target == e.target
    ensures multiset(Packets((edges + [e])[..i] + (edges + [e])[i + 1..])) == multiset(Packets(edges))
  {
    var a, b := edges[..i], edges[i + 1..];
    assert (edges + [e])[..i] + (edges + [e])[i + 1..] == a + b + [e];
    assert edges == a + [edges[i]] + b;
    SwapPackets(a, edges[i], b, e);
  }

  /**
   Adding a packet and removing it again: with data, a packet is always found; the edges are back if no
   such packet was there before, and otherwise as many of each packet as before remain.
   */
  lemma AddThenRemove(edges: seq<Edge>, data: string, to: Spec, metadata: string)
    requires data != ""
    ensures var added := edges + [Packet(data, to, metadata)];
      && FirstMatch(added, Some(data), to) < |added|
      && multiset(Packets(RemoveMatch(added, Some(data), to))) == multiset(Packets(edges))
      && (FirstMatch(edges, Some(data), to) == |edges| ==> RemoveMatch(added, Some(data), to) == edges)
  {
    var e := Packet(data, to, metadata);
    FirstMatchAppend(edges, e, Some(data), to);
    var i := FirstMatch(edges, Some(data), to);
    if i < |edges| {
      DropEarlier(edges, i, e);
    } else {
      assert (edges + [e])[..|edges|] + (edges + [e])[|edges| + 1..] == edges;
    }
  }

  /** An empty packet, once added, is never found by a packet query: the search sees only what was there before. */
  lemma EmptyPacketStays(edges: seq<Edge>, to: Spec, metadata: string, data: Option<string>, target: Spec)
    ensures var added := edges + [Packet("", to, metadata)];
      RemoveMatch(added, data, target) == RemoveMatch(edges, data, target) + [Packet("", to, metadata)]
  {
    var e := Packet("", to, metadata);
    FirstMatchAppend(edges, e, data, target);
    var i := FirstMatch(edges, data, target);
    if i < |edges| {
      assert (edges + [e])[..i] + (edges + [e])[i + 1..] == edges[..i] + edges[i + 1..] + [e];
    }
  }

  // ----- the graph object -----

  class Graph {
    var name: string
    var nodes: map<string, Node>
    var edges: seq<Edge>

    constructor (name: string)
      ensures this.name == name && Value() == Doc(map[], [])
    {
      this.name, nodes, edges := name, map[], [];
    }

    function Value(): Doc
      reads this
    {
      Doc(nodes, edges)
    }

    method AddNode(graph: string, component: string, id: string, metadata: string) returns (r: Result<()>)
      modifies `nodes
      ensures r == if graph != name then Err(WrongGraph) else if id in old(nodes) then Err(AlreadyExists) else Ok(())
      ensures nodes == if r.Ok? then old(nodes)[id := Node(component, metadata)] else old(nodes)
    {
      if graph != name {
        return Err(WrongGraph);
      }
      if id in nodes {
        return Err(AlreadyExists);
      }
      nodes := nodes[id := Node(component, metadata)];
      return Ok(());
    }

    method RemoveNode(graph: string, id: string) returns (r: Result<seq<RemovedEdge>>)
      modifies `nodes, `edges
      ensures r.Ok? <==> graph == name && id in old(nodes)
      ensures r.Err? ==> r.error == (if graph != name then WrongGraph else NotFound) && Value() == old(Value())
      ensures r.Ok? ==> Value() == Remove(old(Value()), id)
      ensures r.Ok? ==> r.value == Reports(graph, Dropped(old(edges), id))
      ensures r.Ok? ==> |r.value| == |Dropped(old(edges), id)| && forall k :: 0 <= k < |r.value| ==>
        r.value[k] == RemovedEdge(graph, Dropped(old(edges), id)[k].source, Dropped(old(edges), id)[k].target)
    {
      if graph != name {
        return Err(WrongGraph);
      }
      if id !in nodes {
        return Err(NotFound);
      }
      nodes := nodes - {id};
      var removed: seq<RemovedEdge> := [];
      var retained: seq<Edge> := [];
      for i := 0 to |edges|
        invariant retained == Kept(edges[..i], id)
        invariant removed == Reports(graph, Dropped(edges[..i], id))
      {
        var e := edges[i];
        assert edges[..i + 1][..i] == edges[..i];
        if e.source.process == id || e.target.process == id {
          removed := removed + [RemovedEdge(graph, e.source, e.target)];
        } else {
          retained := retained + [e];
        }
      }
      assert edges[..|edges|] == edges;
      edges := retained;
      return Ok(removed);
    }

    method RenameNode(graph: string, from: string, into: string) returns (r: Result<()>)
      modifies `nodes, `edges
      ensures r == if graph != name then Err(WrongGraph) else if into in old(nodes) then Err(AlreadyExists)
                   else if from !in old(nodes) then Err(NotFound) else Ok(())
      ensures from in old(nodes) && r.Ok? ==> Value() == Rename(old(Value()), from, into)
      ensures r.Err? ==> Value() == old(Value())
    {
      if graph != name {
        return Err(WrongGraph);
      }
      if into in nodes {
        return Err(AlreadyExists);
      }
      if from !in nodes {
        return Err(NotFound);
      }
      var node := nodes[from];
      nodes := (nodes - {from})[into := node];
      for i := 0 to |edges|
        invariant nodes == Rename(old(Value()), from, into).nodes && |edges| == |old(edges)|
        invariant forall j :: 0 <= j < i ==> edges[j] == RenameEdge(old(edges)[j], from, into)
        invariant forall j :: i <= j < |edges| ==> edges[j] == old(edges)[j]
      {
        if edges[i].source.process == from {
          edges := edges[i := edges[i].(source := edges[i].source.(process := into))];
        }
        if edges[i].target.process == from {
          edges := edges[i := edges[i].(target := edges[i].target.(process := into))];
        }
      }
      assert edges == RenameEdges(old(edges), from, into);
      return Ok(());
    }

    method AddEdge(graph: string, e: Edge) returns (r: Result<()>)
      modifies `edges
      ensures r == if graph == name then Ok(()) else Err(WrongGraph)
      ensures edges == if r.Ok? then old(edges) + [e] else old(edges)
    {
      if graph != name {
        return Err(WrongGraph);
      }
      edges := edges + [e];
      return Ok(());
    }

    method RemoveEdge(graph: string, source: Spec, target: Spec) returns (r: Result<()>)
      modifies `edges
      ensures r.Ok? <==> graph == name && exists e :: e in old(edges) && e.source == source && e.target == target
      ensures r.Err? ==> r.error == if graph != name then WrongGraph else NotFound
      ensures r.Err? ==> edges == old(edges)
      ensures r.Ok? ==> exists i ::
        && 0 <= i < |old(edges)| && old(edges)[i].source == source && old(edges)[i].target == target
        && (forall j :: 0 <= j < i ==> !(old(edges)[j].source == source && old(edges)[j].target == target))
        && edges == old(edges)[..i] + old(edges)[i + 1..]
    {
      if graph != name {
        return Err(WrongGraph);
      }
      for i := 0 to |edges|
        invariant forall j :: 0 <= j < i ==> !(edges[j].source == source && edges[j].target == target)
        invariant edges == old(edges)
      {
        if edges[i].source == source && edges[i].target == target {
          edges := edges[..i] + edges[i + 1..];
          return Ok(());
        }
      }
      return Err(NotFound);
    }

    /** Takes no graph name into account. */
    method AddInitialIp(data: string, target: Spec, metadata: string)
      modifies `edges
      ensures edges == old(edges) + [Packet(data, target, metadata)]
      ensures edges == old(edges) +
        [Edge(Spec("", "", Some("")), if data == "" then None else Some(data), target, metadata)]
    {
      var stored := None;
      if |data| > 0 {
        stored := Some(data);
      }
      edges := edges + [Edge(Spec("", "", Some("")), stored, target, metadata)];
    }

    method RemoveInitialIp(data: Option<string>, target: Spec) returns (r: Result<string>)
      modifies `edges
      ensures r.Ok? <==> exists e ::
        e in old(edges) && e.data.Some? && (data.None? || e.data == data) && e.target == target
      ensures r.Err? ==> r.error == NotFound && edges == old(edges)
      ensures r.Ok? ==> FirstMatch(old(edges), data, target) < |old(edges)|
      ensures r.Ok? ==> old(edges)[FirstMatch(old(edges), data, target)].data == Some(r.value)
      ensures r.Ok? ==> (data.Some? ==> r.value == data.value) && edges == RemoveMatch(old(edges), data, target)
    {
      for i := 0 to |edges|
        invariant forall j :: 0 <= j < i ==> !Carries(edges[j], data, target)
        invariant edges == old(edges)
      {
        if edges[i].data.Some? {
          var found := edges[i].data.value;
          if data.None? || found == data.value {
            if edges[i].target == target {
              assert FirstMatch(edges, data, target) == i;
              edges := edges[..i] + edges[i + 1..];
              return Ok(found);
            }
          }
        }
      }
      return Err(NotFound);
    }
  }

  /** The edits that lead there. */
  method MakeDangling() returns (g: Graph)
    ensures fresh(g) && g.Value() == DANGLING
  {
    g := new Graph("g");
    assert "a"[0] != "c"[0];
    var added := g.AddNode("g", "Repeat", "a", "");
    added := g.AddNode("g", "Repeat", "c", "");
    added := g.AddEdge("g", Edge(Spec("c", "OUT", None), None, Spec("b", "IN", None), ""));
    assert g.nodes == DANGLING.nodes;
  }
}
