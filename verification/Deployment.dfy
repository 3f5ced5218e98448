/**
 From the edited graph description to the channels: when the runtime can build what the editor made, and
 that renaming a node does not change the answer.
 */
module Deployment {
  import opened Prelude
  import opened ComponentApi
  import Graph
  import Wiring

  /** An edge as the construction of channels reads it: the index of an array port and the metadata play no part. */
  function WireEdge(e: Graph.Edge): Wiring.Edge {
    Wiring.Edge(Wiring.Endpoint(e.source.process, e.source.port), e.data,
                Wiring.Endpoint(e.target.process, e.target.port))
  }

  function WireEdges(edges: seq<Graph.Edge>): seq<Wiring.Edge> {
    seq(|edges|, i requires 0 <= i < |edges| => WireEdge(edges[i]))
  }

  function Deployed(name: string, d: Graph.Doc, inports: map<string, Wiring.Endpoint>,
      outports: map<string, Wiring.Endpoint>): Wiring.Graph {
    Wiring.Graph(name, map n | n in d.nodes :: d.nodes[n].component, WireEdges(d.edges), inports, outports)
  }

  /** An edge without data and without a source: what the editor makes of an empty initial packet. */
  predicate Sourceless(e: Graph.Edge) {
    e.data.None? && e.source.process == ""
  }

  ghost predicate SomeSourceless(edges: seq<Graph.Edge>) {
    exists i :: 0 <= i < |edges| && Sourceless(edges[i])
  }

  /** No edge's target has more initial packets than a channel has slots. */
  ghost predicate PacketsFit(edges: seq<Graph.Edge>) {
    forall i :: 0 <= i < |edges| && edges[i].data.None? ==>
      |Wiring.IipsFor(WireEdges(edges), WireEdge(edges[i]).target)| <= PROCESSEDGE_BUFSIZE
  }

  // ----- closed graphs -----

  /** The first of the edges into a target that has one. */
  lemma FirstInto(links: seq<Wiring.Edge>, key: Wiring.Endpoint) returns (k: nat)
    requires Wiring.Targeted(links, key)
    ensures k < |links| && links[k].target == key && !Wiring.Targeted(links[..k], key)
  {
    var before := links[..|links| - 1];
    Wiring.TargetedLast(links, key);
    if Wiring.Targeted(before, key) {
      k := FirstInto(before, key);
      assert links[..k] == before[..k];
    } else {
      k := |links| - 1;
    }
  }

  /** A link that fits bounds the packets of its target. */
  lemma FittingBounds(edges: seq<Wiring.Edge>, processes: set<string>, key: Wiring.Endpoint)
    requires var links := Wiring.RealEdges(edges);
      Wiring.AllFit(edges, processes, links, |links|) && Wiring.Targeted(links, key)
    ensures |Wiring.IipsFor(edges, key)| <= PROCESSEDGE_BUFSIZE
  {
    var links := Wiring.RealEdges(edges);
    Wiring.AllFitAt(edges, processes, links, |links|);
    var k := FirstInto(links, key);
    assert Wiring.EdgeFits(edges, processes, links, k);
  }

  /** Real edges are those without data, wherever they stand. */
  lemma RealEdgeIs(edges: seq<Graph.Edge>, i: nat)
    requires i < |edges| && edges[i].data.None?
    ensures var links := Wiring.RealEdges(WireEdges(edges));
      exists k :: 0 <= k < |links| && links[k] == WireEdge(edges[i])
  {
    Wiring.RealEdgesMembers(WireEdges(edges));
    assert WireEdges(edges)[i] in WireEdges(edges);
    assert WireEdge(edges[i]) in Wiring.RealEdges(WireEdges(edges));
  }

  lemma RealEdgeFrom(edges: seq<Graph.Edge>, k: nat) returns (i: nat)
    requires k < |Wiring.RealEdges(WireEdges(edges))|
    ensures i < |edges| && edges[i].data.None? && Wiring.RealEdges(WireEdges(edges))[k] == WireEdge(edges[i])
  {
    Wiring.RealEdgesMembers(WireEdges(edges));
    assert Wiring.RealEdges(WireEdges(edges))[k] in WireEdges(edges);
    i :| 0 <= i < |edges| && WireEdges(edges)[i] == Wiring.RealEdges(WireEdges(edges))[k];
  }

  lemma ClosedFits(name: string, d: Graph.Doc)
    requires Graph.Closed(d) && !SomeSourceless(d.edges) && PacketsFit(d.edges)
    ensures Wiring.EdgesFit(Deployed(name, d, map[], map[]))
  {
    var g := Deployed(name, d, map[], map[]);
    var links := Wiring.RealEdges(g.edges);
    forall k | 0 <= k < |links| ensures Wiring.EdgeFits(g.edges, Wiring.Processes(g), links, k) {
      var i := RealEdgeFrom(d.edges, k);
      assert !Sourceless(d.edges[i]);
    }
    Wiring.AllFitAt(g.edges, Wiring.Processes(g), links, |links|);
  }

  lemma FitsClosed(name: string, d: Graph.Doc)
    requires "" !in d.nodes && Wiring.EdgesFit(Deployed(name, d, map[], map[]))
    ensures !SomeSourceless(d.edges) && PacketsFit(d.edges)
  {
    var g := Deployed(name, d, map[], map[]);
    var links := Wiring.RealEdges(g.edges);
    Wiring.AllFitAt(g.edges, Wiring.Processes(g), links, |links|);
    forall i | 0 <= i < |d.edges| && d.edges[i].data.None?
      ensures !Sourceless(d.edges[i])
        && |Wiring.IipsFor(g.edges, WireEdge(d.edges[i]).target)| <= PROCESSEDGE_BUFSIZE
    {
      RealEdgeIs(d.edges, i);
      var k :| 0 <= k < |links| && links[k] == WireEdge(d.edges[i]);
      assert Wiring.EdgeFits(g.edges, Wiring.Processes(g), links, k);
      FittingBounds(g.edges, Wiring.Processes(g), WireEdge(d.edges[i]).target);
    }
  }

  /**
   A closed graph without ports of its own can be built exactly when no empty initial packet was added to
   it and no port that an edge leads to has more initial packets than a channel has slots.
   */
  lemma ClosedDeploys(name: string, d: Graph.Doc)
    requires Graph.Closed(d) && "" !in d.nodes
    ensures Wiring.Consistent(Deployed(name, d, map[], map[])) <==> !SomeSourceless(d.edges) && PacketsFit(d.edges)
  {
    if !SomeSourceless(d.edges) && PacketsFit(d.edges) {
      ClosedFits(name, d);
    }
    if Wiring.EdgesFit(Deployed(name, d, map[], map[])) {
      FitsClosed(name, d);
    }
  }

  // ----- empty packets -----

  /** An edge without a source has no process to come from. */
  lemma SourcelessUnfit(name: string, d: Graph.Doc, inports: map<string, Wiring.Endpoint>,
      outports: map<string, Wiring.Endpoint>)
    requires "" !in d.nodes && SomeSourceless(d.edges)
    ensures !Wiring.Consistent(Deployed(name, d, inports, outports))
  {
    var g := Deployed(name, d, inports, outports);
    var links := Wiring.RealEdges(g.edges);
    var i :| 0 <= i < |d.edges| && Sourceless(d.edges[i]);
    RealEdgeIs(d.edges, i);
    var k :| 0 <= k < |links| && links[k] == WireEdge(d.edges[i]);
    assert |Wiring.Boundary(g, Wiring.Inward)| > 0 && |Wiring.Boundary(g, Wiring.Outward)| > 0;
    assert !Wiring.EdgeFits(g.edges, Wiring.Processes(g), links, k);
    Wiring.AllFitAt(g.edges, Wiring.Processes(g), links, |links|);
  }

  /** An initial packet with empty data, which the editor accepts, keeps the graph from being built. */
  method EmptyPacketBlocks(graph: Graph.Graph, to: Graph.Spec, metadata: string,
      library: seq<Wiring.ComponentSpec>, inports: map<string, Wiring.Endpoint>,
      outports: map<string, Wiring.Endpoint>)
    returns (built: Wiring.Built)
    requires "" !in graph.nodes
    modifies graph
    ensures !built.Ready?
  {
    graph.AddInitialIp("", to, metadata);
    var d := graph.Value();
    assert Sourceless(d.edges[|d.edges| - 1]);
    SourcelessUnfit(graph.name, d, inports, outports);
    ghost var walk;
    built, walk := Wiring.Construct(Deployed(graph.name, d, inports, outports), library);
  }

  // ----- renaming -----

  function RenamedEnd(u: Wiring.Endpoint, from: string, into: string): Wiring.Endpoint {
    u.(process := Graph.Subst(u.process, from, into))
  }

  /** The initial packets follow their target to its new name. */
  lemma {:induction false} PacketsRenamed(edges: seq<Graph.Edge>, from: string, into: string, key: Wiring.Endpoint)
    requires !Graph.Mentioned(edges, into) && key.process != into
    ensures Wiring.IipsFor(WireEdges(Graph.RenameEdges(edges, from, into)), RenamedEnd(key, from, into))
      == Wiring.IipsFor(WireEdges(edges), key)
  {
    if edges != [] {
      var n := |edges| - 1;
      var before, e, renamed := edges[..n], edges[n], Graph.RenameEdges(edges, from, into);
      assert forall i :: 0 <= i < n ==> before[i] == edges[i];
      PacketsRenamed(before, from, into, key);
      assert !Graph.Touches(e, into);
      assert WireEdges(edges)[..n] == WireEdges(before);
      assert WireEdges(renamed)[..n] == WireEdges(Graph.RenameEdges(before, from, into));
      assert WireEdges(renamed)[n].target == RenamedEnd(WireEdge(e).target, from, into);
    }
  }

  lemma RenameFits(edges: seq<Graph.Edge>, from: string, into: string)
    requires !Graph.Mentioned(edges, into) && from != "" && into != ""
    ensures var renamed := Graph.RenameEdges(edges, from, into);
      (SomeSourceless(renamed) <==> SomeSourceless(edges)) && (PacketsFit(renamed) <==> PacketsFit(edges))
  {
    var renamed := Graph.RenameEdges(edges, from, into);
    forall i | 0 <= i < |edges|
      ensures Sourceless(renamed[i]) == Sourceless(edges[i]) && renamed[i].data == edges[i].data
      ensures Wiring.IipsFor(WireEdges(renamed), WireEdge(renamed[i]).target)
        == Wiring.IipsFor(WireEdges(edges), WireEdge(edges[i]).target)
    {
      assert !Graph.Touches(edges[i], into);
      PacketsRenamed(edges, from, into, WireEdge(edges[i]).target);
    }
    if SomeSourceless(edges) {
      var i :| 0 <= i < |edges| && Sourceless(edges[i]);
      assert Sourceless(renamed[i]);
    }
  }

  /** Renaming a node to an unused name leaves a closed graph as buildable as it was. */
  lemma RenameDeploys(name: string, d: Graph.Doc, from: string, into: string)
    requires Graph.Closed(d) && "" !in d.nodes && from in d.nodes && into !in d.nodes && into != ""
    ensures Wiring.Consistent(Deployed(name, Graph.Rename(d, from, into), map[], map[]))
      <==> Wiring.Consistent(Deployed(name, d, map[], map[]))
  {
    Graph.ClosedMentions(d, into);
    Graph.RenameClosed(d, from, into);
    RenameFits(d.edges, from, into);
    ClosedDeploys(name, d);
    ClosedDeploys(name, Graph.Rename(d, from, into));
  }
}
