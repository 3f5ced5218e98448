/**
 The part of `Runtime::start` that turns a graph into channels: the array-port checks, the grouping of
 initial packets by target, one channel per edge with its waker and its preloaded packets, a channel
 of its own for every initial packet without an edge, and the channels of the graph's own ports.
 */
module Wiring {
  import opened Prelude
  import opened ComponentApi

  datatype Endpoint = Endpoint(process: string, port: string)

  /** An edge of the graph; with `data` it is an initial packet (IIP). */
  datatype Edge = Edge(source: Endpoint, data: Option<string>, target: Endpoint)

  datatype PortSpec = PortSpec(name: string, isArrayPort: bool)

  datatype ComponentSpec = ComponentSpec(name: string, inPorts: seq<PortSpec>, outPorts: seq<PortSpec>)

  // ----- the array-port checks -----

  datatype Side = Sources | Targets

  /** What the check finds: nothing, two uses of a port that is no array port, or an unknown process. */
  datatype Verdict = Accepted | MultipleUse | UnknownProcess

  predicate Skipped(side: Side, e: Edge) {
    e.data.Some? && (side.Sources? ==> e.source.process == "")
  }

  function Use(side: Side, e: Edge): Endpoint {
    if side.Sources? then e.source else e.target
  }

  function Ports(side: Side, c: ComponentSpec): seq<PortSpec> {
    if side.Sources? then c.outPorts else c.inPorts
  }

  /** Some component of that name declares the port, and not as an array port. */
  predicate Plain(side: Side, library: seq<ComponentSpec>, component: string, port: string) {
    exists i, j :: 0 <= i < |library| && 0 <= j < |Ports(side, library[i])|
      && library[i].name == component && Ports(side, library[i])[j].name == port
      && !Ports(side, library[i])[j].isArrayPort
  }

  /** Edge i uses an endpoint that edge j, before it, already uses. */
  predicate Clash(side: Side, edges: seq<Edge>, j: int, i: int) {
    0 <= j < i < |edges| && !Skipped(side, edges[j]) && !Skipped(side, edges[i])
      && Use(side, edges[j]) == Use(side, edges[i])
  }

  function Judge(side: Side, nodes: map<string, string>, library: seq<ComponentSpec>, u: Endpoint): Verdict {
    if u.process !in nodes then UnknownProcess
    else if Plain(side, library, nodes[u.process], u.port) then MultipleUse
    else Accepted
  }

  /** The scan of the library for one clashing use. */
  method ScanLibrary(side: Side, library: seq<ComponentSpec>, component: string, port: string) returns (plain: bool)
    ensures plain == Plain(side, library, component, port)
  {
    for i := 0 to |library|
      invariant forall a, b :: 0 <= a < i && 0 <= b < |Ports(side, library[a])| ==>
        !(library[a].name == component && Ports(side, library[a])[b].name == port
          && !Ports(side, library[a])[b].isArrayPort)
    {
      if library[i].name == component {
        var ports := Ports(side, library[i]);
        for j := 0 to |ports|
          invariant forall b :: 0 <= b < j ==> !(ports[b].name == port && !ports[b].isArrayPort)
        {
          if ports[j].name == port && !ports[j].isArrayPort {
            return true;
          }
        }
      }
    }
    return false;
  }

  /**
   One pass with the ports seen so far, per process, in a multimap. It accepts exactly when no two
   edges clash on a port that the library declares plain (or on an unknown process), and otherwise
   reports the first edge that does.
   */
  method CheckArrayPorts(side: Side, nodes: map<string, string>, edges: seq<Edge>, library: seq<ComponentSpec>)
    returns (verdict: Verdict, ghost first: nat)
    ensures verdict.Accepted? <==>
      forall j, i :: Clash(side, edges, j, i) ==> Judge(side, nodes, library, Use(side, edges[i])).Accepted?
    ensures !verdict.Accepted? ==>
      && (exists j :: Clash(side, edges, j, first)) && verdict == Judge(side, nodes, library, Use(side, edges[first]))
      && forall j, i :: Clash(side, edges, j, i) && i < first ==>
         Judge(side, nodes, library, Use(side, edges[i])).Accepted?
  {
    var known: map<string, seq<string>> := map[];
    first := 0;
    for i := 0 to |edges|
      invariant forall p, q :: (p in known && q in known[p]) <==>
        exists j :: 0 <= j < i && !Skipped(side, edges[j]) && Use(side, edges[j]) == Endpoint(p, q)
      invariant forall j, k :: Clash(side, edges, j, k) && k < i ==>
        Judge(side, nodes, library, Use(side, edges[k])).Accepted?
    {
      var e := edges[i];
      if Skipped(side, e) {
        continue;
      }
      var u := Use(side, e);
      if u.process in known {
        if u.port in known[u.process] {
          ghost var j :| 0 <= j < i && !Skipped(side, edges[j]) && Use(side, edges[j]) == Endpoint(u.process, u.port);
          assert Clash(side, edges, j, i);
          first := i;
          if u.process !in nodes {
            return UnknownProcess, first;
          }
          var plain := ScanLibrary(side, library, nodes[u.process], u.port);
          if plain {
            return MultipleUse, first;
          }
        } else {
          known := known[u.process := known[u.process] + [u.port]];
        }
      } else {
        known := known[u.process := [u.port]];
      }
    }
    return Accepted, first;
  }

  // ----- initial packets -----

  /** The initial packets for one target, as spelled, in graph order. */
  function IipsFor(edges: seq<Edge>, key: Endpoint): seq<string> {
    if edges == [] then []
    else
      var before, e := IipsFor(edges[..|edges| - 1], key), edges[|edges| - 1];
      if e.data.Some? && e.target == key then before + [e.data.value] else before
  }

  /** The map holds the initial packets of every target that has some, and nothing else. */
  ghost predicate Grouped(edges: seq<Edge>, iips: map<Endpoint, seq<string>>) {
    forall key :: (key in iips <==> IipsFor(edges, key) != []) && (key in iips ==> iips[key] == IipsFor(edges, key))
  }

  /** The packets for a target are those of the graph, each once and in its order. */
  lemma {:induction false} IipsAreTheGraphs(edges: seq<Edge>, key: Endpoint) returns (places: seq<nat>)
    ensures |places| == |IipsFor(edges, key)| && forall a, b :: 0 <= a < b < |places| ==> places[a] < places[b]
    ensures forall a :: 0 <= a < |places| ==>
      places[a] < |edges| && edges[places[a]].target == key && edges[places[a]].data == Some(IipsFor(edges, key)[a])
    ensures forall i :: 0 <= i < |edges| && edges[i].data.Some? && edges[i].target == key ==> i in places
  {
    places := [];
    if edges != [] {
      var n := |edges| - 1;
      places := IipsAreTheGraphs(edges[..n], key);
      if edges[n].data.Some? && edges[n].target == key {
        ghost var before := places;
        places := before + [n];
        assert places[|before|] == n && forall i :: i in before ==> i in places;
      }
      assert forall i :: 0 <= i < n ==> edges[..n][i] == edges[i];
    }
  }

  method GroupIips(edges: seq<Edge>) returns (iips: map<Endpoint, seq<string>>)
    ensures Grouped(edges, iips)
  {
    iips := map[];
    for i := 0 to |edges|
      invariant forall key :: key in iips <==> IipsFor(edges[..i], key) != []
      invariant forall key :: key in iips ==> iips[key] == IipsFor(edges[..i], key)
    {
      assert edges[..i + 1][..i] == edges[..i];
      if edges[i].data.Some? {
        var key := edges[i].target;
        if key !in iips {
          iips := iips[key := []];
        }
        iips := iips[key := iips[key] + [edges[i].data.value]];
      }
    }
    assert edges[..|edges|] == edges;
  }

  // ----- the plan -----

  function UpperChar(c: char): char {
    if 'a' <= c <= 'z' then (c as int - 32) as char else c
  }

  /** `to_ascii_uppercase` */
  function Upper(s: string): string {
    seq(|s|, i requires 0 <= i < |s| => UpperChar(s[i]))
  }

  /** Lower-case letters become upper-case, everything else stays; so a port written "in" is "IN" when it runs. */
  lemma UpperSpells(s: string)
    ensures |Upper(s)| == |s| && Upper("in") == "IN"
    ensures forall i :: 0 <= i < |s| ==>
      if 'a' <= s[i] <= 'z' then 'A' <= Upper(s)[i] <= 'Z' && Upper(s)[i] - 'A' == s[i] - 'a' else Upper(s)[i] == s[i]
  {
  }

  function Runtime(u: Endpoint): Endpoint {
    Endpoint(u.process, Upper(u.port))
  }

  /**
   One channel: where its packets come from and go to, the target as the graph spells it, the packets
   it starts with, its size, and the node its waker signals.
   */
  datatype Plan = Plan(producer: Option<Endpoint>, consumer: Endpoint, target: Endpoint, packets: seq<string>,
    capacity: nat, waker: Option<NodeId>)

  function RealEdges(edges: seq<Edge>): seq<Edge> {
    if edges == [] then []
    else
      var before, e := RealEdges(edges[..|edges| - 1]), edges[|edges| - 1];
      if e.data.None? then before + [e] else before
  }

  predicate Targeted(links: seq<Edge>, key: Endpoint) {
    exists i :: 0 <= i < |links| && links[i].target == key
  }

  /** The channel of the k-th real edge; the first edge into a target carries all its initial packets. */
  function EdgePlan(edges: seq<Edge>, links: seq<Edge>, k: nat): Plan
    requires k < |links|
  {
    var e := links[k];
    Plan(Some(Runtime(e.source)), Runtime(e.target), e.target,
         if Targeted(links[..k], e.target) then [] else IipsFor(edges, e.target),
         PROCESSEDGE_BUFSIZE, Some(e.target.process))
  }

  function EdgePlans(edges: seq<Edge>, links: seq<Edge>, n: nat): seq<Plan>
    requires n <= |links|
  {
    if n == 0 then [] else EdgePlans(edges, links, n - 1) + [EdgePlan(edges, links, n - 1)]
  }

  /** A channel of its own for each of the packets left over for one target. */
  function LonePlans(key: Endpoint, packets: seq<string>): seq<Plan> {
    if packets == [] then []
    else LonePlans(key, packets[..|packets| - 1]) +
         [Plan(None, Runtime(key), key, [packets[|packets| - 1]], PROCESSEDGE_IIP_BUFSIZE, None)]
  }

  function LeftoverPlans(edges: seq<Edge>, keys: seq<Endpoint>): seq<Plan> {
    if keys == [] then []
    else LeftoverPlans(edges, keys[..|keys| - 1]) + LonePlans(keys[|keys| - 1], IipsFor(edges, keys[|keys| - 1]))
  }

  /** The packets that the plans deliver to one target, channel by channel. */
  function Delivered(plans: seq<Plan>, key: Endpoint): seq<string> {
    if plans == [] then []
    else
      var before, last := Delivered(plans[..|plans| - 1], key), plans[|plans| - 1];
      if last.target == key then before + last.packets else before
  }

  lemma DeliveredConcat(a: seq<Plan>, b: seq<Plan>, key: Endpoint)
    ensures Delivered(a + b, key) == Delivered(a, key) + Delivered(b, key)
    decreases |b|
  {
    if b == [] {
      assert a + b == a;
    } else {
      assert (a + b)[..|a + b| - 1] == a + b[..|b| - 1];
      DeliveredConcat(a, b[..|b| - 1], key);
    }
  }

  lemma TargetedLast(links: seq<Edge>, key: Endpoint)
    requires links != []
    ensures Targeted(links, key) <==> Targeted(links[..|links| - 1], key) || links[|links| - 1].target == key
  {
    var before := links[..|links| - 1];
    if Targeted(before, key) {
      var i :| 0 <= i < |before| && before[i].target == key;
      assert links[i].target == key;
    }
    if Targeted(links, key) && links[|links| - 1].target != key {
      var i :| 0 <= i < |links| && links[i].target == key;
      assert before[i].target == key;
    }
  }

  lemma {:induction false} EdgesDeliver(edges: seq<Edge>, links: seq<Edge>, n: nat, key: Endpoint)
    requires n <= |links|
    ensures Delivered(EdgePlans(edges, links, n), key) == if Targeted(links[..n], key) then IipsFor(edges, key) else []
  {
    if n > 0 {
      EdgesDeliver(edges, links, n - 1, key);
      var plans, last := EdgePlans(edges, links, n), EdgePlan(edges, links, n - 1);
      assert plans[..|plans| - 1] == EdgePlans(edges, links, n - 1) && plans[|plans| - 1] == last;
      assert links[..n][..n - 1] == links[..n - 1];
      TargetedLast(links[..n], key);
    }
  }

  lemma {:induction false} LoneDeliver(key: Endpoint, packets: seq<string>, other: Endpoint)
    ensures Delivered(LonePlans(key, packets), other) == if key == other then packets else []
    decreases |packets|
  {
    if packets != [] {
      var plans := LonePlans(key, packets);
      LoneDeliver(key, packets[..|packets| - 1], other);
      assert plans[..|plans| - 1] == LonePlans(key, packets[..|packets| - 1]);
      assert packets == packets[..|packets| - 1] + [packets[|packets| - 1]];
    }
  }

  lemma {:induction false} LeftoversDeliver(edges: seq<Edge>, keys: seq<Endpoint>, key: Endpoint)
    requires NoDup(keys)
    ensures Delivered(LeftoverPlans(edges, keys), key) == if key in keys then IipsFor(edges, key) else []
    decreases |keys|
  {
    if keys != [] {
      var rest, last := keys[..|keys| - 1], keys[|keys| - 1];
      LeftoversDeliver(edges, rest, key);
      DeliveredConcat(LeftoverPlans(edges, rest), LonePlans(last, IipsFor(edges, last)), key);
      LoneDeliver(last, IipsFor(edges, last), key);
      assert keys == rest + [last];
    }
  }

  /** The targets whose packets need channels of their own, in some order. */
  ghost predicate Leftover(edges: seq<Edge>, keys: seq<Endpoint>) {
    NoDup(keys) && forall key :: key in keys <==> IipsFor(edges, key) != [] && !Targeted(RealEdges(edges), key)
  }

  function AllPlans(edges: seq<Edge>, keys: seq<Endpoint>): seq<Plan> {
    EdgePlans(edges, RealEdges(edges), |RealEdges(edges)|) + LeftoverPlans(edges, keys)
  }

  /**
   Every initial packet lands exactly once, on its own target, and in graph order: what the channels
   of the plan deliver to a target is the graph's list of initial packets for it, nothing else.
   */
  lemma IipsLandOnce(edges: seq<Edge>, keys: seq<Endpoint>, key: Endpoint)
    requires Leftover(edges, keys)
    ensures Delivered(AllPlans(edges, keys), key) == IipsFor(edges, key)
  {
    var links := RealEdges(edges);
    DeliveredConcat(EdgePlans(edges, links, |links|), LeftoverPlans(edges, keys), key);
    EdgesDeliver(edges, links, |links|, key);
    LeftoversDeliver(edges, keys, key);
    assert links[..|links|] == links;
  }

  lemma EdgePlanAt(edges: seq<Edge>, links: seq<Edge>, n: nat, k: nat)
    requires k < n <= |links|
    ensures |EdgePlans(edges, links, n)| == n && EdgePlans(edges, links, n)[k] == EdgePlan(edges, links, k)
  {
    if n > 0 && k < n - 1 {
      EdgePlanAt(edges, links, n - 1, k);
    } else if n > 1 {
      EdgePlanAt(edges, links, n - 1, 0);
    }
  }

  /**
   Channels of edges: one for each edge that is no initial packet, in order, from its source to its
   target, with a waker for the target's node. Among the edges into one target the first starts with all
   the initial packets for it, in graph order, ahead of any component's data, and the others empty.
   */
  lemma ChannelsOfEdges(edges: seq<Edge>, keys: seq<Endpoint>, k: nat)
    requires k < |RealEdges(edges)|
    ensures k < |AllPlans(edges, keys)|
    ensures var p := AllPlans(edges, keys)[k]; var e := RealEdges(edges)[k];
      && p.producer == Some(Endpoint(e.source.process, Upper(e.source.port)))
      && p.consumer == Endpoint(e.target.process, Upper(e.target.port))
      && p.waker == Some(e.target.process) && p.capacity == 2401
      && ((forall j :: 0 <= j < k ==> RealEdges(edges)[j].target != e.target) ==> p.packets == IipsFor(edges, e.target))
      && ((exists j :: 0 <= j < k && RealEdges(edges)[j].target == e.target) ==> p.packets == [])
  {
    var links := RealEdges(edges);
    EdgePlanAt(edges, links, |links|, k);
    assert forall j :: 0 <= j < k ==> links[..k][j] == links[j];
  }

  lemma {:induction false} RealEdgesMembers(edges: seq<Edge>)
    ensures forall e :: e in RealEdges(edges) <==> e in edges && e.data.None?
  {
    if edges != [] {
      RealEdgesMembers(edges[..|edges| - 1]);
      assert edges == edges[..|edges| - 1] + [edges[|edges| - 1]];
    }
  }

  lemma LonePlanAt(key: Endpoint, packets: seq<string>, i: nat)
    requires i < |packets|
    ensures |LonePlans(key, packets)| == |packets|
    ensures LonePlans(key, packets)[i] == Plan(None, Runtime(key), key, [packets[i]], PROCESSEDGE_IIP_BUFSIZE, None)
  {
    if i < |packets| - 1 {
      LonePlanAt(key, packets[..|packets| - 1], i);
    } else if i > 0 {
      LonePlanAt(key, packets[..|packets| - 1], 0);
    }
  }

  /** Channels for left-over packets have no producer, and end where their target says. */
  lemma {:induction false} LeftoverPlansAlone(edges: seq<Edge>, keys: seq<Endpoint>)
    ensures forall p :: p in LeftoverPlans(edges, keys) ==>
      p.producer.None? && p.target in keys && p.consumer == Runtime(p.target)
  {
    if keys != [] {
      var rest, last := keys[..|keys| - 1], keys[|keys| - 1];
      LeftoverPlansAlone(edges, rest);
      var packets := IipsFor(edges, last);
      forall p | p in LonePlans(last, packets)
        ensures p.producer.None? && p.target == last && p.consumer == Runtime(last) {
        var i :| 0 <= i < |LonePlans(last, packets)| && LonePlans(last, packets)[i] == p;
        if packets != [] {
          LonePlanAt(last, packets, 0);
          LonePlanAt(last, packets, i);
        }
      }
    }
  }

  /** The left-over packets of one target stand together, a channel each. */
  lemma {:induction false} LeftoverBlock(edges: seq<Edge>, keys: seq<Endpoint>, key: Endpoint) returns (a: nat)
    requires key in keys
    ensures a + |LonePlans(key, IipsFor(edges, key))| <= |LeftoverPlans(edges, keys)|
    ensures var block := LonePlans(key, IipsFor(edges, key)); LeftoverPlans(edges, keys)[a..a + |block|] == block
    decreases |keys|
  {
    var rest, last := keys[..|keys| - 1], keys[|keys| - 1];
    var block := LonePlans(key, IipsFor(edges, key));
    if key in rest {
      a := LeftoverBlock(edges, rest, key);
      assert LeftoverPlans(edges, keys)[a..a + |block|] == LeftoverPlans(edges, rest)[a..a + |block|];
    } else {
      assert keys == rest + [last];
      a := |LeftoverPlans(edges, rest)|;
    }
  }

  /** Every channel into a port of a running process has a producer: no initial packet for it stands alone. */
  ghost predicate AllRide(plans: seq<Plan>, u: Endpoint) {
    forall k :: 0 <= k < |plans| && plans[k].consumer == u ==> plans[k].producer.Some?
  }

  /** Every initial packet for that port has an edge to its target as the packet spells it. */
  ghost predicate SpelledAlike(edges: seq<Edge>, u: Endpoint) {
    forall i :: 0 <= i < |edges| && edges[i].data.Some? && Runtime(edges[i].target) == u ==>
      exists j :: 0 <= j < |edges| && edges[j].data.None? && edges[j].target == edges[i].target
  }

  /**
   Initial packets for a port of a running process all ride on the channels of edges exactly when each
   of them has an edge that spells the target the same way; that an edge reaches the port is not enough.
   */
  lemma SpellingDecides(edges: seq<Edge>, keys: seq<Endpoint>, u: Endpoint)
    requires Leftover(edges, keys)
    ensures AllRide(AllPlans(edges, keys), u) <==> SpelledAlike(edges, u)
  {
    if !SpelledAlike(edges, u) {
      var i :| 0 <= i < |edges| && edges[i].data.Some? && Runtime(edges[i].target) == u
        && !exists j :: 0 <= j < |edges| && edges[j].data.None? && edges[j].target == edges[i].target;
      UnspelledAlone(edges, keys, i);
    } else if !AllRide(AllPlans(edges, keys), u) {
      AloneUntargeted(edges, keys, u);
    }
  }

  lemma TargetedByEdge(edges: seq<Edge>, key: Endpoint)
    ensures Targeted(RealEdges(edges), key) <==>
      exists j :: 0 <= j < |edges| && edges[j].data.None? && edges[j].target == key
  {
    RealEdgesMembers(edges);
    if Targeted(RealEdges(edges), key) {
      var k :| 0 <= k < |RealEdges(edges)| && RealEdges(edges)[k].target == key;
      assert RealEdges(edges)[k] in edges;
    }
    if j :| 0 <= j < |edges| && edges[j].data.None? && edges[j].target == key {
      assert edges[j] in RealEdges(edges);
    }
  }

  lemma EdgePlansLength(edges: seq<Edge>, links: seq<Edge>, n: nat)
    requires n <= |links|
    ensures |EdgePlans(edges, links, n)| == n
  {
  }

  lemma UnspelledAlone(edges: seq<Edge>, keys: seq<Endpoint>, i: nat)
    requires Leftover(edges, keys) && i < |edges| && edges[i].data.Some?
    requires !exists j :: 0 <= j < |edges| && edges[j].data.None? && edges[j].target == edges[i].target
    ensures !AllRide(AllPlans(edges, keys), Runtime(edges[i].target))
  {
    var key := edges[i].target;
    IipsForNonEmpty(edges, key);
    TargetedByEdge(edges, key);
    var a := OwnChannels(edges, keys, key);
    OwnBlockRides(AllPlans(edges, keys), a, key, IipsFor(edges, key));
  }

  lemma AloneUntargeted(edges: seq<Edge>, keys: seq<Endpoint>, u: Endpoint)
    requires Leftover(edges, keys) && !AllRide(AllPlans(edges, keys), u)
    ensures !SpelledAlike(edges, u)
  {
    var plans, links := AllPlans(edges, keys), RealEdges(edges);
    var k :| 0 <= k < |plans| && plans[k].consumer == u && plans[k].producer.None?;
    EdgePlansLength(edges, links, |links|);
    if k < |links| {
      EdgePlanAt(edges, links, |links|, k);
    }
    LeftoverPlansAlone(edges, keys);
    assert plans[k] in LeftoverPlans(edges, keys);
    var key := plans[k].target;
    IipsForNonEmpty(edges, key);
    TargetedByEdge(edges, key);
    var i :| 0 <= i < |edges| && edges[i].data.Some? && edges[i].target == key;
  }

  /** From place a on there is a channel for each of the packets: one slot, one packet, no producer and no waker. */
  ghost predicate OwnBlock(plans: seq<Plan>, a: nat, key: Endpoint, packets: seq<string>) {
    a + |packets| <= |plans|
    && forall i :: 0 <= i < |packets| ==>
      plans[a + i] == Plan(None, Runtime(key), key, [packets[i]], PROCESSEDGE_IIP_BUFSIZE, None)
  }

  lemma OwnBlockRides(plans: seq<Plan>, a: nat, key: Endpoint, packets: seq<string>)
    requires OwnBlock(plans, a, key, packets) && packets != []
    ensures !AllRide(plans, Runtime(key))
  {
    var first := packets[0];
    assert plans[a + 0].packets == [first];
  }

  lemma BlockAfter(xs: seq<Plan>, ys: seq<Plan>, b: nat, key: Endpoint, packets: seq<string>)
    requires b + |LonePlans(key, packets)| <= |ys|
    requires ys[b..b + |LonePlans(key, packets)|] == LonePlans(key, packets)
    ensures OwnBlock(xs + ys, |xs| + b, key, packets)
  {
    var own := LonePlans(key, packets);
    LonePlansLength(key, packets);
    forall i | 0 <= i < |packets|
      ensures (xs + ys)[|xs| + b + i] == Plan(None, Runtime(key), key, [packets[i]], PROCESSEDGE_IIP_BUFSIZE, None)
    {
      LonePlanAt(key, packets, i);
      assert ys[b..b + |own|][i] == ys[b + i];
    }
  }

  lemma LonePlansLength(key: Endpoint, packets: seq<string>)
    ensures |LonePlans(key, packets)| == |packets|
  {
  }

  /**
   Packets for a target that no edge spells the same way get a channel each, in graph order, though an
   edge may reach the same port of the running process.
   */
  lemma OwnChannels(edges: seq<Edge>, keys: seq<Endpoint>, key: Endpoint) returns (a: nat)
    requires Leftover(edges, keys) && IipsFor(edges, key) != [] && !Targeted(RealEdges(edges), key)
    ensures OwnBlock(AllPlans(edges, keys), a, key, IipsFor(edges, key))
  {
    var b := LeftoverBlock(edges, keys, key);
    var through := EdgePlans(edges, RealEdges(edges), |RealEdges(edges)|);
    BlockAfter(through, LeftoverPlans(edges, keys), b, key, IipsFor(edges, key));
    a := |through| + b;
  }

  /** An edge to "in" and a packet for "IN" share a port of the running process, but no channel. */
  lemma SpellingExample()
    ensures var b, c := Endpoint("B", "in"), Endpoint("B", "IN");
      var edges := [Edge(Endpoint("A", "out"), None, b), Edge(Endpoint("", ""), Some("x"), c)];
      Runtime(b) == Runtime(c) && Leftover(edges, [c]) && !AllRide(AllPlans(edges, [c]), Runtime(b))
  {
    var b, c := Endpoint("B", "in"), Endpoint("B", "IN");
    var edges := [Edge(Endpoint("A", "out"), None, b), Edge(Endpoint("", ""), Some("x"), c)];
    assert b.port[0] != c.port[0];
    assert Upper(b.port) == Upper(c.port);
    OneLeftover(edges[0], edges[1]);
    UnspelledAlone(edges, [c], 1);
  }

  lemma OneLeftover(link: Edge, packet: Edge)
    requires link.data.None? && packet.data.Some? && link.target != packet.target
    ensures Leftover([link, packet], [packet.target])
  {
    var edges := [link, packet];
    assert edges[..1] == [link] && [link][..0] == [];
    assert RealEdges(edges) == RealEdges([link]) == [link];
    forall key ensures IipsFor(edges, key) == if key == packet.target then [packet.data.value] else [] {
      assert IipsFor([link], key) == [];
    }
  }

  // ----- building the channels -----

  /** The channels made so far and, per process and runtime port, their two ends: multimaps of channel numbers. */
  datatype Wired = Wired(channels: seq<Plan>, inports: map<Endpoint, seq<nat>>, outports: map<Endpoint, seq<nat>>)

  datatype End = Consuming | Producing

  function EndOf(p: Plan, end: End): Option<Endpoint> {
    if end.Consuming? then Some(p.consumer) else p.producer
  }

  function Insert(ports: map<Endpoint, seq<nat>>, u: Endpoint, id: nat): map<Endpoint, seq<nat>> {
    ports[u := (if u in ports then ports[u] else []) + [id]]
  }

  function Connect(w: Wired, p: Plan): Wired {
    Wired(w.channels + [p], Insert(w.inports, p.consumer, |w.channels|),
          if p.producer.Some? then Insert(w.outports, p.producer.value, |w.channels|) else w.outports)
  }

  /** Every channel listed under an endpoint ends there. */
  ghost predicate Ends(ports: map<Endpoint, seq<nat>>, channels: seq<Plan>, end: End) {
    forall u, a :: u in ports && 0 <= a < |ports[u]| ==>
      ports[u][a] < |channels| && EndOf(channels[ports[u][a]], end) == Some(u)
  }

  ghost predicate Ascending(ids: seq<nat>) {
    forall a, b :: 0 <= a < b < |ids| ==> ids[a] < ids[b]
  }

  /** Every channel that has such an end is listed. */
  ghost predicate Covers(ports: map<Endpoint, seq<nat>>, channels: seq<Plan>, end: End) {
    forall k :: 0 <= k < |channels| && EndOf(channels[k], end).Some? ==>
      EndOf(channels[k], end).value in ports && k in ports[EndOf(channels[k], end).value]
  }

  /** The multimap holds, under each endpoint, the channels that end there, in the order they were made. */
  ghost predicate Owns(ports: map<Endpoint, seq<nat>>, channels: seq<Plan>, end: End) {
    Ends(ports, channels, end) && (forall u :: u in ports ==> Ascending(ports[u])) && Covers(ports, channels, end)
  }

  ghost predicate Sound(w: Wired) {
    Owns(w.inports, w.channels, Consuming) && Owns(w.outports, w.channels, Producing)
  }

  /**
   A sound table gives every channel exactly one consuming process and port, and exactly one producing
   one if it has a producer at all: single producer, single consumer.
   */
  lemma OneOwner(ports: map<Endpoint, seq<nat>>, channels: seq<Plan>, end: End, k: nat)
    requires Owns(ports, channels, end) && k < |channels|
    ensures (exists u, a :: u in ports && 0 <= a < |ports[u]| && ports[u][a] == k) <==> EndOf(channels[k], end).Some?
    ensures forall u, a, v, b ::
      u in ports && 0 <= a < |ports[u]| && ports[u][a] == k && v in ports && 0 <= b < |ports[v]| && ports[v][b] == k ==>
      u == v && a == b && EndOf(channels[k], end) == Some(u)
  {
    forall u, a, v, b | u in ports && 0 <= a < |ports[u]| && ports[u][a] == k
      && v in ports && 0 <= b < |ports[v]| && ports[v][b] == k
      ensures u == v && a == b && EndOf(channels[k], end) == Some(u)
    {
      assert EndOf(channels[ports[u][a]], end) == Some(u) && EndOf(channels[ports[v][b]], end) == Some(v);
    }
  }

  lemma OwnsMore(ports: map<Endpoint, seq<nat>>, channels: seq<Plan>, end: End, p: Plan)
    requires Owns(ports, channels, end) && EndOf(p, end).None?
    ensures Owns(ports, channels + [p], end)
  {
  }

  lemma InsertCovers(ports: map<Endpoint, seq<nat>>, channels: seq<Plan>, end: End, p: Plan)
    requires Covers(ports, channels, end) && EndOf(p, end).Some?
    ensures Covers(Insert(ports, EndOf(p, end).value, |channels|), channels + [p], end)
  {
    var more, u := channels + [p], EndOf(p, end).value;
    var grown := Insert(ports, u, |channels|);
    assert grown[u][|grown[u]| - 1] == |channels|;
    forall k | 0 <= k < |channels| && EndOf(channels[k], end).Some?
      ensures EndOf(more[k], end).value in grown && k in grown[EndOf(more[k], end).value]
    {
      var v := EndOf(channels[k], end).value;
      var a :| 0 <= a < |ports[v]| && ports[v][a] == k;
      assert grown[v][a] == k;
    }
  }

  lemma InsertEnds(ports: map<Endpoint, seq<nat>>, channels: seq<Plan>, end: End, p: Plan)
    requires Ends(ports, channels, end) && EndOf(p, end).Some?
    ensures Ends(Insert(ports, EndOf(p, end).value, |channels|), channels + [p], end)
  {
  }

  lemma InsertAscends(ports: map<Endpoint, seq<nat>>, channels: seq<Plan>, end: End, u: Endpoint)
    requires Ends(ports, channels, end) && forall v :: v in ports ==> Ascending(ports[v])
    ensures forall v :: v in Insert(ports, u, |channels|) ==> Ascending(Insert(ports, u, |channels|)[v])
  {
  }

  lemma InsertOwns(ports: map<Endpoint, seq<nat>>, channels: seq<Plan>, end: End, p: Plan)
    requires Owns(ports, channels, end) && EndOf(p, end).Some?
    ensures Owns(Insert(ports, EndOf(p, end).value, |channels|), channels + [p], end)
  {
    InsertCovers(ports, channels, end, p);
    InsertEnds(ports, channels, end, p);
    InsertAscends(ports, channels, end, EndOf(p, end).value);
  }

  lemma ConnectSound(w: Wired, p: Plan)
    requires Sound(w)
    ensures Sound(Connect(w, p))
  {
    InsertOwns(w.inports, w.channels, Consuming, p);
    if p.producer.Some? {
      InsertOwns(w.outports, w.channels, Producing, p);
    } else {
      OwnsMore(w.outports, w.channels, Producing, p);
    }
  }

  /** The table after some more channels, sound as before. */
  ghost predicate Extended(base: seq<Plan>, plans: seq<Plan>, w: Wired) {
    Sound(w) && w.channels == base + plans
  }

  lemma ConnectExtends(base: seq<Plan>, plans: seq<Plan>, w: Wired, p: Plan)
    requires Extended(base, plans, w)
    ensures Extended(base, plans + [p], Connect(w, p))
  {
    ConnectSound(w, p);
    assert base + plans + [p] == base + (plans + [p]);
  }

  /** The k-th real edge has both its processes, and its initial packets fit its ring. */
  predicate EdgeFits(edges: seq<Edge>, processes: set<string>, links: seq<Edge>, k: nat)
    requires k < |links|
  {
    && links[k].source.process in processes && links[k].target.process in processes
    && |EdgePlan(edges, links, k).packets| <= PROCESSEDGE_BUFSIZE
  }

  lemma {:induction false} RealEdgesPrefix(edges: seq<Edge>, i: nat)
    requires i <= |edges|
    ensures RealEdges(edges[..i]) <= RealEdges(edges)
    decreases |edges| - i
  {
    if i < |edges| {
      assert edges[..i + 1][..i] == edges[..i];
      RealEdgesPrefix(edges, i + 1);
    } else {
      assert edges[..i] == edges;
    }
  }

  /** The packets still to be placed once the given real edges have been wired. */
  ghost function Unplaced(iips: map<Endpoint, seq<string>>, links: seq<Edge>): map<Endpoint, seq<string>> {
    map key | key in iips && !Targeted(links, key) :: iips[key]
  }

  lemma UnplacedStep(iips: map<Endpoint, seq<string>>, links: seq<Edge>, n: nat)
    requires n < |links|
    ensures Unplaced(iips, links[..n + 1]) == Unplaced(iips, links[..n]) - {links[n].target}
  {
    assert links[..n + 1][..n] == links[..n];
    forall key ensures Targeted(links[..n + 1], key) <==> Targeted(links[..n], key) || links[n].target == key {
      TargetedLast(links[..n + 1], key);
    }
  }

  /** What is still unplaced for the target of the next edge is what its channel starts with. */
  lemma NextPlan(edges: seq<Edge>, iips: map<Endpoint, seq<string>>, links: seq<Edge>, n: nat)
    requires Grouped(edges, iips) && n < |links|
    ensures var rest, key := Unplaced(iips, links[..n]), links[n].target;
      EdgePlan(edges, links, n).packets == if key in rest then rest[key] else []
  {
  }

  /** The first n real edges fit. */
  predicate AllFit(edges: seq<Edge>, processes: set<string>, links: seq<Edge>, n: nat)
    requires n <= |links|
  {
    n == 0 || (AllFit(edges, processes, links, n - 1) && EdgeFits(edges, processes, links, n - 1))
  }

  lemma AllFitPrefix(edges: seq<Edge>, processes: set<string>, links: seq<Edge>, n: nat, m: nat)
    requires n <= m <= |links| && !AllFit(edges, processes, links, n)
    ensures !AllFit(edges, processes, links, m)
  {
    if n < m {
      AllFitPrefix(edges, processes, links, n, m - 1);
    }
  }

  lemma AllFitAt(edges: seq<Edge>, processes: set<string>, links: seq<Edge>, n: nat)
    requires n <= |links|
    ensures AllFit(edges, processes, links, n) <==> forall k :: 0 <= k < n ==> EdgeFits(edges, processes, links, k)
  {
  }

  /** Among the first i edges there are n real ones. */
  ghost predicate Passed(edges: seq<Edge>, i: nat, n: nat) {
    i <= |edges| && n == |RealEdges(edges[..i])| <= |RealEdges(edges)|
  }

  /** Edge i, when it is no initial packet, is the next of the real edges. */
  lemma NextReal(edges: seq<Edge>, i: nat, n: nat)
    requires i < |edges| && Passed(edges, i, n)
    ensures edges[i].data.Some? ==> Passed(edges, i + 1, n)
    ensures edges[i].data.None? ==> Passed(edges, i + 1, n + 1)
    ensures edges[i].data.None? ==> n < |RealEdges(edges)| && RealEdges(edges)[n] == edges[i]
  {
    assert edges[..i + 1][..i] == edges[..i];
    RealEdgesPrefix(edges, i);
    RealEdgesPrefix(edges, i + 1);
    if edges[i].data.None? {
      assert RealEdges(edges[..i + 1])[|RealEdges(edges[..i])|] == edges[i];
    }
  }

  lemma AllPassed(edges: seq<Edge>, n: nat)
    requires Passed(edges, |edges|, n)
    ensures n == |RealEdges(edges)|
  {
    assert edges[..|edges|] == edges;
  }

  /** The state of the table when the first n real edges have been wired. */
  ghost predicate EdgesWired(edges: seq<Edge>, iips: map<Endpoint, seq<string>>, links: seq<Edge>, n: nat, w: Wired,
    rest: map<Endpoint, seq<string>>)
    requires n <= |links|
  {
    Sound(w) && w.channels == EdgePlans(edges, links, n) && rest == Unplaced(iips, links[..n])
  }

  /** One round: the channel, its two ends in the table, and the packets pushed into it. */
  method WireEdge(e: Edge, processes: set<string>, start: Wired, unplaced: map<Endpoint, seq<string>>,
      ghost edges: seq<Edge>, ghost iips: map<Endpoint, seq<string>>, ghost links: seq<Edge>, ghost n: nat)
    returns (ok: bool, w: Wired, rest: map<Endpoint, seq<string>>)
    requires Grouped(edges, iips) && n < |links| && links[n] == e
    requires EdgesWired(edges, iips, links, n, start, unplaced)
    ensures ok <==> EdgeFits(edges, processes, links, n)
    ensures ok ==> EdgesWired(edges, iips, links, n + 1, w, rest)
  {
    NextPlan(edges, iips, links, n);
    var packets := if e.target in unplaced then unplaced[e.target] else [];
    if e.target.process !in processes || e.source.process !in processes || |packets| > PROCESSEDGE_BUFSIZE {
      return false, start, unplaced;
    }
    var p := Plan(Some(Runtime(e.source)), Runtime(e.target), e.target, packets, PROCESSEDGE_BUFSIZE,
      Some(e.target.process));
    ConnectSound(start, p);
    UnplacedStep(iips, links, n);
    return true, Connect(start, p), unplaced - {e.target};
  }

  /**
   The loop over the edges that are no initial packets. It fails (the source panics) exactly when some
   edge does not fit.
   */
  method WireEdges(edges: seq<Edge>, processes: set<string>, iips: map<Endpoint, seq<string>>)
    returns (ok: bool, w: Wired, rest: map<Endpoint, seq<string>>)
    requires Grouped(edges, iips)
    ensures ok <==> AllFit(edges, processes, RealEdges(edges), |RealEdges(edges)|)
    ensures ok ==> EdgesWired(edges, iips, RealEdges(edges), |RealEdges(edges)|, w, rest)
  {
    w, rest, ok := Wired([], map[], map[]), iips, true;
    ghost var links := RealEdges(edges);
    ghost var n := 0;
    for i := 0 to |edges|
      invariant Passed(edges, i, n)
      invariant EdgesWired(edges, iips, links, n, w, rest)
      invariant AllFit(edges, processes, links, n)
    {
      NextReal(edges, i, n);
      if edges[i].data.None? {
        ok, w, rest := WireEdge(edges[i], processes, w, rest, edges, iips, links, n);
        if !ok {
          AllFitPrefix(edges, processes, links, n + 1, |links|);
          return;
        }
        n := n + 1;
      }
    }
    AllPassed(edges, n);
  }

  /** Exactly the packets of the targets without a real edge. */
  ghost predicate Remaining(edges: seq<Edge>, rest: map<Endpoint, seq<string>>) {
    forall key :: (key in rest <==> IipsFor(edges, key) != [] && !Targeted(RealEdges(edges), key))
      && (key in rest ==> rest[key] == IipsFor(edges, key))
  }

  lemma UnplacedRemain(edges: seq<Edge>, iips: map<Endpoint, seq<string>>, w: Wired, rest: map<Endpoint, seq<string>>)
    requires Grouped(edges, iips) && EdgesWired(edges, iips, RealEdges(edges), |RealEdges(edges)|, w, rest)
    ensures Remaining(edges, rest)
  {
    assert RealEdges(edges)[..|RealEdges(edges)|] == RealEdges(edges);
  }

  /** The state of the walk over the packets left over. */
  ghost predicate Walking(edges: seq<Edge>, processes: set<string>, all: map<Endpoint, seq<string>>,
    rest: map<Endpoint, seq<string>>, keys: seq<Endpoint>) {
    && NoDup(keys)
    && (forall key :: key in all <==> key in keys || key in rest)
    && (forall key :: key in keys ==> key !in rest && key.process in processes)
    && (forall key :: key in rest ==> key in all && rest[key] == all[key])
  }

  lemma WalkOn(edges: seq<Edge>, processes: set<string>, all: map<Endpoint, seq<string>>,
    rest: map<Endpoint, seq<string>>, keys: seq<Endpoint>, key: Endpoint)
    requires Walking(edges, processes, all, rest, keys) && key in rest && key.process in processes
    ensures Walking(edges, processes, all, rest - {key}, keys + [key])
    ensures LeftoverPlans(edges, keys + [key]) == LeftoverPlans(edges, keys) + LonePlans(key, IipsFor(edges, key))
  {
    assert (keys + [key])[..|keys|] == keys;
  }

  /** The initial packets left over, target by target in the map's order, which is any order. */
  method WireLeftovers(edges: seq<Edge>, processes: set<string>, iips: map<Endpoint, seq<string>>, start: Wired)
    returns (ok: bool, w: Wired, ghost keys: seq<Endpoint>)
    requires Sound(start)
    requires Remaining(edges, iips)
    ensures ok <==> forall key :: key in iips ==> key.process in processes
    ensures ok ==> Extended(start.channels, LeftoverPlans(edges, keys), w) && Leftover(edges, keys)
  {
    w, keys := start, [];
    var rest := iips;
    while rest != map[]
      invariant Extended(start.channels, LeftoverPlans(edges, keys), w)
      invariant Walking(edges, processes, iips, rest, keys)
      decreases |rest|
    {
      assert rest.Keys != {};
      var key :| key in rest.Keys;
      if key.process !in processes {
        return false, w, keys;
      }
      w := WireLone(key, rest[key], w, start.channels, LeftoverPlans(edges, keys));
      WalkOn(edges, processes, iips, rest, keys, key);
      rest, keys := rest - {key}, keys + [key];
    }
    ok := true;
  }

  /** A channel for each packet; one slot is enough for the push, which comes first. */
  method WireLone(key: Endpoint, packets: seq<string>, start: Wired, ghost base: seq<Plan>, ghost before: seq<Plan>)
    returns (w: Wired)
    requires Extended(base, before, start)
    ensures Extended(base, before + LonePlans(key, packets), w)
  {
    w := start;
    assert before + LonePlans(key, packets[..0]) == before;
    for i := 0 to |packets|
      invariant Extended(base, before + LonePlans(key, packets[..i]), w)
    {
      var p := Plan(None, Runtime(key), key, [packets[i]], PROCESSEDGE_IIP_BUFSIZE, None);
      ConnectExtends(base, before + LonePlans(key, packets[..i]), w, p);
      w := Connect(w, p);
      assert packets[..i + 1][..i] == packets[..i];
      assert before + LonePlans(key, packets[..i]) + [p] == before + LonePlans(key, packets[..i + 1]);
    }
    assert packets[..|packets|] == packets;
  }

  // ----- the graph's own ports -----

  datatype GraphPorts = Inward | Outward

  datatype Graph = Graph(name: string, nodes: map<string, string>, edges: seq<Edge>, inports: map<string, Endpoint>,
    outports: map<string, Endpoint>)

  function PortsOf(g: Graph, way: GraphPorts): map<string, Endpoint> {
    if way.Inward? then g.inports else g.outports
  }

  /** The made-up process that stands for the graph on that side. */
  function Boundary(g: Graph, way: GraphPorts): string {
    g.name + (if way.Inward? then "-IN" else "-OUT")
  }

  function Processes(g: Graph): set<string> {
    g.nodes.Keys
    + (if g.inports != map[] then {Boundary(g, Inward)} else {})
    + (if g.outports != map[] then {Boundary(g, Outward)} else {})
  }

  /** Packets from outside wake the process they enter; packets that leave wake nobody. */
  function PortPlan(g: Graph, way: GraphPorts, public: string): Plan
    requires public in PortsOf(g, way)
  {
    var inner, outer := PortsOf(g, way)[public], Endpoint(Boundary(g, way), public);
    if way.Inward? then Plan(Some(outer), Runtime(inner), inner, [], PROCESSEDGE_BUFSIZE, Some(inner.process))
    else Plan(Some(Runtime(inner)), outer, outer, [], PROCESSEDGE_BUFSIZE, None)
  }

  function PortPlans(g: Graph, way: GraphPorts, names: seq<string>): seq<Plan>
    requires forall x :: x in names ==> x in PortsOf(g, way)
  {
    if names == [] then []
    else PortPlans(g, way, names[..|names| - 1]) + [PortPlan(g, way, names[|names| - 1])]
  }

  lemma PortsDeliverNothing(g: Graph, way: GraphPorts, names: seq<string>, key: Endpoint)
    requires forall x :: x in names ==> x in PortsOf(g, way)
    ensures Delivered(PortPlans(g, way, names), key) == []
  {
    if names != [] {
      var plans := PortPlans(g, way, names);
      assert plans[..|plans| - 1] == PortPlans(g, way, names[..|names| - 1]);
      PortsDeliverNothing(g, way, names[..|names| - 1], key);
    }
  }

  lemma {:induction false} PortPlanAt(g: Graph, way: GraphPorts, names: seq<string>, i: nat)
    requires (forall x :: x in names ==> x in PortsOf(g, way)) && i < |names|
    ensures |PortPlans(g, way, names)| == |names| && PortPlans(g, way, names)[i] == PortPlan(g, way, names[i])
    decreases |names|
  {
    var before := names[..|names| - 1];
    if i < |before| {
      PortPlanAt(g, way, before, i);
    } else if before != [] {
      PortPlanAt(g, way, before, 0);
    } else {
      assert PortPlans(g, way, before) == [];
    }
  }

  /**
   The channels of the graph's own ports, by their two ends: an inport leads from the port of that name at
   the made-up process "<graph>-IN" to the inner port in upper case, and wakes the inner process; an
   outport leads from the inner port to the port of that name at "<graph>-OUT", and wakes nobody.
   */
  lemma PortChannels(g: Graph, way: GraphPorts, names: seq<string>, i: nat)
    requires (forall x :: x in names ==> x in PortsOf(g, way)) && i < |names|
    ensures |PortPlans(g, way, names)| == |names|
    ensures PortPlans(g, way, names)[i].packets == [] && PortPlans(g, way, names)[i].capacity == 2401
    ensures way.Inward? ==> names[i] in g.inports
    ensures way.Inward? ==>
      var p, x, inner := PortPlans(g, way, names)[i], names[i], g.inports[names[i]];
      && p.producer == Some(Endpoint(g.name + "-IN", x)) && p.consumer == Endpoint(inner.process, Upper(inner.port))
      && p.waker == Some(inner.process)
    ensures way.Outward? ==> names[i] in g.outports
    ensures way.Outward? ==>
      var p, x, inner := PortPlans(g, way, names)[i], names[i], g.outports[names[i]];
      && p.producer == Some(Endpoint(inner.process, Upper(inner.port))) && p.consumer == Endpoint(g.name + "-OUT", x)
      && p.waker.None?
  {
    PortPlanAt(g, way, names, i);
  }

  /** Each public port once, in some order. */
  ghost predicate Lists(names: seq<string>, ports: map<string, Endpoint>) {
    NoDup(names) && forall x :: x in names <==> x in ports
  }

  /** The ports listed so far and those still to come. */
  ghost predicate Listing(g: Graph, way: GraphPorts, names: seq<string>, rest: set<string>) {
    && NoDup(names)
    && (forall x :: x in rest ==> x in PortsOf(g, way))
    && (forall x :: x in names <==> x in PortsOf(g, way) && x !in rest)
    && (forall x :: x in names ==> PortsOf(g, way)[x].process in Processes(g))
  }

  lemma ListOn(g: Graph, way: GraphPorts, names: seq<string>, rest: set<string>, x: string)
    requires Listing(g, way, names, rest) && x in rest && PortsOf(g, way)[x].process in Processes(g)
    ensures Listing(g, way, names + [x], rest - {x})
    ensures PortPlans(g, way, names + [x]) == PortPlans(g, way, names) + [PortPlan(g, way, x)]
  {
    assert (names + [x])[..|names|] == names;
  }

  method WirePorts(g: Graph, way: GraphPorts, start: Wired) returns (ok: bool, w: Wired, ghost names: seq<string>)
    requires Sound(start)
    ensures ok <==> forall x :: x in PortsOf(g, way) ==> PortsOf(g, way)[x].process in Processes(g)
    ensures ok ==> Lists(names, PortsOf(g, way)) && Extended(start.channels, PortPlans(g, way, names), w)
  {
    w, names := start, [];
    var rest := PortsOf(g, way).Keys;
    while rest != {}
      invariant Listing(g, way, names, rest)
      invariant Extended(start.channels, PortPlans(g, way, names), w)
      decreases |rest|
    {
      var x :| x in rest;
      if PortsOf(g, way)[x].process !in Processes(g) {
        return false, w, names;
      }
      var p := PortPlan(g, way, x);
      ConnectExtends(start.channels, PortPlans(g, way, names), w, p);
      ListOn(g, way, names, rest, x);
      w, names, rest := Connect(w, p), names + [x], rest - {x};
    }
    ok := true;
  }

  // ----- the whole construction -----

  ghost predicate PortsAccepted(side: Side, g: Graph, library: seq<ComponentSpec>) {
    forall j, i :: Clash(side, g.edges, j, i) ==> Judge(side, g.nodes, library, Use(side, g.edges[i])).Accepted?
  }

  /** The library has a component of that name that declares such a port, and not as an array port. */
  predicate DeclaredPlain(library: seq<ComponentSpec>, component: string, side: Side, port: string) {
    exists c, p :: c in library && c.name == component && p in (if side.Sources? then c.outPorts else c.inPorts)
      && p.name == port && !p.isArrayPort
  }

  /** Two edges leave from the same port, initial packets aside, or lead to the same one. */
  predicate Share(side: Side, e: Edge, f: Edge) {
    if side.Sources? then
      e.source == f.source && (e.data.None? || e.source.process != "") && (f.data.None? || f.source.process != "")
    else
      e.target == f.target && e.data.None? && f.data.None?
  }

  /**
   When the array-port checks accept: whatever port two edges share is a port of a node, and is not declared
   plain by its component.
   */
  lemma AcceptedMeans(side: Side, g: Graph, library: seq<ComponentSpec>)
    ensures PortsAccepted(side, g, library) <==>
      forall j, i :: 0 <= j < i < |g.edges| && Share(side, g.edges[j], g.edges[i]) ==>
        var u := if side.Sources? then g.edges[i].source else g.edges[i].target;
        u.process in g.nodes && !DeclaredPlain(library, g.nodes[u.process], side, u.port)
  {
    forall component, port ensures DeclaredPlain(library, component, side, port) <==>
      Plain(side, library, component, port) {
      PlainMeans(library, component, side, port);
    }
    forall j, i | 0 <= j < i < |g.edges|
      ensures Share(side, g.edges[j], g.edges[i]) <==> Clash(side, g.edges, j, i)
    {
    }
  }

  lemma PlainMeans(library: seq<ComponentSpec>, component: string, side: Side, port: string)
    ensures DeclaredPlain(library, component, side, port) <==> Plain(side, library, component, port)
  {
    if DeclaredPlain(library, component, side, port) {
      var c, p :| c in library && c.name == component && p in (if side.Sources? then c.outPorts else c.inPorts)
        && p.name == port && !p.isArrayPort;
      var i :| 0 <= i < |library| && library[i] == c;
      var j :| 0 <= j < |Ports(side, c)| && Ports(side, c)[j] == p;
    }
    if Plain(side, library, component, port) {
      var i, j :| 0 <= i < |library| && 0 <= j < |Ports(side, library[i])|
        && library[i].name == component && Ports(side, library[i])[j].name == port
        && !Ports(side, library[i])[j].isArrayPort;
      assert library[i] in library && Ports(side, library[i])[j] in Ports(side, library[i]);
    }
  }

  ghost predicate EdgesFit(g: Graph) {
    && AllFit(g.edges, Processes(g), RealEdges(g.edges), |RealEdges(g.edges)|)
    && forall i :: 0 <= i < |g.edges| && g.edges[i].data.Some? ==> g.edges[i].target.process in Processes(g)
  }

  /** Every name the graph mentions is a process of it, and the initial packets fit where they are pushed. */
  ghost predicate Consistent(g: Graph) {
    && (g.inports != map[] ==> Boundary(g, Inward) !in g.nodes)
    && (g.outports != map[] ==> Boundary(g, Outward) !in g.nodes)
    && EdgesFit(g)
    && (forall x :: x in g.inports ==> g.inports[x].process in Processes(g))
    && (forall x :: x in g.outports ==> g.outports[x].process in Processes(g))
  }

  predicate InSomeEdge(edges: seq<Edge>, key: Endpoint) {
    exists e :: e in edges && e.data.None? && e.target == key
  }

  /**
   When a graph is consistent, said of the graph alone: the names of the made-up processes are free; every
   edge, packet and port of the graph ends at a node or a made-up process, and every edge begins at
   one; and no target that an edge reaches has more than 2401 initial packets.
   */
  lemma ConsistentMeans(g: Graph)
    ensures Consistent(g) <==>
      var all := g.nodes.Keys + (if g.inports == map[] then {} else {g.name + "-IN"})
        + (if g.outports == map[] then {} else {g.name + "-OUT"});
      && (g.inports != map[] ==> g.name + "-IN" !in g.nodes) && (g.outports != map[] ==> g.name + "-OUT" !in g.nodes)
      && (forall e :: e in g.edges ==> e.target.process in all && (e.data.None? ==> e.source.process in all))
      && (forall x :: x in g.inports ==> g.inports[x].process in all)
      && (forall x :: x in g.outports ==> g.outports[x].process in all)
      && (forall key :: InSomeEdge(g.edges, key) ==> |IipsFor(g.edges, key)| <= 2401)
  {
    var links := RealEdges(g.edges);
    AllFitAt(g.edges, Processes(g), links, |links|);
    RealEdgesMembers(g.edges);
    FitMeans(g.edges, Processes(g), links);
    assert Processes(g) == g.nodes.Keys + (if g.inports == map[] then {} else {g.name + "-IN"})
        + (if g.outports == map[] then {} else {g.name + "-OUT"});
    assert EdgesFit(g) <==>
      && (forall e :: e in g.edges ==> e.target.process in Processes(g))
      && (forall e :: e in g.edges && e.data.None? ==> e.source.process in Processes(g))
      && (forall key :: InSomeEdge(g.edges, key) ==> |IipsFor(g.edges, key)| <= 2401);
  }

  lemma FitMeans(edges: seq<Edge>, processes: set<string>, links: seq<Edge>)
    requires links == RealEdges(edges)
    ensures (forall k :: 0 <= k < |links| ==> EdgeFits(edges, processes, links, k)) <==>
      && (forall e :: e in links ==> e.source.process in processes && e.target.process in processes)
      && (forall key :: InSomeEdge(edges, key) ==> |IipsFor(edges, key)| <= 2401)
  {
    if forall k :: 0 <= k < |links| ==> EdgeFits(edges, processes, links, k) {
      FitAll(edges, processes, links);
    }
    if (forall e :: e in links ==> e.source.process in processes && e.target.process in processes)
      && (forall key :: InSomeEdge(edges, key) ==> |IipsFor(edges, key)| <= 2401) {
      forall k | 0 <= k < |links| ensures EdgeFits(edges, processes, links, k) {
        RealEdgesMembers(edges);
        assert links[k] in links && InSomeEdge(edges, links[k].target);
      }
    }
  }

  lemma FitAll(edges: seq<Edge>, processes: set<string>, links: seq<Edge>)
    requires links == RealEdges(edges) && forall k :: 0 <= k < |links| ==> EdgeFits(edges, processes, links, k)
    ensures forall e :: e in links ==> e.source.process in processes && e.target.process in processes
    ensures forall key :: InSomeEdge(edges, key) ==> |IipsFor(edges, key)| <= 2401
  {
    forall e | e in links ensures e.source.process in processes && e.target.process in processes {
      var k :| 0 <= k < |links| && links[k] == e;
      assert EdgeFits(edges, processes, links, k);
    }
    forall key | InSomeEdge(edges, key) ensures |IipsFor(edges, key)| <= 2401 {
      RealEdgesMembers(edges);
      var e :| e in edges && e.data.None? && e.target == key;
      var i :| 0 <= i < |links| && links[i] == e;
      assert Targeted(links, key);
      var k := FirstInto(links, key);
      assert EdgeFits(edges, processes, links, k);
    }
  }

  lemma FirstInto(links: seq<Edge>, key: Endpoint) returns (k: nat)
    requires Targeted(links, key)
    ensures k < |links| && links[k].target == key && !Targeted(links[..k], key)
  {
    k := 0;
    while links[k].target != key
      invariant k < |links| && forall j :: 0 <= j < k ==> links[j].target != key
      decreases |links| - k
    {
      k := k + 1;
    }
  }

  lemma {:induction false} IipsForNonEmpty(edges: seq<Edge>, key: Endpoint)
    ensures IipsFor(edges, key) != [] <==> exists i :: 0 <= i < |edges| && edges[i].data.Some? && edges[i].target == key
  {
    if edges != [] {
      var before := edges[..|edges| - 1];
      IipsForNonEmpty(before, key);
      assert forall i :: 0 <= i < |before| ==> before[i] == edges[i];
    }
  }

  /** Once the real edges fit, the packets left over have a process exactly when all initial packets do. */
  lemma LeftoversFit(g: Graph, rest: map<Endpoint, seq<string>>)
    requires Remaining(g.edges, rest)
    requires AllFit(g.edges, Processes(g), RealEdges(g.edges), |RealEdges(g.edges)|)
    ensures (forall key :: key in rest ==> key.process in Processes(g))
      <==> forall i :: 0 <= i < |g.edges| && g.edges[i].data.Some? ==> g.edges[i].target.process in Processes(g)
  {
    var links := RealEdges(g.edges);
    AllFitAt(g.edges, Processes(g), links, |links|);
    forall key | key in rest
      ensures exists i :: 0 <= i < |g.edges| && g.edges[i].data.Some? && g.edges[i].target == key
    {
      IipsForNonEmpty(g.edges, key);
    }
    if forall key :: key in rest ==> key.process in Processes(g) {
      forall i | 0 <= i < |g.edges| && g.edges[i].data.Some?
        ensures g.edges[i].target.process in Processes(g)
      {
        var key := g.edges[i].target;
        IipsForNonEmpty(g.edges, key);
        if Targeted(links, key) {
          var k :| 0 <= k < |links| && links[k].target == key;
          assert EdgeFits(g.edges, Processes(g), links, k);
        } else {
          assert key in rest;
        }
      }
    }
  }

  /** Done, refused with an error, or a panic in the middle of it. */
  datatype Built = Refused | Panics | Ready(w: Wired)

  /** The orders in which the maps were walked. */
  datatype Walk = Walk(keys: seq<Endpoint>, ins: seq<string>, outs: seq<string>)

  ghost predicate Walks(g: Graph, walk: Walk) {
    Leftover(g.edges, walk.keys) && Lists(walk.ins, g.inports) && Lists(walk.outs, g.outports)
  }

  ghost function GraphPlans(g: Graph, walk: Walk): seq<Plan>
    requires Walks(g, walk)
  {
    AllPlans(g.edges, walk.keys) + PortPlans(g, Inward, walk.ins) + PortPlans(g, Outward, walk.outs)
  }

  lemma GraphPlansDeliver(g: Graph, walk: Walk, key: Endpoint)
    requires Walks(g, walk)
    ensures Delivered(GraphPlans(g, walk), key) == IipsFor(g.edges, key)
  {
    var a, b, c := AllPlans(g.edges, walk.keys), PortPlans(g, Inward, walk.ins), PortPlans(g, Outward, walk.outs);
    DeliveredConcat(a + b, c, key);
    DeliveredConcat(a, b, key);
    IipsLandOnce(g.edges, walk.keys, key);
    PortsDeliverNothing(g, Inward, walk.ins, key);
    PortsDeliverNothing(g, Outward, walk.outs, key);
  }

  /** All that concerns edges: their channels, and the channels of the packets without an edge. */
  method WireAllEdges(g: Graph) returns (ok: bool, w: Wired, ghost keys: seq<Endpoint>)
    ensures ok <==> EdgesFit(g)
    ensures ok ==> Sound(w) && Leftover(g.edges, keys) && w.channels == AllPlans(g.edges, keys)
  {
    var iips := GroupIips(g.edges);
    var rest;
    keys := [];
    ok, w, rest := WireEdges(g.edges, Processes(g), iips);
    if ok {
      UnplacedRemain(g.edges, iips, w, rest);
      LeftoversFit(g, rest);
      ok, w, keys := WireLeftovers(g.edges, Processes(g), rest, w);
    }
  }

  /** The construction after the checks. */
  method WireGraph(g: Graph) returns (ok: bool, w: Wired, ghost walk: Walk)
    ensures ok <==> Consistent(g)
    ensures ok ==> Sound(w) && Walks(g, walk) && w.channels == GraphPlans(g, walk)
  {
    w, walk := Wired([], map[], map[]), Walk([], [], []);
    ok := (g.inports == map[] || Boundary(g, Inward) !in g.nodes)
      && (g.outports == map[] || Boundary(g, Outward) !in g.nodes);
    if !ok {
      return;
    }
    ghost var keys, ins, outs;
    ok, w, keys := WireAllEdges(g);
    if !ok {
      return;
    }
    ok, w, ins := WirePorts(g, Inward, w);
    if !ok {
      return;
    }
    ok, w, outs := WirePorts(g, Outward, w);
    walk := Walk(keys, ins, outs);
  }

  /**
   From graph to channels. It succeeds exactly on the graphs that pass both array-port checks and are
   consistent; then the table owns both ends of every channel, and every initial packet has been
   delivered to its target once and in order.
   */
  method Construct(g: Graph, library: seq<ComponentSpec>) returns (built: Built, ghost walk: Walk)
    ensures built.Ready? <==> PortsAccepted(Sources, g, library) && PortsAccepted(Targets, g, library) && Consistent(g)
    ensures built.Refused? ==> exists side, j, i ::
      Clash(side, g.edges, j, i) && Judge(side, g.nodes, library, Use(side, g.edges[i])).MultipleUse?
    ensures PortsAccepted(Sources, g, library) && PortsAccepted(Targets, g, library) && !Consistent(g) ==> built.Panics?
    ensures built.Ready? ==> Sound(built.w) && Walks(g, walk) && built.w.channels == GraphPlans(g, walk)
    ensures built.Ready? ==> forall key :: Delivered(built.w.channels, key) == IipsFor(g.edges, key)
  {
    walk := Walk([], [], []);
    var verdict, at := CheckArrayPorts(Sources, g.nodes, g.edges, library);
    if verdict.Accepted? {
      verdict, at := CheckArrayPorts(Targets, g.nodes, g.edges, library);
    }
    if !verdict.Accepted? {
      return if verdict.MultipleUse? then Refused else Panics, walk;
    }
    var ok, w;
    ok, w, walk := WireGraph(g);
    if !ok {
      return Panics, walk;
    }
    forall key ensures Delivered(w.channels, key) == IipsFor(g.edges, key) {
      GraphPlansDeliver(g, walk, key);
    }
    built := Ready(w);
  }
}
