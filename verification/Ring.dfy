/** What happens to one ring buffer while its reader runs: arrivals, reads, and moments when it was found empty. */
module Ring {

  datatype RingEvent<P> = Arrived(packet: P) | TookOne | SawEmpty

  predicate Possible<P(==)>(ring: seq<P>, e: RingEvent<P>, capacity: nat) {
    match e
    case Arrived(_) => |ring| < capacity
    case TookOne => ring != []
    case SawEmpty => ring == []
  }

  function Step<P>(ring: seq<P>, e: RingEvent<P>): seq<P>
    requires e.TookOne? ==> ring != []
  {
    match e
    case Arrived(p) => ring + [p]
    case TookOne => ring[1..]
    case SawEmpty => ring
  }

  ghost predicate Legal<P>(ring: seq<P>, es: seq<RingEvent<P>>, capacity: nat)
    decreases |es|
  {
    es == [] || (Possible(ring, es[0], capacity) && Legal(Step(ring, es[0]), es[1..], capacity))
  }

  ghost function After<P>(ring: seq<P>, es: seq<RingEvent<P>>, capacity: nat): seq<P>
    requires Legal(ring, es, capacity)
    decreases |es|
  {
    if es == [] then ring else After(Step(ring, es[0]), es[1..], capacity)
  }

  /** The ring stood at `ring`, these events happened, and now it stands at `now`. */
  ghost predicate Leads<P>(ring: seq<P>, es: seq<RingEvent<P>>, now: seq<P>, capacity: nat) {
    Legal(ring, es, capacity) && After(ring, es, capacity) == now
  }

  lemma LeadsSnoc<P>(ring: seq<P>, es: seq<RingEvent<P>>, now: seq<P>, capacity: nat, e: RingEvent<P>)
    requires Leads(ring, es, now, capacity) && Possible(now, e, capacity)
    ensures Leads(ring, es + [e], Step(now, e), capacity)
    decreases |es|
  {
    if es == [] {
      assert (es + [e])[1..] == [];
    } else {
      assert (es + [e])[1..] == es[1..] + [e];
      LeadsSnoc(Step(ring, es[0]), es[1..], now, capacity, e);
    }
  }

  lemma LeadsConcat<P>(ring: seq<P>, a: seq<RingEvent<P>>, mid: seq<P>, b: seq<RingEvent<P>>, now: seq<P>,
    capacity: nat)
    requires Leads(ring, a, mid, capacity) && Leads(mid, b, now, capacity)
    ensures Leads(ring, a + b, now, capacity)
    decreases |a|
  {
    if a == [] {
      assert a + b == b;
    } else {
      assert (a + b)[1..] == a[1..] + b;
      LeadsConcat(Step(ring, a[0]), a[1..], mid, b, now, capacity);
    }
  }

  /** Of the packets a producer has, those that find room. */
  function Fitting<P>(ring: seq<P>, packets: seq<P>, capacity: nat): (written: seq<P>)
    ensures written == [] || |ring| + |written| <= capacity
  {
    if capacity <= |ring| then []
    else if |ring| + |packets| <= capacity then packets
    else packets[..capacity - |ring|]
  }

  function Arrivals<P>(packets: seq<P>): seq<RingEvent<P>> {
    seq(|packets|, i requires 0 <= i < |packets| => Arrived(packets[i]))
  }

  function Reads<P>(k: nat): seq<RingEvent<P>> {
    seq(k, _ => TookOne)
  }

  lemma LeadsArrivals<P>(ring: seq<P>, es: seq<RingEvent<P>>, now: seq<P>, capacity: nat, packets: seq<P>)
    requires Leads(ring, es, now, capacity) && (packets != [] ==> |now| + |packets| <= capacity)
    ensures Leads(ring, es + Arrivals(packets), now + packets, capacity)
    decreases |packets|
  {
    if packets == [] {
      assert es + Arrivals(packets) == es && now + packets == now;
    } else {
      var k := |packets| - 1;
      LeadsArrivals(ring, es, now, capacity, packets[..k]);
      LeadsSnoc(ring, es + Arrivals(packets[..k]), now + packets[..k], capacity, Arrived(packets[k]));
      assert es + Arrivals(packets[..k]) + [Arrived(packets[k])] == es + Arrivals(packets);
      assert now + packets[..k] + [packets[k]] == now + packets;
    }
  }

  lemma LeadsReads<P>(ring: seq<P>, es: seq<RingEvent<P>>, now: seq<P>, capacity: nat, k: nat)
    requires Leads(ring, es, now, capacity) && k <= |now|
    ensures Leads(ring, es + Reads(k), now[k..], capacity)
  {
    if k == 0 {
      assert es + Reads<P>(0) == es;
    } else {
      LeadsReads(ring, es, now, capacity, k - 1);
      LeadsSnoc(ring, es + Reads(k - 1), now[k - 1..], capacity, TookOne);
      assert es + Reads(k - 1) + [TookOne] == es + Reads(k);
    }
  }

  /** What arrived, and how many packets were read. */
  function ArrivedIn<P>(es: seq<RingEvent<P>>): seq<P> {
    if es == [] then []
    else (if es[0].Arrived? then [es[0].packet] else []) + ArrivedIn(es[1..])
  }

  function TakenIn<P>(es: seq<RingEvent<P>>): nat {
    if es == [] then 0 else (if es[0].TookOne? then 1 else 0) + TakenIn(es[1..])
  }

  lemma TakenConcat<P>(a: seq<RingEvent<P>>, b: seq<RingEvent<P>>)
    ensures TakenIn(a + b) == TakenIn(a) + TakenIn(b)
  {
    if a == [] {
      assert a + b == b;
    } else {
      assert (a + b)[1..] == a[1..] + b;
      TakenConcat(a[1..], b);
    }
  }

  lemma TakenArrivals<P>(packets: seq<P>)
    ensures TakenIn(Arrivals(packets)) == 0
    decreases |packets|
  {
    if packets != [] {
      assert Arrivals(packets)[1..] == Arrivals(packets[1..]);
      TakenArrivals(packets[1..]);
    }
  }

  lemma TakenReads<P>(k: nat)
    ensures TakenIn<P>(Reads(k)) == k
  {
    if k > 0 {
      assert Reads<P>(k)[1..] == Reads(k - 1);
      TakenReads<P>(k - 1);
    }
  }

  /** First in, first out: the reads took the front of what was there and what arrived; the rest is left. */
  lemma {:induction false} Contents<P>(ring: seq<P>, es: seq<RingEvent<P>>, now: seq<P>, capacity: nat)
    requires Leads(ring, es, now, capacity)
    ensures TakenIn(es) <= |ring + ArrivedIn(es)| && now == (ring + ArrivedIn(es))[TakenIn(es)..]
    decreases |es|
  {
    if es != [] {
      var e, rest := es[0], es[1..];
      Contents(Step(ring, e), rest, now, capacity);
      match e {
        case Arrived(p) => assert ring + ([p] + ArrivedIn(rest)) == (ring + [p]) + ArrivedIn(rest);
        case TookOne => assert ring + ArrivedIn(rest) == [ring[0]] + (ring[1..] + ArrivedIn(rest));
        case SawEmpty =>
      }
    }
  }

  /** A ring found empty before anything was read had nothing in it at first. */
  lemma EmptyFromTheStart<P>(ring: seq<P>, es: seq<RingEvent<P>>, now: seq<P>, capacity: nat)
    requires Leads(ring, es, now, capacity) && SawEmpty in es && TakenIn(es) == 0
    ensures ring == []
    decreases |es|
  {
    if es[0] != SawEmpty {
      assert SawEmpty in es[1..];
      EmptyFromTheStart(Step(ring, es[0]), es[1..], now, capacity);
    }
  }
}
