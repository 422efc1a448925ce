/** The discovery script (src/scripts/netplan.ts): starting from a host, `probe`
    walks the neighbours each scan lists, depth first and in scan order, appends
    every name not yet in the network, and hands a server to the rooting manager
    each time it finds a new neighbour. As written it hands over the server being
    probed rather than the neighbour just found. */
module ScriptsNetplan {
  import opened Common
  import opened Game
  import opened Crackers
  import opened ScriptsServer
  import opened ScriptsRooting

  /** Which server a newly found neighbour sends to `tryRoot`: the one being
      probed, as written, or the neighbour itself. */
  datatype Variant = AsWritten | Corrected

  /** What probing has done so far: the network in discovery order, and the names
      of the servers handed to `tryRoot`, in order. */
  datatype Trace = Trace(network: seq<string>, tried: seq<string>)

  /** No name occurs twice. */
  ghost predicate Unique(s: seq<string>)
  {
    forall i, j :: 0 <= i < j < |s| ==> s[i] != s[j]
  }

  /** Some host's scan lists `n`. */
  ghost predicate Listed(w: World, n: string)
  {
    exists h :: h in w && n in w[h].neighbours
  }

  /** Every name of `s` from index `from` on is listed by some scan. */
  ghost predicate AllListed(w: World, s: seq<string>, from: nat)
  {
    forall i :: from <= i < |s| ==> Listed(w, s[i])
  }

  /** Every name added to the tried list between `t` and `r` is `host` or a name
      added to the network. */
  ghost predicate ProbersOnly(host: string, t: Trace, r: Trace)
    requires |t.network| <= |r.network|
  {
    forall i :: |t.tried| <= i < |r.tried| ==> r.tried[i] == host || r.tried[i] in r.network[|t.network|..]
  }

  function TriedFor(v: Variant, prober: string, neighbour: string): string
  {
    match v
    case AsWritten => prober
    case Corrected => neighbour
  }

  /** `r` is `t` with names appended to the network and as many to the tried list. */
  ghost predicate Grows(t: Trace, r: Trace)
  {
    && Extends(t.network, r.network) && Extends(t.tried, r.tried)
    && Elems(t.network) <= Elems(r.network)
    && |r.tried| - |t.tried| == |r.network| - |t.network|
  }

  lemma GrowsAppend(t: Trace, n: string, m: string)
    ensures Grows(t, Trace(t.network + [n], t.tried + [m]))
  {
    var r := Trace(t.network + [n], t.tried + [m]);
    assert r.network[..|t.network|] == t.network;
    assert r.tried[..|t.tried|] == t.tried;
  }

  lemma GrowsTransitive(a: Trace, b: Trace, c: Trace)
    requires Grows(a, b) && Grows(b, c)
    ensures Grows(a, c)
  {
    assert c.network[..|a.network|] == c.network[..|b.network|][..|a.network|];
    assert c.tried[..|a.tried|] == c.tried[..|b.tried|][..|a.tried|];
  }

  /** `probe(host)` on the trace `t`: the loop over the host's neighbours from the
      first one. */
  function Explore(v: Variant, w: World, host: string, t: Trace): (r: Trace)
    requires Closed(w) && host in w
    ensures Grows(t, r)
    decreases |w.Keys - Elems(t.network)|, 1
  {
    ExploreFrom(v, w, host, 0, t)
  }

  /** The loop of `probe(host)` from the neighbour at index `k`: a neighbour
      already in the network is skipped; a new one is appended, a server is handed
      to `tryRoot`, the neighbour is probed, and the loop goes on. */
  function ExploreFrom(v: Variant, w: World, host: string, k: nat, t: Trace): (r: Trace)
    requires Closed(w) && host in w && k <= |w[host].neighbours|
    ensures Grows(t, r)
    decreases |w.Keys - Elems(t.network)|, 0, |w[host].neighbours| - k
  {
    var ns := w[host].neighbours;
    if k == |ns| then
      assert Grows(t, t) by {
        assert t.network[..|t.network|] == t.network && t.tried[..|t.tried|] == t.tried;
      }
      t
    else if ns[k] in t.network then ExploreFrom(v, w, host, k + 1, t)
    else
      var t1 := Found(v, host, ns[k], t);
      UnknownAppend(w.Keys, t.network, ns[k]);
      var t2 := Explore(v, w, ns[k], t1);
      UnknownNoLarger(w.Keys, Elems(t1.network), Elems(t2.network));
      var r := ExploreFrom(v, w, host, k + 1, t2);
      GrowsAppend(t, ns[k], TriedFor(v, host, ns[k]));
      GrowsTransitive(t, t1, t2);
      GrowsTransitive(t, t2, r);
      r
  }

  /** The trace once `host` has found the new neighbour `n`: `n` is appended to
      the network and the server `tryRoot` gets to the tried list. */
  function Found(v: Variant, host: string, n: string, t: Trace): (r: Trace)
    ensures r.network == t.network + [n] && r.tried == t.tried + [TriedFor(v, host, n)]
  {
    Trace(t.network + [n], t.tried + [TriedFor(v, host, n)])
  }

  /** One pass of the loop of `probe` over a new neighbour, as the method takes it. */
  lemma FoundStep(v: Variant, w: World, host: string, k: nat, start: Trace, t: Trace, after: Trace)
    requires Closed(w) && host in w && k < |w[host].neighbours| && w[host].neighbours[k] !in t.network
    requires Elems(start.network) <= Elems(t.network)
    requires after == Explore(v, w, w[host].neighbours[k], Found(v, host, w[host].neighbours[k], t))
    ensures ExploreFrom(v, w, host, k, t) == ExploreFrom(v, w, host, k + 1, after)
    ensures Elems(start.network) <= Elems(after.network)
  {
    var n := w[host].neighbours[k];
    assert Elems(t.network) <= Elems(t.network + [n]);
  }

  /** A neighbour already in the network is skipped. */
  lemma KnownStep(v: Variant, w: World, host: string, k: nat, t: Trace)
    requires Closed(w) && host in w && k < |w[host].neighbours| && w[host].neighbours[k] in t.network
    ensures ExploreFrom(v, w, host, k, t) == ExploreFrom(v, w, host, k + 1, t)
  {
  }

  /** Probing a new neighbour starts with fewer unknown hosts than the probe that
      found it. */
  lemma FoundShrinks(keys: set<string>, start: seq<string>, t: seq<string>, n: string)
    requires Elems(start) <= Elems(t) && n in keys && n !in t
    ensures |keys - Elems(t + [n])| < |keys - Elems(start)|
  {
    UnknownAppend(keys, t, n);
    UnknownNoLarger(keys, Elems(start), Elems(t));
  }

  // ----- Properties of the walk -----

  /** No name is appended twice: the network stays free of duplicates. */
  lemma {:induction false} ExploreUnique(v: Variant, w: World, host: string, t: Trace)
    requires Closed(w) && host in w && Unique(t.network)
    ensures Unique(Explore(v, w, host, t).network)
    decreases |w.Keys - Elems(t.network)|, 1
  {
    ExploreFromUnique(v, w, host, 0, t);
  }

  lemma {:induction false} ExploreFromUnique(v: Variant, w: World, host: string, k: nat, t: Trace)
    requires Closed(w) && host in w && k <= |w[host].neighbours| && Unique(t.network)
    ensures Unique(ExploreFrom(v, w, host, k, t).network)
    decreases |w.Keys - Elems(t.network)|, 0, |w[host].neighbours| - k
  {
    var ns := w[host].neighbours;
    if k < |ns| {
      if ns[k] in t.network {
        ExploreFromUnique(v, w, host, k + 1, t);
      } else {
        var t1 := Found(v, host, ns[k], t);
        assert Unique(t1.network);
        UnknownAppend(w.Keys, t.network, ns[k]);
        ExploreUnique(v, w, ns[k], t1);
        var t2 := Explore(v, w, ns[k], t1);
        UnknownNoLarger(w.Keys, Elems(t1.network), Elems(t2.network));
        ExploreFromUnique(v, w, host, k + 1, t2);
      }
    }
  }

  /** Every name the walk appends is listed by some host's scan: in particular the
      starting host enters the network only if a neighbour lists it. */
  lemma {:induction false} ExploreListed(v: Variant, w: World, host: string, t: Trace)
    requires Closed(w) && host in w
    ensures AllListed(w, Explore(v, w, host, t).network, |t.network|)
    decreases |w.Keys - Elems(t.network)|, 1
  {
    ExploreFromListed(v, w, host, 0, t);
  }

  lemma {:induction false} ExploreFromListed(v: Variant, w: World, host: string, k: nat, t: Trace)
    requires Closed(w) && host in w && k <= |w[host].neighbours|
    ensures AllListed(w, ExploreFrom(v, w, host, k, t).network, |t.network|)
    decreases |w.Keys - Elems(t.network)|, 0, |w[host].neighbours| - k
  {
    var ns := w[host].neighbours;
    if k < |ns| {
      if ns[k] in t.network {
        assert ExploreFrom(v, w, host, k, t) == ExploreFrom(v, w, host, k + 1, t);
        ExploreFromListed(v, w, host, k + 1, t);
      } else {
        var t1 := Found(v, host, ns[k], t);
        UnknownAppend(w.Keys, t.network, ns[k]);
        ExploreListed(v, w, ns[k], t1);
        var t2 := Explore(v, w, ns[k], t1);
        UnknownNoLarger(w.Keys, Elems(t1.network), Elems(t2.network));
        ExploreFromListed(v, w, host, k + 1, t2);
        var r := ExploreFrom(v, w, host, k, t);
        FoundHead(t, ns[k], t1, t2);
        assert Listed(w, ns[k]) by {
          assert host in w && ns[k] in w[host].neighbours;
        }
        ListedChain(w, r.network, t2.network, |t.network|);
      }
    }
  }

  /** The neighbour a probe finds keeps its place through the probe of it. */
  lemma FoundHead(t: Trace, n: string, t1: Trace, t2: Trace)
    requires t1.network == t.network + [n] && Extends(t1.network, t2.network)
    ensures t2.network[|t.network|] == n
  {
    assert t2.network[|t.network|] == t2.network[..|t1.network|][|t.network|];
  }

  lemma ListedChain(w: World, r: seq<string>, t2: seq<string>, from: nat)
    requires from < |t2| && Extends(t2, r) && Listed(w, t2[from])
    requires AllListed(w, t2, from + 1) && AllListed(w, r, |t2|)
    ensures AllListed(w, r, from)
  {
    forall i | from <= i < |r| ensures Listed(w, r[i]) {
      if i < |t2| {
        assert r[i] == t2[i];
      }
    }
  }

  /** Corrected: the servers handed to `tryRoot` are exactly the newly found ones,
      in discovery order. */
  lemma {:induction false} CorrectedTriesFound(w: World, host: string, t: Trace)
    requires Closed(w) && host in w
    ensures var r := Explore(Corrected, w, host, t);
            r.tried[|t.tried|..] == r.network[|t.network|..]
    decreases |w.Keys - Elems(t.network)|, 1
  {
    CorrectedFromTriesFound(w, host, 0, t);
  }

  lemma {:induction false} CorrectedFromTriesFound(w: World, host: string, k: nat, t: Trace)
    requires Closed(w) && host in w && k <= |w[host].neighbours|
    ensures var r := ExploreFrom(Corrected, w, host, k, t);
            r.tried[|t.tried|..] == r.network[|t.network|..]
    decreases |w.Keys - Elems(t.network)|, 0, |w[host].neighbours| - k
  {
    var ns := w[host].neighbours;
    if k < |ns| {
      if ns[k] in t.network {
        CorrectedFromTriesFound(w, host, k + 1, t);
      } else {
        var t1 := Found(Corrected, host, ns[k], t);
        UnknownAppend(w.Keys, t.network, ns[k]);
        CorrectedTriesFound(w, ns[k], t1);
        var t2 := Explore(Corrected, w, ns[k], t1);
        UnknownNoLarger(w.Keys, Elems(t1.network), Elems(t2.network));
        CorrectedFromTriesFound(w, host, k + 1, t2);
        var r := ExploreFrom(Corrected, w, host, k, t);
        TailSplit(t.tried, t1.tried, t2.tried, r.tried);
        TailSplit(t.network, t1.network, t2.network, r.network);
      }
    }
  }

  /** The appended part of `d` over `a`, through the intermediate stages `b`, `c`. */
  lemma TailSplit(a: seq<string>, b: seq<string>, c: seq<string>, d: seq<string>)
    requires Extends(a, b) && Extends(b, c) && Extends(c, d)
    ensures d[|a|..] == b[|a|..] + c[|b|..] + d[|c|..]
  {
    assert c[|a|..] == b[|a|..] + c[|b|..] by {
      assert c == c[..|b|] + c[|b|..];
    }
    assert d[|a|..] == c[|a|..] + d[|c|..] by {
      assert d == d[..|c|] + d[|c|..];
    }
  }

  /** As written: every server handed to `tryRoot` is the one being probed or one
      found during the walk, never a neighbour at the moment it is found. */
  lemma {:induction false} AsWrittenTriesProbers(w: World, host: string, t: Trace)
    requires Closed(w) && host in w
    ensures ProbersOnly(host, t, Explore(AsWritten, w, host, t))
    decreases |w.Keys - Elems(t.network)|, 1
  {
    AsWrittenFromTriesProbers(w, host, 0, t);
  }

  lemma {:induction false} AsWrittenFromTriesProbers(w: World, host: string, k: nat, t: Trace)
    requires Closed(w) && host in w && k <= |w[host].neighbours|
    ensures ProbersOnly(host, t, ExploreFrom(AsWritten, w, host, k, t))
    decreases |w.Keys - Elems(t.network)|, 0, |w[host].neighbours| - k
  {
    var ns := w[host].neighbours;
    if k < |ns| {
      if ns[k] in t.network {
        assert ExploreFrom(AsWritten, w, host, k, t) == ExploreFrom(AsWritten, w, host, k + 1, t);
        AsWrittenFromTriesProbers(w, host, k + 1, t);
      } else {
        var t1 := Found(AsWritten, host, ns[k], t);
        UnknownAppend(w.Keys, t.network, ns[k]);
        AsWrittenTriesProbers(w, ns[k], t1);
        var t2 := Explore(AsWritten, w, ns[k], t1);
        UnknownNoLarger(w.Keys, Elems(t1.network), Elems(t2.network));
        AsWrittenFromTriesProbers(w, host, k + 1, t2);
        var r := ExploreFrom(AsWritten, w, host, k, t);
        forall i | |t.tried| <= i < |r.tried|
          ensures r.tried[i] == host || r.tried[i] in r.network[|t.network|..]
        {
          TailSplit(t.network, t1.network, t2.network, r.network);
          if i == |t.tried| {
            assert r.tried[i] == t2.tried[i] == t1.tried[i] == host;
          } else if i < |t2.tried| {
            assert r.tried[i] == t2.tried[i];
            if t2.tried[i] == ns[k] {
              assert r.network[|t.network|] == ns[k];
            }
          }
        }
      }
    }
  }

  /** A host record with only its scan result set. */
  function Node(neighbours: seq<string>): Host
  {
    Host(0, 0, 0.0, 0.0, 0.0, 0.0, 0.0, false, 0, 0, neighbours)
  }

  /** "home" links to "a" and "b", each of which links back to "home" only. */
  function Fork(): World
  {
    map["home" := Node(["a", "b"]), "a" := Node(["home"]), "b" := Node(["home"])]
  }

  /** The discrepancy: from an empty network, probing "home" finds "a", "home" and
      "b", but as written the servers handed to `tryRoot` are "home", "a" and
      "home" again, so "b" is never tried; corrected, each found server is tried
      once. */
  lemma ForkSkipsLeaf()
    ensures Closed(Fork())
    ensures Explore(AsWritten, Fork(), "home", Trace([], [])) == Trace(["a", "home", "b"], ["home", "a", "home"])
    ensures Explore(Corrected, Fork(), "home", Trace([], [])) == Trace(["a", "home", "b"], ["a", "home", "b"])
  {
    var w := Fork();
    assert w["home"].neighbours == ["a", "b"] && w["a"].neighbours == ["home"] && w["b"].neighbours == ["home"];
    forall h, n | h in w && n in w[h].neighbours ensures n in w {
      assert h == "home" || h == "a" || h == "b";
    }
    AsWrittenFork(w);
    CorrectedFork(w);
  }

  lemma AsWrittenFork(w: World)
    requires w == Fork() && Closed(w)
    ensures Explore(AsWritten, w, "home", Trace([], [])) == Trace(["a", "home", "b"], ["home", "a", "home"])
  {
    assert w["home"].neighbours == ["a", "b"] && w["a"].neighbours == ["home"] && w["b"].neighbours == ["home"];
    var t3 := Trace(["a", "home", "b"], ["home", "a", "home"]);
    assert "home" in t3.network && "a" in t3.network && "b" in t3.network;
    assert ExploreFrom(AsWritten, w, "b", 1, t3) == t3;
    assert ExploreFrom(AsWritten, w, "b", 0, t3) == t3;
    assert ExploreFrom(AsWritten, w, "home", 2, t3) == t3;
    var t2 := Trace(["a", "home"], ["home", "a"]);
    assert "a" in t2.network && "b" !in t2.network;
    assert Found(AsWritten, "home", "b", t2) == t3;
    assert ExploreFrom(AsWritten, w, "home", 1, t2) == t3;
    assert ExploreFrom(AsWritten, w, "home", 0, t2) == t3;
    assert ExploreFrom(AsWritten, w, "a", 1, t3) == t3;
    var t1 := Trace(["a"], ["home"]);
    assert "home" !in t1.network;
    assert Found(AsWritten, "a", "home", t1) == t2;
    assert ExploreFrom(AsWritten, w, "a", 0, t1) == t3;
    assert ExploreFrom(AsWritten, w, "home", 1, t3) == t3;
    assert Found(AsWritten, "home", "a", Trace([], [])) == t1;
    assert ExploreFrom(AsWritten, w, "home", 0, Trace([], [])) == t3;
  }

  lemma CorrectedFork(w: World)
    requires w == Fork() && Closed(w)
    ensures Explore(Corrected, w, "home", Trace([], [])) == Trace(["a", "home", "b"], ["a", "home", "b"])
  {
    assert w["home"].neighbours == ["a", "b"] && w["a"].neighbours == ["home"] && w["b"].neighbours == ["home"];
    var t3 := Trace(["a", "home", "b"], ["a", "home", "b"]);
    assert "home" in t3.network && "a" in t3.network && "b" in t3.network;
    assert ExploreFrom(Corrected, w, "b", 1, t3) == t3;
    assert ExploreFrom(Corrected, w, "b", 0, t3) == t3;
    assert ExploreFrom(Corrected, w, "home", 2, t3) == t3;
    var t2 := Trace(["a", "home"], ["a", "home"]);
    assert "a" in t2.network && "b" !in t2.network;
    assert Found(Corrected, "home", "b", t2) == t3;
    assert ExploreFrom(Corrected, w, "home", 1, t2) == t3;
    assert ExploreFrom(Corrected, w, "home", 0, t2) == t3;
    assert ExploreFrom(Corrected, w, "a", 1, t3) == t3;
    var t1 := Trace(["a"], ["a"]);
    assert "home" !in t1.network;
    assert Found(Corrected, "a", "home", t1) == t2;
    assert ExploreFrom(Corrected, w, "a", 0, t1) == t3;
    assert ExploreFrom(Corrected, w, "home", 1, t3) == t3;
    assert Found(Corrected, "home", "a", Trace([], [])) == t1;
    assert ExploreFrom(Corrected, w, "home", 0, Trace([], [])) == t3;
  }

  class Netplan {
    const host: Server
    var network: seq<Server>
    const rootingManager: RootingManager
    /** The names of the servers handed to `tryRoot`, in order. */
    var tried: seq<string>

    function State(): Trace
      reads this
    {
      Trace(Names(network), tried)
    }

    /** `new Netplan(ns, hostname = "home")`: the starting host is read, the network
        is empty, and the rooting manager is built from the programs present. */
    constructor (w: World, hostname: Option<string>, owned: set<Program>)
      requires (if hostname.Some? then hostname.value else "home") in w
      ensures host.name == (if hostname.Some? then hostname.value else "home") && host.ReadFrom(w)
      ensures network == [] && tried == []
      ensures rootingManager.tools == ToolList(owned)
    {
      host := new Server(w, if hostname.Some? then hostname.value else "home");
      network := [];
      rootingManager := new RootingManager(owned);
      tried := [];
    }

    /** `initialize`: probe the starting host; the host itself is not appended. */
    method Initialize(v: Variant, w: World, hackingLevel: int)
      requires Closed(w) && host.name in w
      modifies this
      ensures State() == Explore(v, w, host.name, old(State()))
    {
      Probe(v, w, host, hackingLevel);
    }

    /** `probe`: for each neighbour the scan lists, in order, one not yet in the
        network makes a `tryRoot` call, is appended, and is probed in turn. */
    method Probe(v: Variant, w: World, server: Server, hackingLevel: int)
      requires Closed(w) && server.name in w
      modifies this
      ensures State() == Explore(v, w, server.name, old(State()))
      decreases |w.Keys - Elems(Names(network))|, 3
    {
      var neighbours := server.Scan(w);
      ProbeAll(v, w, server, neighbours, hackingLevel, |w.Keys - Elems(Names(network))|);
    }

    /** The loop of `probe` over the neighbours its scan returned; `bound` is the
        number of hosts unknown when the probe began. */
    method ProbeAll(v: Variant, w: World, server: Server, neighbours: seq<Server>, hackingLevel: int,
                    ghost bound: nat)
      requires Closed(w) && server.name in w && Names(neighbours) == w[server.name].neighbours
      requires |w.Keys - Elems(Names(network))| <= bound
      modifies this
      ensures State() == ExploreFrom(v, w, server.name, 0, old(State()))
      decreases bound, 2
    {
      ghost var start := State();
      var i := 0;
      while i < |neighbours|
        invariant 0 <= i <= |neighbours|
        invariant ExploreFrom(v, w, server.name, i, State()) == ExploreFrom(v, w, server.name, 0, start)
        invariant Elems(start.network) <= Elems(State().network)
      {
        ProbeNeighbour(v, w, server, neighbours, i, hackingLevel, start, bound);
        i := i + 1;
      }
    }

    /** One pass of the loop of `probe`: the neighbour at index `i` is skipped when
        its name is known, and otherwise handled by `ProbeFound`. */
    method ProbeNeighbour(v: Variant, w: World, server: Server, neighbours: seq<Server>, i: nat,
                          hackingLevel: int, ghost start: Trace, ghost bound: nat)
      requires Closed(w) && server.name in w && Names(neighbours) == w[server.name].neighbours
      requires i < |neighbours| && Elems(start.network) <= Elems(State().network)
      requires |w.Keys - Elems(start.network)| <= bound
      modifies this
      ensures ExploreFrom(v, w, server.name, i + 1, State()) == ExploreFrom(v, w, server.name, i, old(State()))
      ensures Elems(start.network) <= Elems(State().network)
      decreases bound, 1
    {
      ghost var ns := w[server.name].neighbours;
      ghost var before := State();
      var known := IsKnown(network, neighbours[i].name);
      if !known {
        FoundShrinks(w.Keys, start.network, before.network, ns[i]);
        ProbeFound(v, w, server, neighbours[i], hackingLevel, bound);
        FoundStep(v, w, server.name, i, start, before, State());
      } else {
        KnownStep(v, w, server.name, i, before);
      }
    }

    /** The body of the loop of `probe` for a neighbour not yet in the network:
        `tryRoot`, append, and probe the neighbour; `bound` is the number of hosts
        unknown when the probe that found it began. */
    method ProbeFound(v: Variant, w: World, server: Server, found: Server, hackingLevel: int, ghost bound: nat)
      requires Closed(w) && server.name in w && found.name in w
      requires |w.Keys - Elems(Names(network) + [found.name])| < bound
      modifies this
      ensures State() == Explore(v, w, found.name, Found(v, server.name, found.name, old(State())))
      decreases bound, 0
    {
      var who, ok, calls := RootFound(v, server, found, hackingLevel);
      tried := tried + [who.name];
      NamesSnoc(network, found);
      network := network + [found];
      Probe(v, w, found, hackingLevel);
    }

    /** The `tryRoot` call a new neighbour triggers: as written, on the server being
        probed with the port check counting `nuke`; corrected, on the neighbour with
        the openers only. */
    method RootFound(v: Variant, prober: Server, found: Server, hackingLevel: int)
      returns (who: Server, ok: bool, calls: seq<Call>)
      ensures who.name == TriedFor(v, prober.name, found.name)
      ensures var tools := rootingManager.tools;
              (ok, calls) == RootAttempt(tools, if v == AsWritten then |tools| else |tools| - 1, who.isRooted,
                                         who.minimumHackingLevel, who.neededOpenPorts, hackingLevel, who.name)
    {
      if v == AsWritten {
        who := prober;
        ok, calls := rootingManager.TryRoot(who, hackingLevel);
      } else {
        who := found;
        ok, calls := rootingManager.TryRootCorrected(who, hackingLevel);
      }
    }

    /** `network.some(e => name === e.name)`. */
    static function IsKnown(network: seq<Server>, name: string): (b: bool)
      ensures b <==> name in Names(network)
    {
      if network == [] then false
      else
        assert Names(network) == [network[0].name] + Names(network[1..]);
        network[0].name == name || IsKnown(network[1..], name)
    }
  }
}
