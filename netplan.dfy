/** The older netplan scheduler (src/lib/netplan/netplan.ts): discovers the network
    from a host, roots what it can, and spreads a script over the rooted servers. */
module Netplan {
  import opened Common
  import opened Game
  import opened Crackers
  import opened ClusterJob
  import opened NetplanServer
  import opened NetplanRooting

  // ----- The server list -----

  ghost function ServerNames(s: seq<Server>): set<string>
  {
    set i | 0 <= i < |s| :: s[i].name
  }

  ghost predicate Distinct(s: seq<Server>)
  {
    forall i, j :: 0 <= i < j < |s| ==> s[i].name != s[j].name
  }

  /** Every server of the list is a host of the world. */
  ghost predicate InWorld(s: seq<Server>, w: World)
  {
    forall i :: 0 <= i < |s| ==> s[i].name in w
  }

  /** Every server from position `from` on was created by a `scan`: default options,
      and fields that still hold what the game reported. */
  ghost predicate ScannedFrom(s: seq<Server>, from: nat, w: World)
    reads s
  {
    forall i :: from <= i < |s| ==> s[i].name in w && s[i].schedule && s[i].Current(w)
  }

  lemma ExtendsNames(a: seq<Server>, b: seq<Server>)
    requires Extends(a, b)
    ensures ServerNames(a) <= ServerNames(b)
  {
    forall i | 0 <= i < |a| ensures a[i].name in ServerNames(b) {
      assert b[i] == a[i];
    }
  }

  lemma AppendServer(a: seq<Server>, x: Server, w: World)
    requires Distinct(a) && x.name !in ServerNames(a)
    requires InWorld(a, w) && x.name in w
    ensures Distinct(a + [x]) && InWorld(a + [x], w) && Extends(a, a + [x])
    ensures ServerNames(a + [x]) == ServerNames(a) + {x.name}
  {
    var b := a + [x];
    assert b[..|a|] == a;
    forall i | 0 <= i < |b| ensures b[i].name in w {
      if i < |a| {
        assert b[i] == a[i];
      }
    }
    forall i, j | 0 <= i < j < |b| ensures b[i].name != b[j].name {
      assert b[i] == a[i];
      if j < |a| {
        assert b[j] == a[j];
      }
    }
    forall n | n in ServerNames(b) ensures n in ServerNames(a) + {x.name} {
      var i :| 0 <= i < |b| && b[i].name == n;
      if i < |a| {
        assert b[i] == a[i];
      }
    }
    forall n | n in ServerNames(a) + {x.name} ensures n in ServerNames(b) {
      if n == x.name {
        assert b[|a|] == x;
      } else {
        var i :| 0 <= i < |a| && a[i].name == n;
        assert b[i] == a[i];
      }
    }
  }

  lemma ScannedStep(mid: seq<Server>, after: seq<Server>, from: nat, w: World)
    requires from <= |mid| && ScannedFrom(mid, from, w) && Extends(mid, after)
    requires ScannedFrom(after, |mid| + 1, w)
    requires |after| > |mid| ==> after[|mid|].name in w && after[|mid|].schedule && after[|mid|].Current(w)
    ensures ScannedFrom(after, from, w)
  {
    forall i | from <= i < |mid| ensures after[i] == mid[i] {
      assert after[..|mid|][i] == mid[i];
    }
  }

  /** What one probe of a neighbour keeps of the invariant of the loop in `probe`. */
  lemma ProbeLoopStep(start: seq<Server>, mid: seq<Server>, after: seq<Server>, bound: nat, w: World)
    requires Extends(start, mid) && Extends(mid, after)
    requires ScannedFrom(mid, |start|, w) && ScannedFrom(after, |mid| + 1, w)
    requires |after| > |mid| ==> after[|mid|].name in w && after[|mid|].schedule && after[|mid|].Current(w)
    requires |w.Keys - ServerNames(mid)| < bound
    ensures Extends(start, after) && ScannedFrom(after, |start|, w)
    ensures |w.Keys - ServerNames(after)| < bound
  {
    ExtendsNames(mid, after);
    UnknownNoLarger(w.Keys, ServerNames(mid), ServerNames(after));
    ExtendsTransitive(start, mid, after);
    ScannedStep(mid, after, |start|, w);
  }

  /** `network.some(e => host.name == e.name)`. */
  function IsKnown(s: seq<Server>, name: string): (b: bool)
    ensures b <==> name in ServerNames(s)
  {
    if s == [] then false
    else
      assert ServerNames(s) == {s[0].name} + ServerNames(s[1..]) by {
        assert forall i :: 0 < i < |s| ==> s[i] == s[1..][i - 1];
      }
      s[0].name == name || IsKnown(s[1..], name)
  }

  /** `getSchedulableServers`: the servers marked schedulable whose recorded root flag
      is set, in list order. */
  function SchedulableOf(s: seq<Server>): (r: seq<Server>)
    reads s
    ensures |r| <= |s|
    ensures forall i :: 0 <= i < |r| ==> r[i] in s && r[i].schedule && r[i].isRooted
    ensures forall i :: 0 <= i < |s| && s[i].schedule && s[i].isRooted ==> s[i] in r
  {
    if s == [] then []
    else (if s[0].schedule && s[0].isRooted then [s[0]] else []) + SchedulableOf(s[1..])
  }

  // ----- The walk of `probe` -----

  /** What discovery has produced so far: the names of the servers in the network,
      in order, and the game calls the rooting manager made. */
  datatype Probed = Probed(names: seq<string>, calls: seq<Call>)

  /** The names of a list of servers, in order. */
  ghost function NameList(s: seq<Server>): (names: seq<string>)
    ensures |names| == |s| && forall i :: 0 <= i < |s| ==> names[i] == s[i].name
  {
    seq(|s|, i requires 0 <= i < |s| => s[i].name)
  }

  lemma NameListElems(s: seq<Server>)
    ensures Elems(NameList(s)) == ServerNames(s)
  {
    forall x | x in ServerNames(s) ensures x in NameList(s) {
      var i :| 0 <= i < |s| && s[i].name == x;
      assert NameList(s)[i] == x;
    }
  }

  lemma NameListSnoc(s: seq<Server>, x: Server)
    ensures NameList(s + [x]) == NameList(s) + [x.name]
  {
  }

  /** The calls `tryRoot` makes on the host `name` as the game reports it. */
  function RootCalls(crackers: seq<Program>, w: World, name: string, hackingLevel: int): seq<Call>
    requires name in w
  {
    Attempt(crackers, w[name].rooted, w[name].requiredHackingLevel, w[name].portsRequired, hackingLevel, name).1
  }

  /** `r` is `t` with names and calls appended. */
  ghost predicate Grows(t: Probed, r: Probed)
  {
    Extends(t.names, r.names) && Extends(t.calls, r.calls) && Elems(t.names) <= Elems(r.names)
  }

  lemma GrowsTransitive(a: Probed, b: Probed, c: Probed)
    requires Grows(a, b) && Grows(b, c)
    ensures Grows(a, c)
  {
    ExtendsTransitive(a.names, b.names, c.names);
    ExtendsTransitive(a.calls, b.calls, c.calls);
  }

  /** A server found new: the rooting manager tries it, then it is appended. */
  function Found(crackers: seq<Program>, w: World, hackingLevel: int, name: string, t: Probed): (r: Probed)
    requires name in w
    ensures Grows(t, r) && Elems(r.names) == Elems(t.names) + {name}
    ensures r.names == t.names + [name] && r.calls == t.calls + RootCalls(crackers, w, name, hackingLevel)
  {
    var r := Probed(t.names + [name], t.calls + RootCalls(crackers, w, name, hackingLevel));
    assert r.names[..|t.names|] == t.names && r.calls[..|t.calls|] == t.calls;
    r
  }

  /** `probe(server)` for the host `name`: a known name changes nothing; a new one is
      tried, appended, and the hosts its scan lists are probed in order. */
  ghost function Walk(crackers: seq<Program>, w: World, hackingLevel: int, name: string, t: Probed): (r: Probed)
    requires Closed(w) && name in w
    ensures Grows(t, r)
    decreases |w.Keys - Elems(t.names)|, 1
  {
    if name in t.names then
      assert t.names[..|t.names|] == t.names && t.calls[..|t.calls|] == t.calls;
      t
    else
      var t1 := Found(crackers, w, hackingLevel, name, t);
      UnknownShrinks(w.Keys, Elems(t.names), Elems(t1.names), name);
      var r := WalkFrom(crackers, w, hackingLevel, name, 0, t1);
      GrowsTransitive(t, t1, r);
      r
  }

  /** The loop of `probe` over the hosts the scan of `host` lists, from index `k`. */
  ghost function WalkFrom(crackers: seq<Program>, w: World, hackingLevel: int, host: string, k: nat, t: Probed): (r: Probed)
    requires Closed(w) && host in w && k <= |w[host].neighbours|
    ensures Grows(t, r)
    decreases |w.Keys - Elems(t.names)|, 0, |w[host].neighbours| - k
  {
    var ns := w[host].neighbours;
    if k == |ns| then
      assert t.names[..|t.names|] == t.names && t.calls[..|t.calls|] == t.calls;
      t
    else if ns[k] in t.names then WalkFrom(crackers, w, hackingLevel, host, k + 1, t)
    else
      var t1 := Found(crackers, w, hackingLevel, ns[k], t);
      UnknownShrinks(w.Keys, Elems(t.names), Elems(t1.names), ns[k]);
      var t2 := WalkFrom(crackers, w, hackingLevel, ns[k], 0, t1);
      GrowsTransitive(t, t1, t2);
      UnknownNoLarger(w.Keys, Elems(t.names), Elems(t2.names));
      var r := WalkFrom(crackers, w, hackingLevel, host, k + 1, t2);
      GrowsTransitive(t, t2, r);
      r
  }

  /** One pass of the loop of `probe`: probe the `k`-th listed host, go on from `k + 1`. */
  lemma WalkStep(crackers: seq<Program>, w: World, hackingLevel: int, host: string, k: nat, t: Probed)
    requires Closed(w) && host in w && k < |w[host].neighbours|
    ensures WalkFrom(crackers, w, hackingLevel, host, k, t)
            == WalkFrom(crackers, w, hackingLevel, host, k + 1, Walk(crackers, w, hackingLevel, w[host].neighbours[k], t))
  {
  }

  lemma WalkFromNew(crackers: seq<Program>, w: World, hackingLevel: int, host: string, k: nat, t: Probed)
    requires Closed(w) && host in w && k < |w[host].neighbours| && w[host].neighbours[k] !in t.names
    ensures var n := w[host].neighbours[k];
            WalkFrom(crackers, w, hackingLevel, host, k, t)
            == WalkFrom(crackers, w, hackingLevel, host, k + 1,
                        WalkFrom(crackers, w, hackingLevel, n, 0, Found(crackers, w, hackingLevel, n, t)))
  {
  }

  // ----- Properties of the walk -----

  /** The calls of `tryRoot` on each of the names, in order. */
  ghost function CallsOf(crackers: seq<Program>, w: World, hackingLevel: int, names: seq<string>): seq<Call>
    requires forall i :: 0 <= i < |names| ==> names[i] in w
  {
    if names == [] then []
    else CallsOf(crackers, w, hackingLevel, names[..|names| - 1])
         + RootCalls(crackers, w, names[|names| - 1], hackingLevel)
  }

  /** Every name is a host of the world, and the calls are those of trying each name
      once, in the order the names were found. */
  ghost predicate TriedInOrder(crackers: seq<Program>, w: World, hackingLevel: int, t: Probed)
  {
    && (forall i :: 0 <= i < |t.names| ==> t.names[i] in w)
    && t.calls == CallsOf(crackers, w, hackingLevel, t.names)
  }

  lemma FoundTried(crackers: seq<Program>, w: World, hackingLevel: int, name: string, t: Probed)
    requires name in w && TriedInOrder(crackers, w, hackingLevel, t)
    ensures TriedInOrder(crackers, w, hackingLevel, Found(crackers, w, hackingLevel, name, t))
  {
    var r := Found(crackers, w, hackingLevel, name, t);
    assert r.names[..|r.names| - 1] == t.names;
  }

  /** The rooting manager tries every server `probe` adds exactly once, in the order
      they join the network. */
  lemma {:induction false} WalkTried(crackers: seq<Program>, w: World, hackingLevel: int, name: string, t: Probed)
    requires Closed(w) && name in w && TriedInOrder(crackers, w, hackingLevel, t)
    ensures TriedInOrder(crackers, w, hackingLevel, Walk(crackers, w, hackingLevel, name, t))
    decreases |w.Keys - Elems(t.names)|, 1
  {
    if name !in t.names {
      var t1 := Found(crackers, w, hackingLevel, name, t);
      FoundTried(crackers, w, hackingLevel, name, t);
      UnknownShrinks(w.Keys, Elems(t.names), Elems(t1.names), name);
      WalkFromTried(crackers, w, hackingLevel, name, 0, t1);
    }
  }

  lemma {:induction false} WalkFromTried(crackers: seq<Program>, w: World, hackingLevel: int, host: string, k: nat, t: Probed)
    requires Closed(w) && host in w && k <= |w[host].neighbours| && TriedInOrder(crackers, w, hackingLevel, t)
    ensures TriedInOrder(crackers, w, hackingLevel, WalkFrom(crackers, w, hackingLevel, host, k, t))
    decreases |w.Keys - Elems(t.names)|, 0, |w[host].neighbours| - k
  {
    var ns := w[host].neighbours;
    if k < |ns| {
      if ns[k] in t.names {
        WalkFromTried(crackers, w, hackingLevel, host, k + 1, t);
      } else {
        var t1 := Found(crackers, w, hackingLevel, ns[k], t);
        FoundTried(crackers, w, hackingLevel, ns[k], t);
        UnknownShrinks(w.Keys, Elems(t.names), Elems(t1.names), ns[k]);
        WalkFromTried(crackers, w, hackingLevel, ns[k], 0, t1);
        var t2 := WalkFrom(crackers, w, hackingLevel, ns[k], 0, t1);
        UnknownNoLarger(w.Keys, Elems(t.names), Elems(t2.names));
        WalkFromTried(crackers, w, hackingLevel, host, k + 1, t2);
        WalkFromNew(crackers, w, hackingLevel, host, k, t);
      }
    }
  }

  lemma GrowsKeeps(t: Probed, r: Probed, x: string)
    requires Grows(t, r) && x in t.names
    ensures x in r.names
  {
    var i :| 0 <= i < |t.names| && t.names[i] == x;
    assert r.names[..|t.names|][i] == x;
  }

  /** Every name from position `from` on has every host its scan lists among `names`. */
  ghost predicate NeighboursListed(w: World, names: seq<string>, from: nat)
  {
    forall i, j :: from <= i < |names| && names[i] in w && 0 <= j < |w[names[i]].neighbours| ==>
      w[names[i]].neighbours[j] in names
  }

  /** Every host the scan of `host` lists from index `k` on is among `names`. */
  ghost predicate ScanListed(w: World, host: string, k: nat, names: seq<string>)
    requires host in w
  {
    forall j :: k <= j < |w[host].neighbours| ==> w[host].neighbours[j] in names
  }

  lemma ListedExtend(w: World, a: seq<string>, b: seq<string>, from: nat)
    requires from <= |a| && Extends(a, b)
    requires NeighboursListed(w, a, from) && NeighboursListed(w, b, |a|)
    ensures NeighboursListed(w, b, from)
  {
    forall i | from <= i < |a| ensures b[i] == a[i] && Elems(a) <= Elems(b) {
      assert b[..|a|][i] == a[i];
      forall x | x in a ensures x in b {
        var m :| 0 <= m < |a| && a[m] == x;
        assert b[..|a|][m] == x;
      }
    }
  }

  lemma ListedHead(w: World, s: seq<string>, x: string, b: seq<string>)
    requires x in w && Extends(s + [x], b)
    requires ScanListed(w, x, 0, b) && NeighboursListed(w, b, |s| + 1)
    ensures NeighboursListed(w, b, |s|)
  {
    assert b[|s|] == x by {
      assert b[..|s| + 1] == s + [x];
    }
  }

  /** `probe` is a complete walk: the probed name ends up in the network, and every
      server it adds has every host its scan lists in the network. */
  lemma {:induction false} WalkListed(crackers: seq<Program>, w: World, hackingLevel: int, name: string, t: Probed)
    requires Closed(w) && name in w
    ensures name in Walk(crackers, w, hackingLevel, name, t).names
    ensures NeighboursListed(w, Walk(crackers, w, hackingLevel, name, t).names, |t.names|)
    decreases |w.Keys - Elems(t.names)|, 1
  {
    if name !in t.names {
      var t1 := Found(crackers, w, hackingLevel, name, t);
      UnknownShrinks(w.Keys, Elems(t.names), Elems(t1.names), name);
      WalkFromListed(crackers, w, hackingLevel, name, 0, t1);
      var r := WalkFrom(crackers, w, hackingLevel, name, 0, t1);
      ListedHead(w, t.names, name, r.names);
      assert r.names[|t.names|] == name;
    }
  }

  lemma {:induction false} WalkFromListed(crackers: seq<Program>, w: World, hackingLevel: int, host: string, k: nat, t: Probed)
    requires Closed(w) && host in w && k <= |w[host].neighbours|
    ensures ScanListed(w, host, k, WalkFrom(crackers, w, hackingLevel, host, k, t).names)
    ensures NeighboursListed(w, WalkFrom(crackers, w, hackingLevel, host, k, t).names, |t.names|)
    decreases |w.Keys - Elems(t.names)|, 0, |w[host].neighbours| - k
  {
    var ns := w[host].neighbours;
    if k < |ns| {
      if ns[k] in t.names {
        WalkFromListed(crackers, w, hackingLevel, host, k + 1, t);
        GrowsKeeps(t, WalkFrom(crackers, w, hackingLevel, host, k + 1, t), ns[k]);
      } else {
        var t1 := Found(crackers, w, hackingLevel, ns[k], t);
        UnknownShrinks(w.Keys, Elems(t.names), Elems(t1.names), ns[k]);
        var t2 := WalkFrom(crackers, w, hackingLevel, ns[k], 0, t1);
        WalkFromListed(crackers, w, hackingLevel, ns[k], 0, t1);
        ListedHead(w, t.names, ns[k], t2.names);
        UnknownNoLarger(w.Keys, Elems(t.names), Elems(t2.names));
        WalkFromListed(crackers, w, hackingLevel, host, k + 1, t2);
        var r := WalkFrom(crackers, w, hackingLevel, host, k + 1, t2);
        ListedExtend(w, t2.names, r.names, |t.names|);
        WalkFromNew(crackers, w, hackingLevel, host, k, t);
        GrowsKeeps(t1, t2, ns[k]);
        GrowsKeeps(t2, r, ns[k]);
      }
    }
  }

  // ----- Scheduling a script -----

  /** One entry of the map `schedule` returns: a server and the threads it was given. */
  datatype Assignment = Assignment(server: Server, threads: int)

  /** What `schedule` ends in: the script exits (`ns.exit()`), or it returns its map
      after copying and starting the script on every server of it. */
  datatype Outcome = Exited | Scheduled(assignments: seq<Assignment>, effects: seq<Effect>)

  /** The threads a server takes once `update` has read the game: its free RAM over
      the script's cost, rounded down. */
  function Cap(s: Server, cost: Cost, w: World): int
    requires s.name in w
  {
    Capacity(s.totalRam - w[s.name].usedRam, cost)
  }

  /** The capacities of a list of servers. */
  function Caps(cs: seq<Server>, cost: Cost, w: World): (c: seq<int>)
    requires InWorld(cs, w)
    ensures |c| == |cs|
  {
    if cs == [] then [] else [Cap(cs[0], cost, w)] + Caps(cs[1..], cost, w)
  }

  /** The assignments of the loop of `schedule`: while threads remain, a server that
      takes none is skipped, any other is given its whole capacity. */
  function NetPlace(cs: seq<Server>, remaining: int, cost: Cost, w: World): seq<Assignment>
    requires InWorld(cs, w)
  {
    if cs == [] || remaining <= 0 then []
    else
      var t := Cap(cs[0], cost, w);
      if t == 0 then NetPlace(cs[1..], remaining, cost, w)
      else [Assignment(cs[0], t)] + NetPlace(cs[1..], remaining - t, cost, w)
  }

  /** The threads still unassigned when the loop ends. */
  function NetLeft(cs: seq<Server>, remaining: int, cost: Cost, w: World): int
    requires InWorld(cs, w)
  {
    if cs == [] || remaining <= 0 then remaining
    else NetLeft(cs[1..], remaining - Cap(cs[0], cost, w), cost, w)
  }

  /** How many servers the loop reaches (and so refreshes with `update`). */
  function NetReached(cs: seq<Server>, remaining: int, cost: Cost, w: World): nat
    requires InWorld(cs, w)
  {
    if cs == [] || remaining <= 0 then 0
    else 1 + NetReached(cs[1..], remaining - Cap(cs[0], cost, w), cost, w)
  }

  /** One step of the loop of `schedule`, at position `i` with threads remaining. */
  lemma NetStep(cs: seq<Server>, i: nat, rem: int, cost: Cost, w: World)
    requires InWorld(cs, w) && i < |cs| && rem > 0
    ensures var t := Cap(cs[i], cost, w);
            && NetPlace(cs[i..], rem, cost, w)
               == (if t == 0 then NetPlace(cs[i + 1..], rem, cost, w)
                   else [Assignment(cs[i], t)] + NetPlace(cs[i + 1..], rem - t, cost, w))
            && NetLeft(cs[i..], rem, cost, w) == NetLeft(cs[i + 1..], rem - t, cost, w)
            && NetReached(cs[i..], rem, cost, w) == 1 + NetReached(cs[i + 1..], rem - t, cost, w)
  {
    assert cs[i..][1..] == cs[i + 1..];
  }

  /** After `i` servers, the loop's assignments, remaining threads and count of
      servers reached are those `NetPlace`, `NetLeft` and `NetReached` give for the
      rest of the list. */
  ghost predicate InStep(cs: seq<Server>, i: nat, threads: int, rem: int, res: seq<Assignment>, cost: Cost, w: World)
    requires InWorld(cs, w) && i <= |cs|
  {
    && NetPlace(cs, threads, cost, w) == res + NetPlace(cs[i..], rem, cost, w)
    && NetLeft(cs, threads, cost, w) == NetLeft(cs[i..], rem, cost, w)
    && NetReached(cs, threads, cost, w) == i + NetReached(cs[i..], rem, cost, w)
  }

  /** The loop of `schedule` keeps its accumulated assignments, the threads remaining
      and the count of servers reached in step with `NetPlace`, `NetLeft` and
      `NetReached`. */
  lemma VisitStep(cs: seq<Server>, i: nat, threads: int, rem: int, res: seq<Assignment>, t: int, cost: Cost, w: World)
    requires InWorld(cs, w) && i < |cs| && rem > 0 && t == Cap(cs[i], cost, w)
    requires InStep(cs, i, threads, rem, res, cost, w)
    ensures InStep(cs, i + 1, threads, if t != 0 then rem - t else rem,
                   if t != 0 then res + [Assignment(cs[i], t)] else res, cost, w)
  {
    NetStep(cs, i, rem, cost, w);
    if t != 0 {
      AppendAssoc(res, [Assignment(cs[i], t)], NetPlace(cs[i + 1..], rem - t, cost, w));
    }
  }


  function AssignedThreads(a: seq<Assignment>): int
  {
    if a == [] then 0 else AssignedThreads(a[..|a| - 1]) + a[|a| - 1].threads
  }

  /** `res.forEach`: copy the script to every server of the map, then start it there
      with the assigned threads, in insertion order. `self` is the host running the
      scheduler, from which `scp` copies. */
  function Launch(a: seq<Assignment>, script: string, args: seq<Arg>, self: string): seq<Effect>
  {
    if a == [] then []
    else
      var last := a[|a| - 1];
      Launch(a[..|a| - 1], script, args, self)
        + [Scp(script, last.server.name, self), Exec(script, last.server.name, last.threads, args)]
  }

  lemma AssignedThreadsCons(x: Assignment, a: seq<Assignment>)
    ensures AssignedThreads([x] + a) == x.threads + AssignedThreads(a)
    decreases |a|
  {
    if a != [] {
      assert ([x] + a)[..|a|] == [x] + a[..|a| - 1];
      AssignedThreadsCons(x, a[..|a| - 1]);
    }
  }

  /** Every assignment gives a server of the list its whole, non-zero capacity, in list
      order, and the threads still unassigned are the request minus the threads given. */
  lemma NetPlaceFacts(cs: seq<Server>, rem: int, cost: Cost, w: World)
    requires InWorld(cs, w)
    ensures var a := NetPlace(cs, rem, cost, w);
            && NetLeft(cs, rem, cost, w) == rem - AssignedThreads(a)
            && (forall k :: 0 <= k < |a| ==> a[k].server in cs && a[k].threads != 0
                                              && a[k].threads == Cap(a[k].server, cost, w))
  {
    NetLeftAssigned(cs, rem, cost, w);
    NetPlaceEntries(cs, rem, cost, w);
  }

  lemma {:induction false} NetLeftAssigned(cs: seq<Server>, rem: int, cost: Cost, w: World)
    requires InWorld(cs, w)
    ensures NetLeft(cs, rem, cost, w) == rem - AssignedThreads(NetPlace(cs, rem, cost, w))
  {
    if cs != [] && rem > 0 {
      var t := Cap(cs[0], cost, w);
      NetLeftAssigned(cs[1..], rem - t, cost, w);
      if t != 0 {
        AssignedThreadsCons(Assignment(cs[0], t), NetPlace(cs[1..], rem - t, cost, w));
      }
    }
  }

  /** Each assignment gives a server of `cs` its whole, non-zero capacity. */
  ghost predicate FullShares(a: seq<Assignment>, cs: seq<Server>, cost: Cost, w: World)
  {
    forall k :: 0 <= k < |a| ==> a[k].server in cs && a[k].server.name in w && a[k].threads != 0
                                 && a[k].threads == Cap(a[k].server, cost, w)
  }

  lemma {:induction false} NetPlaceEntries(cs: seq<Server>, rem: int, cost: Cost, w: World)
    requires InWorld(cs, w)
    ensures FullShares(NetPlace(cs, rem, cost, w), cs, cost, w)
  {
    if cs != [] && rem > 0 {
      var t := Cap(cs[0], cost, w);
      var tail := cs[1..];
      NetPlaceEntries(tail, rem - t, cost, w);
      var rest := NetPlace(tail, rem - t, cost, w);
      if t != 0 {
        var x := Assignment(cs[0], t);
        FullSharesCons(x, rest, cs[0], tail, cs, cost, w);
      } else {
        FullSharesCons(Assignment(cs[0], 1), rest, cs[0], tail, cs, cost, w);
      }
    }
  }

  lemma FullSharesCons(x: Assignment, rest: seq<Assignment>, c0: Server, tail: seq<Server>, cs: seq<Server>,
                       cost: Cost, w: World)
    requires cs == [c0] + tail && c0.name in w && FullShares(rest, tail, cost, w)
    ensures FullShares(rest, cs, cost, w)
    ensures x.server == c0 && x.threads != 0 && x.threads == Cap(c0, cost, w) ==> FullShares([x] + rest, cs, cost, w)
  {
    var a := [x] + rest;
    forall k | 0 <= k < |rest| ensures rest[k].server in cs {
      var m :| 0 <= m < |tail| && tail[m] == rest[k].server;
      assert cs[m + 1] == tail[m];
    }
    if x.server == c0 && x.threads != 0 && x.threads == Cap(c0, cost, w) {
      forall k | 0 < k < |a| ensures a[k] == rest[k - 1] {
      }
    }
  }

  /** With no server over-committed, `schedule` runs out of servers exactly when the
      capacities of the schedulable servers add up to less than the request. */
  lemma {:induction false} NetLeftIffCapacity(cs: seq<Server>, rem: int, cost: Cost, w: World)
    requires InWorld(cs, w)
    requires forall i :: 0 <= i < |cs| ==> w[cs[i].name].usedRam <= cs[i].totalRam
    ensures NetLeft(cs, rem, cost, w) > 0 <==> Sum(Caps(cs, cost, w)) < rem
  {
    if cs == [] {
    } else {
      var c := Caps(cs, cost, w);
      SumCons(c[0], c[1..]);
      assert c == [c[0]] + c[1..];
      NetLeftIffCapacity(cs[1..], rem - Cap(cs[0], cost, w), cost, w);
    }
  }

  /** The whole capacity of a server is handed out even when fewer threads remain, so a
      successful schedule assigns at least the request and overshoots it by less than
      the last server's share. */
  lemma {:induction false} NetPlaceOvershoot(cs: seq<Server>, rem: int, cost: Cost, w: World)
    requires InWorld(cs, w)
    requires forall i :: 0 <= i < |cs| ==> w[cs[i].name].usedRam <= cs[i].totalRam
    requires rem > 0 && NetLeft(cs, rem, cost, w) <= 0
    ensures var a := NetPlace(cs, rem, cost, w);
            a != [] && rem <= AssignedThreads(a) < rem + a[|a| - 1].threads
  {
    NetPlaceFacts(cs, rem, cost, w);
    var t := Cap(cs[0], cost, w);
    var rest := NetPlace(cs[1..], rem - t, cost, w);
    if t == 0 {
      NetPlaceOvershoot(cs[1..], rem, cost, w);
    } else if rem - t <= 0 {
      assert rest == [];
      assert NetPlace(cs, rem, cost, w) == [Assignment(cs[0], t)];
      assert AssignedThreads([Assignment(cs[0], t)]) == t;
    } else {
      NetPlaceOvershoot(cs[1..], rem - t, cost, w);
      NetPlaceFacts(cs[1..], rem - t, cost, w);
      var a := [Assignment(cs[0], t)] + rest;
      assert a[|a| - 1] == rest[|rest| - 1];
    }
  }

  /** A request of one thread on a single empty 8 GB server, for a 1 GB script: all
      eight threads are started. */
  lemma OneThreadTakesWholeServer(s: Server, w: World)
    requires s.name in w && s.totalRam == 8 && w[s.name].usedRam == 0
    ensures NetPlace([s], 1, 1, w) == [Assignment(s, 8)]
    ensures NetLeft([s], 1, 1, w) == -7
  {
    assert Cap(s, 1, w) == 8;
    assert [s][1..] == [];
  }

  /** `getMaxThreads`: the capacities of the schedulable servers as last refreshed. */
  function MaxThreadsOf(s: seq<Server>, cost: Cost): int
    reads s
  {
    if s == [] then 0 else MaxThreadsOf(s[..|s| - 1], cost) + s[|s| - 1].SchedulableThreads(cost)
  }

  lemma MaxThreadsSnoc(s: seq<Server>, x: Server, cost: Cost)
    ensures MaxThreadsOf(s + [x], cost) == MaxThreadsOf(s, cost) + x.SchedulableThreads(cost)
  {
    assert (s + [x])[..|s|] == s;
  }

  lemma {:induction false} MaxThreadsCons(x: Server, s: seq<Server>, cost: Cost)
    ensures MaxThreadsOf([x] + s, cost) == x.SchedulableThreads(cost) + MaxThreadsOf(s, cost)
    decreases |s|
  {
    if s != [] {
      assert ([x] + s)[..|s|] == [x] + s[..|s| - 1];
      MaxThreadsCons(x, s[..|s| - 1], cost);
    }
  }

  /** On servers that agree with the game, the thread count `getMaxThreads` reports is
      the capacity `schedule` will find. */
  lemma {:induction false} MaxThreadsIsCapacity(cs: seq<Server>, cost: Cost, w: World)
    requires InWorld(cs, w)
    requires forall i :: 0 <= i < |cs| ==> cs[i].Current(w)
    ensures MaxThreadsOf(cs, cost) == Sum(Caps(cs, cost, w))
  {
    if cs != [] {
      MaxThreadsCons(cs[0], cs[1..], cost);
      assert cs == [cs[0]] + cs[1..];
      var c := Caps(cs, cost, w);
      SumCons(c[0], c[1..]);
      assert c == [c[0]] + c[1..];
      MaxThreadsIsCapacity(cs[1..], cost, w);
    }
  }

  /** A request capped at `getMaxThreads` never makes `schedule` exit, as long as the
      game has not changed since the servers were last refreshed. */
  lemma LimitedRequestIsPlaced(cs: seq<Server>, requested: int, cost: Cost, w: World)
    requires InWorld(cs, w)
    requires forall i :: 0 <= i < |cs| ==> cs[i].Current(w) && w[cs[i].name].usedRam <= cs[i].totalRam
    ensures NetLeft(cs, Min(requested, MaxThreadsOf(cs, cost)), cost, w) <= 0
  {
    MaxThreadsIsCapacity(cs, cost, w);
    NetLeftIffCapacity(cs, Min(requested, MaxThreadsOf(cs, cost)), cost, w);
  }

  class Netplan {
    const host: Server
    var network: seq<Server>
    const rootingManager: RootingManager
    /** The game calls the rooting manager made, in order. */
    var rootCalls: seq<Call>

    ghost predicate Valid(w: World)
      reads this
    {
      Distinct(network) && InWorld(network, w)
    }

    /** The names in the network, in order, and the calls made so far. */
    ghost function State(): Probed
      reads this
    {
      Probed(NameList(network), rootCalls)
    }

    /** `new Netplan(ns, logger, hostname = "home")`: the starting host is recorded as
        not schedulable, and the whole network reachable from it is probed. */
    constructor (w: World, hostname: Option<string>, owned: set<Program>, hackingLevel: int)
      requires (if hostname.Some? then hostname.value else "home") in w && Closed(w)
      ensures Valid(w) && fresh(host) && fresh(rootingManager)
      ensures host.name == (if hostname.Some? then hostname.value else "home") && !host.schedule && host.Current(w)
      ensures rootingManager.crackers == CrackerList(owned)
      ensures State() == Walk(CrackerList(owned), w, hackingLevel, host.name, Probed([], []))
      ensures |network| >= 1 && network[0] == host
      ensures ScannedFrom(network, 1, w)
    {
      var hn := if hostname.Some? then hostname.value else "home";
      host := new Server(w, hn, Some(false));
      network := [];
      rootingManager := new RootingManager(owned);
      rootCalls := [];
      new;
      assert State() == Probed([], []);
      Probe(host, w, hackingLevel);
    }

    /** `probe`: a server whose name is already known changes nothing; otherwise the
        rooting manager tries it, it is appended, and every neighbour its scan lists is
        probed in turn (`Walk`). Names stay unique, and the servers added after it come
        from scans: default options, fields still holding what the game reported. */
    method Probe(server: Server, w: World, hackingLevel: int)
      requires Valid(w) && server.name in w && Closed(w) && server.Static(w) && server.Current(w)
      modifies this
      ensures Valid(w) && Extends(old(network), network)
      ensures State() == Walk(rootingManager.crackers, w, hackingLevel, server.name, old(State()))
      ensures server.name in ServerNames(old(network)) ==> network == old(network)
      ensures server.name !in ServerNames(old(network)) ==> |network| > |old(network)| && network[|old(network)|] == server
      ensures ScannedFrom(network, |old(network)| + 1, w)
      decreases |w.Keys - ServerNames(network)|, 2
    {
      NameListElems(network);
      if !IsKnown(network, server.name) {
        ghost var before := network;
        Add(server, w, hackingLevel);
        UnknownShrinks(w.Keys, ServerNames(before), ServerNames(network), server.name);
        var neighbours := server.Scan(w);
        assert NameList(neighbours) == w[server.name].neighbours;
        ProbeAll(server.name, neighbours, w, hackingLevel, |w.Keys - ServerNames(before)|);
        ExtendsTransitive(before, before + [server], network);
        assert network[|before|] == (before + [server])[|before|];
      }
    }

    /** The head of `probe` for a new server: the rooting manager tries it, then it is
        appended to the network. */
    method Add(server: Server, w: World, hackingLevel: int)
      requires Valid(w) && server.name in w && server.Static(w) && server.Current(w)
      requires server.name !in ServerNames(network)
      modifies this
      ensures Valid(w) && network == old(network) + [server]
      ensures ServerNames(network) == ServerNames(old(network)) + {server.name}
      ensures State() == Found(rootingManager.crackers, w, hackingLevel, server.name, old(State()))
    {
      var ok, calls := rootingManager.TryRoot(server, hackingLevel);
      rootCalls := rootCalls + calls;
      AppendServer(network, server, w);
      NameListSnoc(network, server);
      network := network + [server];
    }

    /** The loop of `probe` over the neighbours the scan of `host` returned, each
        probed in order; `bound` is the number of hosts unknown before the scanning
        server was added. */
    method ProbeAll(host: string, neighbours: seq<Server>, w: World, hackingLevel: int, ghost bound: nat)
      requires Valid(w) && Closed(w) && host in w
      requires NameList(neighbours) == w[host].neighbours && Scanned(neighbours, w)
      requires |w.Keys - ServerNames(network)| < bound
      modifies this
      ensures Valid(w) && Extends(old(network), network)
      ensures State() == WalkFrom(rootingManager.crackers, w, hackingLevel, host, 0, old(State()))
      ensures ScannedFrom(network, |old(network)|, w)
      decreases bound, 1
    {
      var k := 0;
      assert old(network)[..|old(network)|] == old(network);
      while k < |neighbours|
        invariant 0 <= k <= |neighbours|
        invariant Valid(w)
        invariant Extends(old(network), network)
        invariant ScannedFrom(network, |old(network)|, w)
        invariant WalkFrom(rootingManager.crackers, w, hackingLevel, host, k, State())
                  == WalkFrom(rootingManager.crackers, w, hackingLevel, host, 0, old(State()))
        invariant |w.Keys - ServerNames(network)| < bound
      {
        ghost var before := State();
        ProbeNext(neighbours[k], w, hackingLevel, old(network), bound);
        WalkStep(rootingManager.crackers, w, hackingLevel, host, k, before);
        k := k + 1;
      }
    }

    /** One pass of the loop of `probe`: the neighbour is probed, and the loop's
        invariant carries over. */
    method ProbeNext(server: Server, w: World, hackingLevel: int, ghost start: seq<Server>, ghost bound: nat)
      requires Valid(w) && Closed(w) && server.name in w && server.schedule && server.Static(w) && server.Current(w)
      requires Extends(start, network) && ScannedFrom(network, |start|, w)
      requires |w.Keys - ServerNames(network)| < bound
      modifies this
      ensures Valid(w) && Extends(start, network) && ScannedFrom(network, |start|, w)
      ensures State() == Walk(rootingManager.crackers, w, hackingLevel, server.name, old(State()))
      ensures |w.Keys - ServerNames(network)| < bound
      decreases bound, 0
    {
      ghost var mid := network;
      Probe(server, w, hackingLevel);
      ProbeLoopStep(start, mid, network, bound, w);
    }

    /** `getSchedulableServers`. */
    function GetSchedulableServers(): (r: seq<Server>)
      reads this, network
      ensures forall i :: 0 <= i < |r| ==> r[i] in network && r[i].schedule && r[i].isRooted
      ensures forall i :: 0 <= i < |network| && network[i].schedule && network[i].isRooted ==> network[i] in r
    {
      SchedulableOf(network)
    }

    /** `schedule`: a script that costs no RAM (it does not exist) makes the caller
        exit at once. Otherwise the schedulable servers are visited in order while
        threads remain: each is refreshed from the game, skipped when it takes no
        thread, and otherwise given its whole capacity. Threads left over make the
        caller exit; else the script is copied to and started on every server given
        threads. Only the servers visited change, and they then agree with the game. */
    method Schedule(script: string, threads: int, args: seq<Arg>, ramCost: nat, w: World, self: string)
      returns (outcome: Outcome)
      requires InWorld(network, w)
      modifies set s | s in network
      ensures ramCost == 0 ==> outcome == Exited && forall s :: s in network ==> unchanged(s)
      ensures ramCost > 0 ==>
                var cs := old(SchedulableOf(network));
                var a := NetPlace(cs, threads, ramCost, w);
                var r := NetReached(cs, threads, ramCost, w);
                && outcome == (if NetLeft(cs, threads, ramCost, w) > 0 then Exited
                               else Scheduled(a, Launch(a, script, args, self)))
                && r <= |cs|
                && (forall i :: 0 <= i < r ==> cs[i].Current(w))
                && (forall s :: s in network && s !in cs[..r] ==> unchanged(s))
    {
      if ramCost == 0 {
        return Exited;
      }
      var cs := SchedulableOf(network);
      assert cs == old(SchedulableOf(network));
      assert InWorld(cs, w) by {
        forall i | 0 <= i < |cs| ensures cs[i].name in w {
          assert cs[i] in network;
        }
      }
      var res, remaining, reached := Visit(cs, threads, ramCost, w);
      if remaining > 0 {
        return Exited;
      }
      var effects := Dispatch(res, script, args, self);
      return Scheduled(res, effects);
    }

    /** The loop of `schedule` over the schedulable servers `cs`. */
    static method Visit(cs: seq<Server>, threads: int, ramCost: Cost, w: World)
      returns (res: seq<Assignment>, remaining: int, reached: nat)
      requires InWorld(cs, w)
      modifies set s | s in cs
      ensures res == NetPlace(cs, threads, ramCost, w)
      ensures remaining == NetLeft(cs, threads, ramCost, w)
      ensures reached == NetReached(cs, threads, ramCost, w) <= |cs|
      ensures forall j :: 0 <= j < reached ==> cs[j].Current(w)
      ensures forall s :: s in cs && s !in cs[..reached] ==> unchanged(s)
    {
      remaining := threads;
      res := [];
      var i := 0;
      while i < |cs|
        invariant 0 <= i <= |cs|
        invariant InStep(cs, i, threads, remaining, res, ramCost, w)
        invariant forall j :: 0 <= j < i ==> cs[j].Current(w)
        invariant forall s :: s in cs && s !in cs[..i] ==> unchanged(s)
        decreases |cs| - i
      {
        if remaining <= 0 {
          break;
        }
        var t := Refresh(cs[i], ramCost, w);
        VisitStep(cs, i, threads, remaining, res, t, ramCost, w);
        assert cs[..i + 1] == cs[..i] + [cs[i]];
        if t != 0 {
          remaining := remaining - t;
          res := res + [Assignment(cs[i], t)];
        }
        i := i + 1;
      }
      assert i == |cs| ==> cs[i..] == [];
      reached := i;
    }

    /** One visit of the loop of `schedule`: `update` the server, then read how many
        threads it can take. */
    static method Refresh(s: Server, ramCost: Cost, w: World) returns (t: int)
      requires s.name in w
      modifies s
      ensures s.Current(w) && t == Cap(s, ramCost, w)
    {
      s.Update(w);
      t := s.SchedulableThreads(ramCost);
    }

    /** `res.forEach(...)`: the `scp` and `exec` calls for the assignments. */
    static method Dispatch(res: seq<Assignment>, script: string, args: seq<Arg>, self: string)
      returns (effects: seq<Effect>)
      ensures effects == Launch(res, script, args, self)
    {
      effects := [];
      var k := 0;
      while k < |res|
        invariant 0 <= k <= |res|
        invariant effects == Launch(res[..k], script, args, self)
      {
        assert res[..k + 1][..k] == res[..k];
        effects := effects + [Scp(script, res[k].server.name, self), Exec(script, res[k].server.name, res[k].threads, args)];
        k := k + 1;
      }
      assert res[..|res|] == res;
    }

    /** `getMaxThreads`: the sum, over the schedulable servers, of the threads each can
        take as last refreshed; nothing is refreshed. */
    method GetMaxThreads(ramCost: Cost) returns (maxThreads: int)
      ensures maxThreads == MaxThreadsOf(SchedulableOf(network), ramCost)
    {
      maxThreads := SumThreads(SchedulableOf(network), ramCost);
    }

    /** The accumulation loop of `getMaxThreads` over a list of servers. */
    static method SumThreads(cs: seq<Server>, ramCost: Cost) returns (total: int)
      ensures total == MaxThreadsOf(cs, ramCost)
    {
      total := 0;
      var i := 0;
      while i < |cs|
        invariant 0 <= i <= |cs|
        invariant total == MaxThreadsOf(cs[..i], ramCost)
      {
        assert cs[..i + 1] == cs[..i] + [cs[i]];
        MaxThreadsSnoc(cs[..i], cs[i], ramCost);
        total := total + cs[i].SchedulableThreads(ramCost);
        i := i + 1;
      }
      assert cs[..|cs|] == cs;
    }
  }
}
