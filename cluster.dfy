/** The cluster scheduler (src/lib/cluster/cluster.ts): candidate selection, greedy
    first-fit thread placement, all-or-nothing job scheduling under a lock, network
    discovery, metrics and dispatch. */
module Scheduler {
  import opened Common
  import opened Game
  import opened ClusterNode
  import opened ClusterJob

  /** `ns.getScriptRam(file, host)`: RAM one thread of the file needs on the host. */
  type ScriptRam = (string, string) -> Cost

  /** One entry of a script schedule (`Map<Node, number>`): threads placed on a node. */
  datatype Placement = Placement(node: NodeRecord, threads: int)

  /** One entry of a job schedule (`Map<Script, ScriptSchedule>`). */
  datatype ScriptEntry = ScriptEntry(script: Script, placements: seq<Placement>)

  datatype JobMetrics = JobMetrics(totalRAM: int, totalThreads: int)

  /** `node.getScriptThreads(script)`. */
  function ThreadsOn(s: Script, n: NodeRecord, ram: ScriptRam): int
  {
    Capacity(n.freeRAM, ram(s.file, n.name))
  }

  // ----- Candidate nodes: filter, then stable sort by priority -----

  /** The nodes with schedulable RAM above zero, in their original order. */
  function Schedulable(nodes: seq<NodeRecord>): seq<NodeRecord>
  {
    if nodes == [] then []
    else (if nodes[0].freeRAM > 0 then [nodes[0]] else []) + Schedulable(nodes[1..])
  }

  /** Insert before the first element whose priority is not smaller. */
  function Insert(x: NodeRecord, s: seq<NodeRecord>): seq<NodeRecord>
  {
    if s == [] || x.scheduleOrder <= s[0].scheduleOrder then [x] + s
    else [s[0]] + Insert(x, s[1..])
  }

  /** `sort((a, b) => a.scheduleOrder - b.scheduleOrder)`: a stable insertion sort. */
  function SortByOrder(s: seq<NodeRecord>): seq<NodeRecord>
  {
    if s == [] then [] else Insert(s[0], SortByOrder(s[1..]))
  }

  ghost predicate Ascending(s: seq<NodeRecord>)
  {
    forall i, j :: 0 <= i < j < |s| ==> s[i].scheduleOrder <= s[j].scheduleOrder
  }

  /** The elements of priority `k`, in order. */
  function WithOrder(s: seq<NodeRecord>, k: int): seq<NodeRecord>
  {
    if s == [] then [] else (if s[0].scheduleOrder == k then [s[0]] else []) + WithOrder(s[1..], k)
  }

  lemma {:induction false} WithOrderAppend(a: seq<NodeRecord>, b: seq<NodeRecord>, k: int)
    ensures WithOrder(a + b, k) == WithOrder(a, k) + WithOrder(b, k)
  {
    if a == [] {
      assert a + b == b;
    } else {
      var ab := a + b;
      var h := if a[0].scheduleOrder == k then [a[0]] else [];
      assert ab[0] == a[0] && ab[1..] == a[1..] + b;
      WithOrderAppend(a[1..], b, k);
      assert WithOrder(ab, k) == h + WithOrder(a[1..] + b, k);
      assert WithOrder(a, k) == h + WithOrder(a[1..], k);
    }
  }

  lemma {:induction false} SchedulableAppend(a: seq<NodeRecord>, b: seq<NodeRecord>)
    ensures Schedulable(a + b) == Schedulable(a) + Schedulable(b)
  {
    if a == [] {
      assert a + b == b;
    } else {
      var ab := a + b;
      var h := if a[0].freeRAM > 0 then [a[0]] else [];
      assert ab[0] == a[0] && ab[1..] == a[1..] + b;
      SchedulableAppend(a[1..], b);
      assert Schedulable(ab) == h + Schedulable(a[1..] + b);
      assert Schedulable(a) == h + Schedulable(a[1..]);
    }
  }

  lemma {:induction false} InsertMultiset(x: NodeRecord, s: seq<NodeRecord>)
    ensures multiset(Insert(x, s)) == multiset(s) + multiset{x}
  {
    if !(s == [] || x.scheduleOrder <= s[0].scheduleOrder) {
      InsertMultiset(x, s[1..]);
      assert s == [s[0]] + s[1..];
    }
  }

  lemma {:induction false} InsertWithOrder(x: NodeRecord, s: seq<NodeRecord>, k: int)
    ensures WithOrder(Insert(x, s), k) == (if x.scheduleOrder == k then [x] else []) + WithOrder(s, k)
  {
    if s == [] || x.scheduleOrder <= s[0].scheduleOrder {
      WithOrderAppend([x], s, k);
    } else {
      assert Insert(x, s) == [s[0]] + Insert(x, s[1..]);
      InsertWithOrder(x, s[1..], k);
      WithOrderAppend([s[0]], Insert(x, s[1..]), k);
      WithOrderAppend([s[0]], s[1..], k);
      assert s == [s[0]] + s[1..];
      // x comes after s[0], so at most one of the two has priority k.
      if x.scheduleOrder == k {
        assert WithOrder([s[0]], k) == [];
      } else {
        assert [] + WithOrder(s[1..], k) == WithOrder(s[1..], k);
      }
    }
  }

  lemma {:induction false} InsertAscending(x: NodeRecord, s: seq<NodeRecord>)
    requires Ascending(s)
    ensures Ascending(Insert(x, s))
  {
    if s == [] || x.scheduleOrder <= s[0].scheduleOrder {
      var r := [x] + s;
      forall i, j | 0 <= i < j < |r| ensures r[i].scheduleOrder <= r[j].scheduleOrder {
        assert r[j] == s[j - 1];
        if i > 0 {
          assert r[i] == s[i - 1];
        }
      }
    } else {
      var t := s[1..];
      assert Ascending(t) by {
        forall i, j | 0 <= i < j < |t| ensures t[i].scheduleOrder <= t[j].scheduleOrder {
          assert t[i] == s[i + 1] && t[j] == s[j + 1];
        }
      }
      InsertAscending(x, t);
      InsertMultiset(x, t);
      var it := Insert(x, t);
      var r := [s[0]] + it;
      forall i, j | 0 <= i < j < |r| ensures r[i].scheduleOrder <= r[j].scheduleOrder {
        assert r[j] == it[j - 1];
        if i > 0 {
          assert r[i] == it[i - 1];
        } else {
          var m := it[j - 1];
          assert m in multiset(it);
          if m != x {
            assert m in multiset(t);
            var q :| 0 <= q < |t| && t[q] == m;
            assert s[q + 1] == m;
          }
        }
      }
    }
  }

  /** The sort orders by ascending priority, keeps every element, and keeps the
      original order among elements of equal priority (it is stable). */
  lemma {:induction false} SortFacts(s: seq<NodeRecord>)
    ensures Ascending(SortByOrder(s))
    ensures multiset(SortByOrder(s)) == multiset(s)
    ensures forall k :: WithOrder(SortByOrder(s), k) == WithOrder(s, k)
  {
    if s != [] {
      SortFacts(s[1..]);
      InsertAscending(s[0], SortByOrder(s[1..]));
      InsertMultiset(s[0], SortByOrder(s[1..]));
      assert s == [s[0]] + s[1..];
      forall k ensures WithOrder(SortByOrder(s), k) == WithOrder(s, k) {
        InsertWithOrder(s[0], SortByOrder(s[1..]), k);
        WithOrderAppend([s[0]], s[1..], k);
      }
    }
  }

  /** Filtering by free RAM and selecting one priority commute. */
  lemma {:induction false} SchedulableWithOrder(nodes: seq<NodeRecord>, k: int)
    ensures WithOrder(Schedulable(nodes), k) == Schedulable(WithOrder(nodes, k))
  {
    if nodes != [] {
      SchedulableWithOrder(nodes[1..], k);
      var head := [nodes[0]];
      assert nodes == head + nodes[1..];
      SchedulableAppend(head, nodes[1..]);
      WithOrderAppend(head, nodes[1..], k);
      WithOrderAppend(Schedulable(head), Schedulable(nodes[1..]), k);
      SchedulableAppend(WithOrder(head, k), WithOrder(nodes[1..], k));
    }
  }

  lemma {:induction false} SchedulableMembers(nodes: seq<NodeRecord>)
    ensures forall n :: n in Schedulable(nodes) <==> n in nodes && n.freeRAM > 0
  {
    if nodes != [] {
      SchedulableMembers(nodes[1..]);
      assert nodes == [nodes[0]] + nodes[1..];
    }
  }

  /** `getFilteredNodesForScheduling` keeps exactly the nodes with schedulable RAM
      above zero, each as often as it occurs, and orders them by ascending priority;
      the nodes of one priority keep their original order. */
  lemma FilteredNodesFacts(nodes: seq<NodeRecord>)
    ensures var r := SortByOrder(Schedulable(nodes));
            && (forall n :: n in r <==> n in nodes && n.freeRAM > 0)
            && multiset(r) == multiset(Schedulable(nodes))
            && Ascending(r)
            && (forall k :: WithOrder(r, k) == Schedulable(WithOrder(nodes, k)))
  {
    SchedulableMembers(nodes);
    SortFacts(Schedulable(nodes));
    var r := SortByOrder(Schedulable(nodes));
    forall n ensures n in r <==> n in Schedulable(nodes) {
      assert n in r <==> n in multiset(r);
      assert n in Schedulable(nodes) <==> n in multiset(Schedulable(nodes));
    }
    forall k ensures WithOrder(r, k) == Schedulable(WithOrder(nodes, k)) {
      SchedulableWithOrder(nodes, k);
    }
  }

  // ----- Greedy placement of one script -----

  /** The capacity of each node for the script. */
  function Caps(s: Script, nodes: seq<NodeRecord>, ram: ScriptRam): (c: seq<int>)
    ensures |c| == |nodes|
  {
    seq(|nodes|, i requires 0 <= i < |nodes| => ThreadsOn(s, nodes[i], ram))
  }

  /** The entries `scheduleScript` records while `remaining` threads are still unplaced. */
  function Place(s: Script, nodes: seq<NodeRecord>, remaining: int, ram: ScriptRam): seq<Placement>
  {
    if nodes == [] || remaining <= 0 then []
    else
      var t := ThreadsOn(s, nodes[0], ram);
      [Placement(nodes[0], Min(t, remaining))] + Place(s, nodes[1..], remaining - t, ram)
  }

  /** The value of `remainingThreads` when the loop of `scheduleScript` ends. */
  function Shortfall(s: Script, nodes: seq<NodeRecord>, remaining: int, ram: ScriptRam): int
  {
    if nodes == [] || remaining <= 0 then remaining
    else Shortfall(s, nodes[1..], remaining - ThreadsOn(s, nodes[0], ram), ram)
  }

  /** The result of `scheduleScript`: undefined when threads remain unplaced. */
  function PlaceScript(s: Script, nodes: seq<NodeRecord>, ram: ScriptRam): Option<seq<Placement>>
  {
    if Shortfall(s, nodes, s.threads, ram) > 0 then None else Some(Place(s, nodes, s.threads, ram))
  }

  function ThreadCounts(p: seq<Placement>): (c: seq<int>)
    ensures |c| == |p|
  {
    seq(|p|, i requires 0 <= i < |p| => p[i].threads)
  }

  /** Total threads of a script schedule. */
  function Threads(p: seq<Placement>): int
  {
    Sum(ThreadCounts(p))
  }

  lemma ThreadsCons(x: Placement, p: seq<Placement>)
    ensures Threads([x] + p) == x.threads + Threads(p)
  {
    assert ThreadCounts([x] + p) == [x.threads] + ThreadCounts(p);
    SumCons(x.threads, ThreadCounts(p));
  }

  lemma CapsCons(s: Script, nodes: seq<NodeRecord>, ram: ScriptRam)
    requires nodes != []
    ensures Caps(s, nodes, ram) == [ThreadsOn(s, nodes[0], ram)] + Caps(s, nodes[1..], ram)
  {
  }

  lemma PrefixSumCons(c0: int, c: seq<int>, k: nat)
    requires k <= |c|
    ensures Sum(([c0] + c)[..k + 1]) == c0 + Sum(c[..k])
  {
    assert ([c0] + c)[..k + 1] == [c0] + c[..k];
    SumCons(c0, c[..k]);
  }

  /** The recorded entries cover a prefix of the node list, in list order. */
  lemma {:induction false} PlacePrefix(s: Script, nodes: seq<NodeRecord>, rem: int, ram: ScriptRam)
    ensures var p := Place(s, nodes, rem, ram);
            |p| <= |nodes| && forall i :: 0 <= i < |p| ==> p[i].node == nodes[i]
  {
    if nodes != [] && rem > 0 {
      var p := Place(s, nodes, rem, ram);
      var c0 := ThreadsOn(s, nodes[0], ram);
      var p' := Place(s, nodes[1..], rem - c0, ram);
      PlacePrefix(s, nodes[1..], rem - c0, ram);
      assert p == [Placement(nodes[0], Min(c0, rem))] + p';
      forall i | 0 < i < |p| ensures p[i].node == nodes[i] {
        assert p[i] == p'[i - 1];
      }
    }
  }

  /** Every entry of `p` is reached with threads remaining, and is min(capacity,
      threads still remaining when it is reached). */
  ghost predicate ReachedWith(p: seq<Placement>, c: seq<int>, rem: int)
  {
    |p| <= |c| &&
    forall i :: 0 <= i < |p| ==> Sum(c[..i]) < rem && p[i].threads == Min(c[i], rem - Sum(c[..i]))
  }

  /** Every node of the prefix is reached with threads remaining, and its entry is
      min(capacity, threads still remaining when it is reached). */
  lemma {:induction false} PlaceReached(s: Script, nodes: seq<NodeRecord>, rem: int, ram: ScriptRam)
    ensures ReachedWith(Place(s, nodes, rem, ram), Caps(s, nodes, ram), rem)
  {
    if nodes != [] && rem > 0 {
      var c0 := ThreadsOn(s, nodes[0], ram);
      var p' := Place(s, nodes[1..], rem - c0, ram);
      var c' := Caps(s, nodes[1..], ram);
      PlaceReached(s, nodes[1..], rem - c0, ram);
      CapsCons(s, nodes, ram);
      ReachedCons(Placement(nodes[0], Min(c0, rem)), p', c0, c', rem,
                  Place(s, nodes, rem, ram), Caps(s, nodes, ram));
    }
  }

  /** The step of `PlaceReached`: prepending the first node's entry and capacity. */
  lemma ReachedCons(x: Placement, p: seq<Placement>, c0: int, c: seq<int>, rem: int,
                     p1: seq<Placement>, c1: seq<int>)
    requires p1 == [x] + p && c1 == [c0] + c
    requires rem > 0 && x.threads == Min(c0, rem) && ReachedWith(p, c, rem - c0)
    ensures ReachedWith(p1, c1, rem)
  {
    assert c1[..0] == [];
    forall i | 0 < i < |p1|
      ensures Sum(c1[..i]) < rem && p1[i].threads == Min(c1[i], rem - Sum(c1[..i]))
    {
      var j := i - 1;
      assert Sum(c[..j]) < rem - c0 && p[j].threads == Min(c[j], rem - c0 - Sum(c[..j]));
      PrefixSumCons(c0, c, j);
      assert p1[i] == p[j] && c1[i] == c[j];
    }
  }

  /** The pass stops at the first node after which no thread remains, and the
      shortfall is what the capacities of the reached nodes leave uncovered. */
  lemma {:induction false} PlaceStops(s: Script, nodes: seq<NodeRecord>, rem: int, ram: ScriptRam)
    ensures var p := Place(s, nodes, rem, ram);
            var c := Caps(s, nodes, ram);
            && |p| <= |nodes|
            && (|p| < |nodes| ==> rem <= Sum(c[..|p|]))
            && Shortfall(s, nodes, rem, ram) == rem - Sum(c[..|p|])
  {
    PlacePrefix(s, nodes, rem, ram);
    var c := Caps(s, nodes, ram);
    if nodes == [] || rem <= 0 {
      assert c[..0] == [];
    } else {
      var p := Place(s, nodes, rem, ram);
      var c0 := ThreadsOn(s, nodes[0], ram);
      var p' := Place(s, nodes[1..], rem - c0, ram);
      var c' := Caps(s, nodes[1..], ram);
      PlaceStops(s, nodes[1..], rem - c0, ram);
      CapsCons(s, nodes, ram);
      assert |p| == 1 + |p'|;
      PrefixSumCons(c0, c', |p'|);
    }
  }

  /** Shape of the recorded entries: they cover a prefix of the node list in list
      order; the entry for the i-th node is min(capacity, threads still remaining
      when the node is reached); every node of the prefix was reached with threads
      remaining, and the pass stops at the first node after which none remain. */
  lemma PlaceShape(s: Script, nodes: seq<NodeRecord>, rem: int, ram: ScriptRam)
    ensures var p := Place(s, nodes, rem, ram);
            var c := Caps(s, nodes, ram);
            && |p| <= |nodes|
            && (forall i :: 0 <= i < |p| ==> p[i].node == nodes[i])
            && ReachedWith(p, c, rem)
            && (|p| < |nodes| ==> rem <= Sum(c[..|p|]))
            && Shortfall(s, nodes, rem, ram) == rem - Sum(c[..|p|])
  {
    PlacePrefix(s, nodes, rem, ram);
    PlaceReached(s, nodes, rem, ram);
    PlaceStops(s, nodes, rem, ram);
  }

  /** A successful placement records exactly the requested thread count (none for a
      script that requests none or fewer). */
  lemma {:induction false} PlaceSum(s: Script, nodes: seq<NodeRecord>, rem: int, ram: ScriptRam)
    requires Shortfall(s, nodes, rem, ram) <= 0
    ensures Threads(Place(s, nodes, rem, ram)) == Max(rem, 0)
  {
    if nodes != [] && rem > 0 {
      var t := ThreadsOn(s, nodes[0], ram);
      var rest := Place(s, nodes[1..], rem - t, ram);
      ThreadsCons(Placement(nodes[0], Min(t, rem)), rest);
      if rem - t > 0 {
        PlaceSum(s, nodes[1..], rem - t, ram);
      }
    }
  }

  /** Every recorded count is at most the node's capacity for the script. */
  lemma PlaceWithinCapacity(s: Script, nodes: seq<NodeRecord>, ram: ScriptRam)
    ensures var p := Place(s, nodes, s.threads, ram);
            forall i :: 0 <= i < |p| ==> p[i].threads <= ThreadsOn(s, p[i].node, ram)
  {
    PlaceShape(s, nodes, s.threads, ram);
  }

  /** The sum of the nodes' capacities. */
  function TotalCapacity(s: Script, nodes: seq<NodeRecord>, ram: ScriptRam): int
  {
    Sum(Caps(s, nodes, ram))
  }

  lemma {:induction false} ShortfallIffCapacity(s: Script, nodes: seq<NodeRecord>, rem: int, ram: ScriptRam)
    requires forall i :: 0 <= i < |nodes| ==> nodes[i].freeRAM >= 0
    ensures Shortfall(s, nodes, rem, ram) > 0 <==> TotalCapacity(s, nodes, ram) < rem
    ensures TotalCapacity(s, nodes, ram) >= 0
  {
    if nodes != [] {
      CapsCons(s, nodes, ram);
      SumCons(ThreadsOn(s, nodes[0], ram), Caps(s, nodes[1..], ram));
      ShortfallIffCapacity(s, nodes[1..], rem - ThreadsOn(s, nodes[0], ram), ram);
    }
  }

  /** `scheduleScript` fails exactly when the nodes together cannot hold the
      requested threads, given that no node reports more RAM used than installed. */
  lemma PlaceScriptFailsIffShortOfCapacity(s: Script, nodes: seq<NodeRecord>, ram: ScriptRam)
    requires forall i :: 0 <= i < |nodes| ==> nodes[i].freeRAM >= 0
    ensures PlaceScript(s, nodes, ram) == None <==> TotalCapacity(s, nodes, ram) < s.threads
  {
    ShortfallIffCapacity(s, nodes, s.threads, ram);
  }

  /** On success the recorded counts sum to the script's thread count. */
  lemma PlaceScriptSum(s: Script, nodes: seq<NodeRecord>, ram: ScriptRam)
    requires PlaceScript(s, nodes, ram).Some?
    ensures Threads(PlaceScript(s, nodes, ram).value) == Max(s.threads, 0)
  {
    PlaceSum(s, nodes, s.threads, ram);
  }

  // ----- Whole jobs -----

  /** All scripts of a job placed in job order, or none at all. */
  function ScheduleAll(scripts: seq<Script>, nodes: seq<NodeRecord>, ram: ScriptRam): Option<seq<ScriptEntry>>
  {
    if scripts == [] then Some([])
    else match PlaceScript(scripts[0], nodes, ram)
      case None => None
      case Some(p) =>
        match ScheduleAll(scripts[1..], nodes, ram)
        case None => None
        case Some(rest) => Some([ScriptEntry(scripts[0], p)] + rest)
  }

  /** Scheduling a job is all-or-nothing: it succeeds exactly when every script can
      be placed, and then holds one entry per script, in job order, each the
      script's own placement. */
  lemma {:induction false} ScheduleAllAtomic(scripts: seq<Script>, nodes: seq<NodeRecord>, ram: ScriptRam)
    ensures ScheduleAll(scripts, nodes, ram).Some?
            <==> forall i :: 0 <= i < |scripts| ==> PlaceScript(scripts[i], nodes, ram).Some?
    ensures ScheduleAll(scripts, nodes, ram).Some? ==>
              var js := ScheduleAll(scripts, nodes, ram).value;
              |js| == |scripts| &&
              forall i :: 0 <= i < |js| ==> js[i] == ScriptEntry(scripts[i], PlaceScript(scripts[i], nodes, ram).value)
  {
    if scripts != [] {
      ScheduleAllAtomic(scripts[1..], nodes, ram);
      if PlaceScript(scripts[0], nodes, ram).Some? && ScheduleAll(scripts[1..], nodes, ram).Some? {
        var js := ScheduleAll(scripts, nodes, ram).value;
        var rest := ScheduleAll(scripts[1..], nodes, ram).value;
        forall i | 0 <= i < |js| ensures js[i] == ScriptEntry(scripts[i], PlaceScript(scripts[i], nodes, ram).value) {
          if i > 0 {
            assert js[i] == rest[i - 1];
          }
        }
      } else if PlaceScript(scripts[0], nodes, ram).Some? {
        var i :| 0 <= i < |scripts[1..]| && PlaceScript(scripts[1..][i], nodes, ram).None?;
        assert scripts[i + 1] == scripts[1..][i];
      }
    }
  }

  /** `entries` are the placements of the first scripts of the job, in job order. */
  ghost predicate PlacedInOrder(scripts: seq<Script>, entries: seq<ScriptEntry>, nodes: seq<NodeRecord>, ram: ScriptRam)
  {
    && |entries| <= |scripts|
    && forall j :: 0 <= j < |entries| ==>
         PlaceScript(scripts[j], nodes, ram).Some? && entries[j] == ScriptEntry(scripts[j], PlaceScript(scripts[j], nodes, ram).value)
  }

  ghost predicate SomeUnplaceable(scripts: seq<Script>, nodes: seq<NodeRecord>, ram: ScriptRam)
  {
    exists j :: 0 <= j < |scripts| && PlaceScript(scripts[j], nodes, ram).None?
  }

  /** Total threads over a job schedule. */
  function TotalThreads(js: seq<ScriptEntry>): int
  {
    Sum(seq(|js|, i requires 0 <= i < |js| => Threads(js[i].placements)))
  }

  /** RAM of one script schedule as `getJobMetrics` counts it: the script's RAM on
      each node once per entry, whatever the entry's thread count. */
  function PlacementRAM(s: Script, p: seq<Placement>, ram: ScriptRam): int
  {
    Sum(seq(|p|, i requires 0 <= i < |p| => ram(s.file, p[i].node.name) as int))
  }

  function TotalRAM(js: seq<ScriptEntry>, ram: ScriptRam): int
  {
    Sum(seq(|js|, i requires 0 <= i < |js| => PlacementRAM(js[i].script, js[i].placements, ram)))
  }

  /** Threads asked for by the scripts (a script asking for fewer than none asks for none). */
  function Requested(scripts: seq<Script>): int
  {
    Sum(seq(|scripts|, i requires 0 <= i < |scripts| => Max(scripts[i].threads, 0)))
  }

  /** A successful job schedule places exactly the threads its scripts ask for. */
  lemma {:induction false} ScheduledJobThreads(scripts: seq<Script>, nodes: seq<NodeRecord>, ram: ScriptRam)
    requires ScheduleAll(scripts, nodes, ram).Some?
    ensures TotalThreads(ScheduleAll(scripts, nodes, ram).value) == Requested(scripts)
  {
    ScheduleAllAtomic(scripts, nodes, ram);
    var js := ScheduleAll(scripts, nodes, ram).value;
    var a := seq(|js|, i requires 0 <= i < |js| => Threads(js[i].placements));
    var b := seq(|scripts|, i requires 0 <= i < |scripts| => Max(scripts[i].threads, 0));
    forall i | 0 <= i < |js| ensures a[i] == b[i] {
      PlaceScriptSum(scripts[i], nodes, ram);
    }
    assert a == b;
  }

  // ----- Dispatch -----

  /** The `exec` calls for one script schedule, threading the set of files present. */
  function DispatchScript(s: Script, p: seq<Placement>, present: Files): (seq<Effect>, Files)
  {
    if p == [] then ([], present)
    else
      var (e1, p1) := s.ExecScheduled(p[0].node.name, p[0].threads, present);
      var (e2, p2) := DispatchScript(s, p[1..], p1);
      (e1 + e2, p2)
  }

  /** The nested `forEach` of `execute`, in schedule order. */
  function Dispatch(js: seq<ScriptEntry>, present: Files): (seq<Effect>, Files)
  {
    if js == [] then ([], present)
    else
      var (e1, p1) := DispatchScript(js[0].script, js[0].placements, present);
      var (e2, p2) := Dispatch(js[1..], p1);
      (e1 + e2, p2)
  }

  /** Threads of all `exec` calls among the effects. */
  function Launched(es: seq<Effect>): int
  {
    if es == [] then 0 else (if es[0].Exec? then es[0].threads else 0) + Launched(es[1..])
  }

  lemma {:induction false} LaunchedAppend(a: seq<Effect>, b: seq<Effect>)
    ensures Launched(a + b) == Launched(a) + Launched(b)
  {
    if a == [] {
      assert a + b == b;
    } else {
      assert (a + b)[1..] == a[1..] + b;
      LaunchedAppend(a[1..], b);
    }
  }

  /** One `exec` launches exactly the threads it is given. */
  lemma ExecLaunches(s: Script, target: string, threads: int, present: Files)
    ensures Launched(s.ExecScheduled(target, threads, present).0) == threads
  {
    var e := s.ExecScheduled(target, threads, present).0;
    if (s.file, target) in present {
      assert e == [Exec(s.file, target, threads, s.args)];
      assert e[1..] == [];
    } else {
      assert e == [Scp(s.file, target, s.source), Exec(s.file, target, threads, s.args)];
      assert e[1..] == [Exec(s.file, target, threads, s.args)];
      assert e[1..][1..] == [];
      assert Launched(e[1..]) == threads;
    }
  }

  lemma {:induction false} DispatchScriptLaunches(s: Script, p: seq<Placement>, present: Files)
    ensures Launched(DispatchScript(s, p, present).0) == Threads(p)
  {
    if p == [] {
      assert ThreadCounts(p) == [];
    } else {
      var (e1, p1) := s.ExecScheduled(p[0].node.name, p[0].threads, present);
      DispatchScriptLaunches(s, p[1..], p1);
      LaunchedAppend(e1, DispatchScript(s, p[1..], p1).0);
      ExecLaunches(s, p[0].node.name, p[0].threads, present);
      ThreadsCons(p[0], p[1..]);
      assert p == [p[0]] + p[1..];
    }
  }

  lemma TotalThreadsCons(js: seq<ScriptEntry>)
    requires js != []
    ensures TotalThreads(js) == Threads(js[0].placements) + TotalThreads(js[1..])
  {
    var a := seq(|js|, i requires 0 <= i < |js| => Threads(js[i].placements));
    var b := seq(|js| - 1, i requires 0 <= i < |js| - 1 => Threads(js[1..][i].placements));
    assert a == [Threads(js[0].placements)] + b;
    SumCons(Threads(js[0].placements), b);
  }

  /** Dispatching a job schedule launches exactly the threads it records. */
  lemma {:induction false} DispatchLaunches(js: seq<ScriptEntry>, present: Files)
    ensures Launched(Dispatch(js, present).0) == TotalThreads(js)
  {
    if js != [] {
      var (e1, p1) := DispatchScript(js[0].script, js[0].placements, present);
      DispatchScriptLaunches(js[0].script, js[0].placements, present);
      DispatchLaunches(js[1..], p1);
      LaunchedAppend(e1, Dispatch(js[1..], p1).0);
      TotalThreadsCons(js);
    }
  }

  /** `execute` end to end: a job that can be scheduled launches exactly the threads
      its scripts ask for. */
  lemma ExecuteLaunchesRequested(scripts: seq<Script>, nodes: seq<NodeRecord>, ram: ScriptRam, present: Files)
    requires ScheduleAll(scripts, nodes, ram).Some?
    ensures Launched(Dispatch(ScheduleAll(scripts, nodes, ram).value, present).0) == Requested(scripts)
  {
    ScheduledJobThreads(scripts, nodes, ram);
    DispatchLaunches(ScheduleAll(scripts, nodes, ram).value, present);
  }

  /** The `exec` calls for one script schedule as `execute` issues them: every
      (node, threads) entry launches the script's own thread count. */
  function DispatchScriptAsWritten(s: Script, p: seq<Placement>, present: Files): (seq<Effect>, Files)
  {
    if p == [] then ([], present)
    else
      var (e1, p1) := s.ExecAsWritten(p[0].node.name, p[0].threads, present);
      var (e2, p2) := DispatchScriptAsWritten(s, p[1..], p1);
      (e1 + e2, p2)
  }

  /** The nested `forEach` of `execute` as written, in schedule order. */
  function DispatchAsWritten(js: seq<ScriptEntry>, present: Files): (seq<Effect>, Files)
  {
    if js == [] then ([], present)
    else
      var (e1, p1) := DispatchScriptAsWritten(js[0].script, js[0].placements, present);
      var (e2, p2) := DispatchAsWritten(js[1..], p1);
      (e1 + e2, p2)
  }

  /** Threads the written dispatch launches: each script's own count once per entry. */
  function AsWrittenThreads(js: seq<ScriptEntry>): int
  {
    Sum(seq(|js|, i requires 0 <= i < |js| => |js[i].placements| * js[i].script.threads))
  }

  /** One written `exec` launches the script's own thread count. */
  lemma ExecAsWrittenLaunches(s: Script, target: string, threads: int, present: Files)
    ensures Launched(s.ExecAsWritten(target, threads, present).0) == s.threads
  {
    var e := s.ExecAsWritten(target, threads, present).0;
    var x := Exec(s.file, target, s.threads, s.args);
    if (s.file, target) in present {
      assert e == [x];
      assert e[1..] == [];
    } else {
      assert e == [Scp(s.file, target, s.source), x];
      assert e[1..] == [x];
      assert e[1..][1..] == [];
      assert Launched(e[1..]) == s.threads;
    }
  }

  lemma {:induction false} DispatchScriptAsWrittenLaunches(s: Script, p: seq<Placement>, present: Files)
    ensures Launched(DispatchScriptAsWritten(s, p, present).0) == |p| * s.threads
  {
    if p != [] {
      var (e1, p1) := s.ExecAsWritten(p[0].node.name, p[0].threads, present);
      DispatchScriptAsWrittenLaunches(s, p[1..], p1);
      LaunchedAppend(e1, DispatchScriptAsWritten(s, p[1..], p1).0);
      ExecAsWrittenLaunches(s, p[0].node.name, p[0].threads, present);
      assert |p| * s.threads == s.threads + |p[1..]| * s.threads;
    }
  }

  lemma AsWrittenThreadsCons(js: seq<ScriptEntry>)
    requires js != []
    ensures AsWrittenThreads(js) == |js[0].placements| * js[0].script.threads + AsWrittenThreads(js[1..])
  {
    var a := seq(|js|, i requires 0 <= i < |js| => |js[i].placements| * js[i].script.threads);
    var b := seq(|js| - 1, i requires 0 <= i < |js| - 1 => |js[1..][i].placements| * js[1..][i].script.threads);
    assert a == [|js[0].placements| * js[0].script.threads] + b;
    SumCons(|js[0].placements| * js[0].script.threads, b);
  }

  /** Dispatching a job schedule as written launches, for every script, its own
      thread count once per node it was placed on. */
  lemma {:induction false} DispatchAsWrittenLaunches(js: seq<ScriptEntry>, present: Files)
    ensures Launched(DispatchAsWritten(js, present).0) == AsWrittenThreads(js)
  {
    if js != [] {
      var (e1, p1) := DispatchScriptAsWritten(js[0].script, js[0].placements, present);
      DispatchScriptAsWrittenLaunches(js[0].script, js[0].placements, present);
      DispatchAsWrittenLaunches(js[1..], p1);
      LaunchedAppend(e1, DispatchAsWritten(js[1..], p1).0);
      AsWrittenThreadsCons(js);
    }
  }

  /** The 12-thread script placed as 10 threads on A and 2 on B: the written
      dispatch launches 24 threads, the corrected one the 12 it asked for. */
  lemma SplitScriptLaunchedTwice()
    ensures var s := Script("home", "w.js", 12, []);
            var js := [ScriptEntry(s, [Placement(NodeRecord("A", 10, 0), 10), Placement(NodeRecord("B", 5, 1), 2)])];
            && Launched(DispatchAsWritten(js, {}).0) == 24
            && Launched(Dispatch(js, {}).0) == 12
  {
    var s := Script("home", "w.js", 12, []);
    var js := [ScriptEntry(s, [Placement(NodeRecord("A", 10, 0), 10), Placement(NodeRecord("B", 5, 1), 2)])];
    DispatchAsWrittenLaunches(js, {});
    AsWrittenThreadsCons(js);
    assert js[1..] == [];
    DispatchLaunches(js, {});
    TotalThreadsCons(js);
    var p := js[0].placements;
    ThreadsCons(p[0], p[1..]);
    ThreadsCons(p[1], p[2..]);
    assert p == [p[0]] + p[1..] && p[1..] == [p[1]] + p[2..] && p[2..] == [];
    assert ThreadCounts([]) == [];
  }

  // ----- Discovery -----

  ghost function NodeNames(s: seq<NodeRecord>): set<string>
  {
    set i | 0 <= i < |s| :: s[i].name
  }

  ghost predicate Distinct(s: seq<NodeRecord>)
  {
    forall i, j :: 0 <= i < j < |s| ==> s[i].name != s[j].name
  }

  /** Every node from position `from` on was created by a scan of a host of the world. */
  ghost predicate ScannedFrom(s: seq<NodeRecord>, from: nat, w: World)
  {
    forall i :: from <= i < |s| ==> s[i].name in w && s[i] == ScannedRecord(w, s[i].name)
  }

  lemma ExtendsNames(a: seq<NodeRecord>, b: seq<NodeRecord>)
    requires Extends(a, b)
    ensures NodeNames(a) <= NodeNames(b)
  {
    forall i | 0 <= i < |a| ensures a[i].name in NodeNames(b) {
      assert b[i] == a[i];
    }
  }

  lemma AppendNames(a: seq<NodeRecord>, x: NodeRecord)
    ensures Extends(a, a + [x])
    ensures NodeNames(a + [x]) == NodeNames(a) + {x.name}
  {
    var b := a + [x];
    assert b[..|a|] == a;
    forall n | n in NodeNames(b) ensures n in NodeNames(a) + {x.name} {
      var i :| 0 <= i < |b| && b[i].name == n;
      if i < |a| {
        assert b[i] == a[i];
      }
    }
    forall n | n in NodeNames(a) + {x.name} ensures n in NodeNames(b) {
      if n == x.name {
        assert b[|a|] == x;
      } else {
        var i :| 0 <= i < |a| && a[i].name == n;
        assert b[i] == a[i];
      }
    }
  }

  lemma AppendNode(a: seq<NodeRecord>, x: NodeRecord)
    requires Distinct(a) && x.name !in NodeNames(a)
    ensures Distinct(a + [x]) && Extends(a, a + [x])
    ensures NodeNames(a + [x]) == NodeNames(a) + {x.name}
  {
    AppendNames(a, x);
    var b := a + [x];
    forall i, j | 0 <= i < j < |b| ensures b[i].name != b[j].name {
      assert b[i] == a[i];
      if j < |a| {
        assert b[j] == a[j];
      }
    }
  }

  /** `nodes.some(e => e.getHostname() == name)`. */
  function IsKnown(s: seq<NodeRecord>, name: string): (b: bool)
    ensures b <==> name in NodeNames(s)
  {
    if s == [] then false
    else
      assert NodeNames(s) == {s[0].name} + NodeNames(s[1..]) by {
        assert forall i :: 0 < i < |s| ==> s[i] == s[1..][i - 1];
      }
      s[0].name == name || IsKnown(s[1..], name)
  }

  /** The record of `new Node(ns, log, host)` as created by `scan`: no options, so priority 0. */
  function ScannedRecord(w: World, host: string): (r: NodeRecord)
    requires host in w
    ensures r.name == host && r.scheduleOrder == 0
  {
    NodeRecord(host, w[host].maxRam - w[host].usedRam, 0)
  }

  // ----- The walk of `probe` -----

  /** `probe(node)` on the node list `s`: a node whose hostname is known changes
      nothing; a new one is appended and the hosts its scan lists are probed in
      order, each as a freshly scanned node. */
  ghost function Walk(w: World, node: NodeRecord, s: seq<NodeRecord>): (r: seq<NodeRecord>)
    requires Closed(w) && node.name in w
    ensures Extends(s, r) && NodeNames(s) <= NodeNames(r)
    decreases |w.Keys - NodeNames(s)|, 1
  {
    if node.name in NodeNames(s) then
      assert s[..|s|] == s;
      s
    else
      AppendNames(s, node);
      UnknownShrinks(w.Keys, NodeNames(s), NodeNames(s + [node]), node.name);
      var r := WalkFrom(w, node.name, 0, s + [node]);
      ExtendsTransitive(s, s + [node], r);
      r
  }

  /** The loop of `probe` over the hosts the scan of `host` lists, from the one at
      index `k`, on the node list `s`. */
  ghost function WalkFrom(w: World, host: string, k: nat, s: seq<NodeRecord>): (r: seq<NodeRecord>)
    requires Closed(w) && host in w && k <= |w[host].neighbours|
    ensures Extends(s, r) && NodeNames(s) <= NodeNames(r)
    decreases |w.Keys - NodeNames(s)|, 0, |w[host].neighbours| - k
  {
    var ns := w[host].neighbours;
    if k == |ns| then
      assert s[..|s|] == s;
      s
    else if ns[k] in NodeNames(s) then WalkFrom(w, host, k + 1, s)
    else
      var s1 := s + [ScannedRecord(w, ns[k])];
      AppendNames(s, ScannedRecord(w, ns[k]));
      UnknownShrinks(w.Keys, NodeNames(s), NodeNames(s1), ns[k]);
      var s2 := WalkFrom(w, ns[k], 0, s1);
      ExtendsTransitive(s, s1, s2);
      UnknownNoLarger(w.Keys, NodeNames(s), NodeNames(s2));
      var r := WalkFrom(w, host, k + 1, s2);
      ExtendsTransitive(s, s2, r);
      r
  }

  /** One pass of the loop of `probe`: probing the `k`-th listed host as a freshly
      scanned node, then going on from `k + 1`. */
  lemma WalkStep(w: World, host: string, k: nat, s: seq<NodeRecord>)
    requires Closed(w) && host in w && k < |w[host].neighbours|
    ensures WalkFrom(w, host, k, s) == WalkFrom(w, host, k + 1, Walk(w, ScannedRecord(w, w[host].neighbours[k]), s))
  {
  }

  /** A host the scan of `host` lists at index `k` that is not yet known is appended
      as a freshly scanned node and walked before the loop goes on. */
  lemma WalkFromNew(w: World, host: string, k: nat, s: seq<NodeRecord>)
    requires Closed(w) && host in w && k < |w[host].neighbours|
    requires w[host].neighbours[k] !in NodeNames(s)
    ensures var n := w[host].neighbours[k];
            WalkFrom(w, host, k, s) == WalkFrom(w, host, k + 1, WalkFrom(w, n, 0, s + [ScannedRecord(w, n)]))
  {
  }

  /** Every node from position `from` on has every host its scan lists among the
      hostnames of `s`. */
  ghost predicate NeighboursListed(w: World, s: seq<NodeRecord>, from: nat)
  {
    forall i, j :: from <= i < |s| && s[i].name in w && 0 <= j < |w[s[i].name].neighbours| ==>
      w[s[i].name].neighbours[j] in NodeNames(s)
  }

  /** Every host the scan of `host` lists from index `k` on is among the hostnames of `s`. */
  ghost predicate ScanListed(w: World, host: string, k: nat, s: seq<NodeRecord>)
    requires host in w
  {
    forall j :: k <= j < |w[host].neighbours| ==> w[host].neighbours[j] in NodeNames(s)
  }

  lemma ListedExtend(w: World, a: seq<NodeRecord>, b: seq<NodeRecord>, from: nat)
    requires from <= |a| && Extends(a, b)
    requires NeighboursListed(w, a, from) && NeighboursListed(w, b, |a|)
    ensures NeighboursListed(w, b, from)
  {
    ExtendsNames(a, b);
    forall i | from <= i < |a| ensures b[i] == a[i] {
      assert b[..|a|][i] == a[i];
    }
  }

  /** A node appended to `s` whose scan is listed in `b` joins the listed nodes of `b`. */
  lemma ListedHead(w: World, s: seq<NodeRecord>, x: NodeRecord, b: seq<NodeRecord>)
    requires x.name in w && Extends(s + [x], b)
    requires ScanListed(w, x.name, 0, b) && NeighboursListed(w, b, |s| + 1)
    ensures NeighboursListed(w, b, |s|)
  {
    assert b[|s|] == x by {
      assert b[..|s| + 1] == s + [x];
    }
  }

  lemma ScannedExtend(w: World, a: seq<NodeRecord>, b: seq<NodeRecord>, from: nat)
    requires from <= |a| && Extends(a, b)
    requires ScannedFrom(a, from, w) && ScannedFrom(b, |a|, w)
    ensures ScannedFrom(b, from, w)
  {
    forall i | from <= i < |a| ensures b[i] == a[i] {
      assert b[..|a|][i] == a[i];
    }
  }

  lemma ScannedHead(w: World, s: seq<NodeRecord>, x: NodeRecord, b: seq<NodeRecord>)
    requires Extends(s + [x], b) && ScannedFrom(b, |s| + 1, w)
    ensures |b| > |s| && b[|s|] == x
    ensures x.name in w && x == ScannedRecord(w, x.name) ==> ScannedFrom(b, |s|, w)
  {
    assert b[|s|] == x by {
      assert b[..|s| + 1] == s + [x];
    }
  }

  /** `probe` is a complete walk: the probed hostname ends up known, and every node
      it adds has every host its scan lists among the known nodes. */
  lemma {:induction false} WalkListed(w: World, node: NodeRecord, s: seq<NodeRecord>)
    requires Closed(w) && node.name in w
    ensures node.name in NodeNames(Walk(w, node, s))
    ensures NeighboursListed(w, Walk(w, node, s), |s|)
    decreases |w.Keys - NodeNames(s)|, 1
  {
    if node.name !in NodeNames(s) {
      var s1 := s + [node];
      AppendNames(s, node);
      UnknownShrinks(w.Keys, NodeNames(s), NodeNames(s1), node.name);
      WalkFromListed(w, node.name, 0, s1);
      ListedHead(w, s, node, WalkFrom(w, node.name, 0, s1));
    }
  }

  lemma {:induction false} WalkFromListed(w: World, host: string, k: nat, s: seq<NodeRecord>)
    requires Closed(w) && host in w && k <= |w[host].neighbours|
    ensures ScanListed(w, host, k, WalkFrom(w, host, k, s))
    ensures NeighboursListed(w, WalkFrom(w, host, k, s), |s|)
    decreases |w.Keys - NodeNames(s)|, 0, |w[host].neighbours| - k
  {
    var ns := w[host].neighbours;
    if k < |ns| {
      if ns[k] in NodeNames(s) {
        WalkFromListed(w, host, k + 1, s);
      } else {
        var rec := ScannedRecord(w, ns[k]);
        var s1 := s + [rec];
        AppendNames(s, rec);
        UnknownShrinks(w.Keys, NodeNames(s), NodeNames(s1), ns[k]);
        var s2 := WalkFrom(w, ns[k], 0, s1);
        WalkFromListed(w, ns[k], 0, s1);
        ListedHead(w, s, rec, s2);
        UnknownNoLarger(w.Keys, NodeNames(s), NodeNames(s2));
        WalkFromListed(w, host, k + 1, s2);
        var r := WalkFrom(w, host, k + 1, s2);
        ListedExtend(w, s2, r, |s|);
        WalkFromNew(w, host, k, s);
        assert ns[k] in NodeNames(r);
      }
    }
  }

  /** The nodes `probe` adds: the probed node first, then freshly scanned nodes. */
  lemma {:induction false} WalkScanned(w: World, node: NodeRecord, s: seq<NodeRecord>)
    requires Closed(w) && node.name in w
    ensures node.name in NodeNames(s) ==> Walk(w, node, s) == s
    ensures node.name !in NodeNames(s) ==> |Walk(w, node, s)| > |s| && Walk(w, node, s)[|s|] == node
    ensures ScannedFrom(Walk(w, node, s), |s| + 1, w)
    decreases |w.Keys - NodeNames(s)|, 1
  {
    if node.name !in NodeNames(s) {
      var s1 := s + [node];
      AppendNames(s, node);
      UnknownShrinks(w.Keys, NodeNames(s), NodeNames(s1), node.name);
      WalkFromScanned(w, node.name, 0, s1);
      ScannedHead(w, s, node, WalkFrom(w, node.name, 0, s1));
    }
  }

  lemma {:induction false} WalkFromScanned(w: World, host: string, k: nat, s: seq<NodeRecord>)
    requires Closed(w) && host in w && k <= |w[host].neighbours|
    ensures ScannedFrom(WalkFrom(w, host, k, s), |s|, w)
    decreases |w.Keys - NodeNames(s)|, 0, |w[host].neighbours| - k
  {
    var ns := w[host].neighbours;
    if k < |ns| {
      if ns[k] in NodeNames(s) {
        WalkFromScanned(w, host, k + 1, s);
      } else {
        var rec := ScannedRecord(w, ns[k]);
        var s1 := s + [rec];
        AppendNames(s, rec);
        UnknownShrinks(w.Keys, NodeNames(s), NodeNames(s1), ns[k]);
        var s2 := WalkFrom(w, ns[k], 0, s1);
        WalkFromScanned(w, ns[k], 0, s1);
        ScannedHead(w, s, rec, s2);
        UnknownNoLarger(w.Keys, NodeNames(s), NodeNames(s2));
        WalkFromScanned(w, host, k + 1, s2);
        ScannedExtend(w, s2, WalkFrom(w, host, k + 1, s2), |s|);
        WalkFromNew(w, host, k, s);
      }
    }
  }

  class Cluster {
    var nodes: seq<NodeRecord>
    var isLocked: bool

    /** Hostnames are unique among the known nodes. */
    ghost predicate Valid()
      reads this
    {
      Distinct(nodes)
    }

    /** A cluster that starts from a node list (the persisted configuration or
        nothing), unlocked. */
    constructor (initial: seq<NodeRecord>)
      ensures nodes == initial && !isLocked
    {
      nodes := initial;
      isLocked := false;
    }

    /** `getFilteredNodesForScheduling` (facts: FilteredNodesFacts). */
    function GetFilteredNodesForScheduling(): seq<NodeRecord>
      reads this
    {
      SortByOrder(Schedulable(nodes))
    }

    /** `getLock` once the lock is free: take it. The poll while it is held is not
        modelled, so the caller must find it free. */
    method GetLock()
      requires !isLocked
      modifies this
      ensures isLocked && nodes == old(nodes)
    {
      isLocked := true;
    }

    /** The callback `getLock` returns: clear the flag and nothing else. */
    method ReleaseLock()
      modifies this
      ensures !isLocked && nodes == old(nodes)
    {
      isLocked := false;
    }

    /** `scheduleScript`: greedy first-fit over the nodes in the given order. */
    method ScheduleScript(script: Script, candidates: seq<NodeRecord>, ram: ScriptRam)
      returns (r: Option<seq<Placement>>)
      ensures r == PlaceScript(script, candidates, ram)
    {
      var schedule: seq<Placement> := [];
      var remaining := script.threads;
      var i := 0;
      while i < |candidates|
        invariant 0 <= i <= |candidates|
        invariant schedule + Place(script, candidates[i..], remaining, ram) == Place(script, candidates, script.threads, ram)
        invariant Shortfall(script, candidates[i..], remaining, ram) == Shortfall(script, candidates, script.threads, ram)
      {
        if remaining > 0 {
          var threadsOnNode := Capacity(candidates[i].freeRAM, ram(script.file, candidates[i].name));
          assert candidates[i..][1..] == candidates[i + 1..];
          schedule := schedule + [Placement(candidates[i], if threadsOnNode > remaining then remaining else threadsOnNode)];
          remaining := remaining - threadsOnNode;
          i := i + 1;
          continue;
        }
        break;
      }
      if i == |candidates| {
        assert candidates[i..] == [];
      }
      assert Place(script, candidates[i..], remaining, ram) == [];
      assert schedule == Place(script, candidates, script.threads, ram);
      assert remaining == Shortfall(script, candidates, script.threads, ram);
      if remaining > 0 {
        return None;
      }
      return Some(schedule);
    }

    /** `scheduleJob`: take the lock, place every script of the job in job order,
        and either hand back the complete schedule with the lock still held or
        release the lock and return nothing. */
    method ScheduleJob(job: Job, candidates: seq<NodeRecord>, ram: ScriptRam)
      returns (r: Option<seq<ScriptEntry>>)
      requires !isLocked
      modifies this
      ensures r == ScheduleAll(job.scripts, candidates, ram)
      ensures isLocked <==> r.Some?
      ensures nodes == old(nodes)
    {
      GetLock();
      var jobSchedule: seq<ScriptEntry> := [];
      var isSchedulable := true;
      var scripts := job.GetScripts();
      var i := 0;
      while i < |scripts|
        invariant 0 <= i <= |scripts|
        invariant isLocked && nodes == old(nodes)
        invariant isSchedulable ==> |jobSchedule| == i && PlacedInOrder(scripts, jobSchedule, candidates, ram)
        invariant !isSchedulable ==> SomeUnplaceable(scripts, candidates, ram)
      {
        var scriptSchedule := ScheduleScript(scripts[i], candidates, ram);
        if scriptSchedule == None {
          isSchedulable := false;
          break;
        }
        jobSchedule := jobSchedule + [ScriptEntry(scripts[i], scriptSchedule.value)];
        i := i + 1;
      }
      ScheduleAllAtomic(scripts, candidates, ram);
      if !isSchedulable {
        ReleaseLock();
        return None;
      }
      assert jobSchedule == ScheduleAll(scripts, candidates, ram).value;
      return Some(jobSchedule);
    }

    /** `probe`: a node whose hostname is already known changes nothing; otherwise it
        is appended and every host its scan lists is probed in turn, as a fresh node
        with default options. Hostnames stay unique. */
    method Probe(node: NodeRecord, w: World)
      requires Valid() && node.name in w && Closed(w)
      modifies this
      ensures Valid() && isLocked == old(isLocked)
      ensures nodes == Walk(w, node, old(nodes))
      decreases |w.Keys - NodeNames(nodes)|, 1
    {
      if !IsKnown(nodes, node.name) {
        ghost var before := nodes;
        AppendNode(nodes, node);
        nodes := nodes + [node];
        UnknownShrinks(w.Keys, NodeNames(before), NodeNames(nodes), node.name);
        ProbeAll(node.name, w, |w.Keys - NodeNames(before)|);
      }
    }

    /** The loop of `probe` over the hosts the scan of `host` lists, each probed in
        order as a fresh node; `bound` is the number of hosts unknown before the
        scanning node was added. */
    method ProbeAll(host: string, w: World, ghost bound: nat)
      requires Valid() && Closed(w) && host in w
      requires |w.Keys - NodeNames(nodes)| < bound
      modifies this
      ensures Valid() && isLocked == old(isLocked)
      ensures nodes == WalkFrom(w, host, 0, old(nodes))
      decreases bound, 0
    {
      var neighbours := w[host].neighbours;
      var k := 0;
      while k < |neighbours|
        invariant 0 <= k <= |neighbours|
        invariant Valid() && isLocked == old(isLocked)
        invariant WalkFrom(w, host, k, nodes) == WalkFrom(w, host, 0, old(nodes))
        invariant |w.Keys - NodeNames(nodes)| < bound
      {
        ghost var mid := nodes;
        Probe(ScannedRecord(w, neighbours[k]), w);
        WalkStep(w, host, k, mid);
        UnknownNoLarger(w.Keys, NodeNames(mid), NodeNames(nodes));
        k := k + 1;
      }
    }

    /** `getJobMetrics`: total threads and total RAM over every (script, node) entry. */
    method GetJobMetrics(js: seq<ScriptEntry>, ram: ScriptRam) returns (m: JobMetrics)
      ensures m.totalThreads == TotalThreads(js)
      ensures m.totalRAM == TotalRAM(js, ram)
    {
      m := JobMetrics(0, 0);
      var i := 0;
      while i < |js|
        invariant 0 <= i <= |js|
        invariant m.totalThreads == TotalThreads(js[..i])
        invariant m.totalRAM == TotalRAM(js[..i], ram)
      {
        var threads, ramSum := EntryMetrics(js[i].script, js[i].placements, ram);
        ghost var ts := (q: seq<ScriptEntry>) => seq(|q|, k requires 0 <= k < |q| => Threads(q[k].placements));
        ghost var rs := (q: seq<ScriptEntry>) => seq(|q|, k requires 0 <= k < |q| => PlacementRAM(q[k].script, q[k].placements, ram));
        assert ts(js[..i + 1])[..i] == ts(js[..i]);
        assert rs(js[..i + 1])[..i] == rs(js[..i]);
        m := JobMetrics(m.totalRAM + ramSum, m.totalThreads + threads);
        i := i + 1;
      }
      assert js[..|js|] == js;
    }

    /** The inner loop of `getJobMetrics`: threads and RAM over the (node, threads)
        entries of one script. */
    static method EntryMetrics(script: Script, p: seq<Placement>, ram: ScriptRam) returns (threads: int, ramSum: int)
      ensures threads == Threads(p) && ramSum == PlacementRAM(script, p, ram)
    {
      threads, ramSum := 0, 0;
      var j := 0;
      while j < |p|
        invariant 0 <= j <= |p|
        invariant threads == Threads(p[..j])
        invariant ramSum == PlacementRAM(script, p[..j], ram)
      {
        assert ThreadCounts(p[..j + 1]) == ThreadCounts(p[..j]) + [p[j].threads];
        assert ThreadCounts(p[..j + 1])[..j] == ThreadCounts(p[..j]);
        ghost var rs := (q: seq<Placement>) => seq(|q|, k requires 0 <= k < |q| => ram(script.file, q[k].node.name) as int);
        assert rs(p[..j + 1])[..j] == rs(p[..j]);
        threads := threads + p[j].threads;
        ramSum := ramSum + ram(script.file, p[j].node.name);
        j := j + 1;
      }
      assert p[..|p|] == p;
    }

    /** `execute`: schedule the job over the filtered, sorted nodes; on success log
        the metrics, issue one `exec` per recorded (node, threads) entry in schedule
        order, copying the file first where it is missing, and release the lock.
        Each `exec` launches the script's own thread count rather than the entry's
        (`DispatchAsWritten`). */
    method Execute(job: Job, ram: ScriptRam, present: Files) returns (effects: seq<Effect>, present': Files)
      requires !isLocked
      modifies this
      ensures !isLocked && nodes == old(nodes)
      ensures var r := ScheduleAll(job.scripts, SortByOrder(Schedulable(old(nodes))), ram);
              && (r == None ==> effects == [] && present' == present)
              && (r.Some? ==> (effects, present') == DispatchAsWritten(r.value, present))
    {
      var candidates := GetFilteredNodesForScheduling();
      var scheduleWithLock := ScheduleJob(job, candidates, ram);
      if scheduleWithLock == None {
        return [], present;
      }
      var jobSchedule := scheduleWithLock.value;
      var jobMetrics := GetJobMetrics(jobSchedule, ram);
      effects, present' := DispatchAsWritten(jobSchedule, present).0, DispatchAsWritten(jobSchedule, present).1;
      ReleaseLock();
    }
  }

  /** Every script needs one unit of RAM per thread on every host. */
  function UnitRam(file: string, host: string): Cost
  {
    1
  }

  /** The example fleet: A (priority 0, room for 10 threads) and B (priority 1, room
      for 5), listed B first. A 12-thread script is placed as A:10, B:2; a 20-thread
      script cannot be placed and nothing is recorded. */
  lemma TieBreakExample()
    ensures var a := NodeRecord("A", 10, 0);
            var b := NodeRecord("B", 5, 1);
            var ram: ScriptRam := UnitRam;
            var candidates := SortByOrder(Schedulable([b, a]));
            && candidates == [a, b]
            && PlaceScript(Script("home", "w.js", 12, []), candidates, ram) == Some([Placement(a, 10), Placement(b, 2)])
            && PlaceScript(Script("home", "w.js", 20, []), candidates, ram) == None
  {
    var a := NodeRecord("A", 10, 0);
    var b := NodeRecord("B", 5, 1);
    var ram: ScriptRam := UnitRam;
    assert [b, a][1..] == [a] && [a][1..] == [] && [a, b][1..] == [b] && [b][1..] == [];
    assert Schedulable([a]) == [a] + Schedulable([]);
    assert Schedulable([b, a]) == [b] + Schedulable([a]);
    assert SortByOrder([a]) == Insert(a, []);
    assert SortByOrder([b, a]) == Insert(b, [a]);
    assert Insert(b, [a]) == [a] + Insert(b, []);
    var s12 := Script("home", "w.js", 12, []);
    var s20 := Script("home", "w.js", 20, []);
    assert ThreadsOn(s12, a, ram) == 10 && ThreadsOn(s12, b, ram) == 5;
    assert ThreadsOn(s20, a, ram) == 10 && ThreadsOn(s20, b, ram) == 5;
    assert Shortfall(s12, [b], 2, ram) == Shortfall(s12, [], -3, ram);
    assert Shortfall(s12, [a, b], 12, ram) == Shortfall(s12, [b], 2, ram);
    assert Place(s12, [b], 2, ram) == [Placement(b, 2)] + Place(s12, [], -3, ram);
    assert Place(s12, [a, b], 12, ram) == [Placement(a, 10)] + Place(s12, [b], 2, ram);
    assert Shortfall(s20, [b], 10, ram) == Shortfall(s20, [], 5, ram);
    assert Shortfall(s20, [a, b], 20, ram) == Shortfall(s20, [b], 10, ram);
    assert SortByOrder(Schedulable([b, a])) == [a, b];
    assert Place(s12, [], -3, ram) == [];
    assert [Placement(a, 10)] + ([Placement(b, 2)] + []) == [Placement(a, 10), Placement(b, 2)];
    assert PlaceScript(s12, [a, b], ram) == Some([Placement(a, 10), Placement(b, 2)]);
    assert PlaceScript(s20, [a, b], ram) == None;
  }
}
