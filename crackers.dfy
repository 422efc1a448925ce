/** The port-opening programs that the rooting code looks for on "home", and the
    game calls it issues with them. Shared by node.ts `getCrackers` and the two
    `RootingManager` constructors, which all test the same five files in the
    same order. */
module Crackers {
  import opened Common

  datatype Program = RelaySMTP | HTTPWorm | SQLInject | BruteSSH | FTPCrack

  /** The order in which the files are tested and pushed. */
  const Order: seq<Program> := [RelaySMTP, HTTPWorm, SQLInject, BruteSSH, FTPCrack]

  function Rank(p: Program): nat
  {
    match p
    case RelaySMTP => 0
    case HTTPWorm => 1
    case SQLInject => 2
    case BruteSSH => 3
    case FTPCrack => 4
  }

  /** The file whose presence on "home" makes the program available. */
  function FileName(p: Program): string
  {
    match p
    case RelaySMTP => "relaySMTP.exe"
    case HTTPWorm => "HTTPWorm.exe"
    case SQLInject => "SQLInject.exe"
    case BruteSSH => "BruteSSH.exe"
    case FTPCrack => "FTPCrack.exe"
  }

  /** Something the rooting code hands a hostname to: a port opener or `nuke`. */
  datatype Tool = Opener(program: Program) | Nuke

  /** One game call `fn(host)`. */
  datatype Call = Call(tool: Tool, host: string)

  function Openers(ps: seq<Program>): seq<Tool>
  {
    seq(|ps|, i requires 0 <= i < |ps| => Opener(ps[i]))
  }

  /** `tools.forEach(fn => fn(host))`: one call per tool, in list order. */
  function RunAll(tools: seq<Tool>, host: string): seq<Call>
  {
    seq(|tools|, i requires 0 <= i < |tools| => Call(tools[i], host))
  }

  /** The elements of `s` that are owned, in the order of `s`. */
  function Keep(s: seq<Program>, owned: set<Program>): seq<Program>
  {
    if s == [] then [] else (if s[0] in owned then [s[0]] else []) + Keep(s[1..], owned)
  }

  /** The list the constructors build from the programs present on "home". */
  function CrackerList(owned: set<Program>): seq<Program>
  {
    Keep(Order, owned)
  }

  ghost predicate InOrder(s: seq<Program>)
  {
    forall i, j :: 0 <= i < j < |s| ==> Rank(s[i]) < Rank(s[j])
  }

  lemma {:induction false} KeepMembers(s: seq<Program>, owned: set<Program>)
    ensures forall p :: p in Keep(s, owned) <==> p in s && p in owned
  {
    if s != [] {
      KeepMembers(s[1..], owned);
      assert s == [s[0]] + s[1..];
    }
  }

  lemma {:induction false} KeepFacts(s: seq<Program>, owned: set<Program>)
    requires InOrder(s)
    ensures InOrder(Keep(s, owned))
    ensures forall p :: p in Keep(s, owned) <==> p in s && p in owned
  {
    KeepMembers(s, owned);
    if s != [] {
      var t := s[1..];
      InOrderTail(s);
      KeepFacts(t, owned);
      assert s == [s[0]] + t;
      KeepCons(s[0], t, owned);
      var rest := Keep(t, owned);
      forall q | q in rest ensures Rank(s[0]) < Rank(q) {
        var k :| 0 <= k < |t| && t[k] == q;
        assert s[k + 1] == q;
      }
      InOrderCons(s[0], rest, Owned(s[0], owned));
    }
  }

  lemma InOrderTail(s: seq<Program>)
    requires InOrder(s) && s != []
    ensures InOrder(s[1..])
  {
    var t := s[1..];
    forall i, j | 0 <= i < j < |t| ensures Rank(t[i]) < Rank(t[j]) {
      assert t[i] == s[i + 1] && t[j] == s[j + 1];
    }
  }

  lemma InOrderCons(x: Program, rest: seq<Program>, h: seq<Program>)
    requires InOrder(rest) && (forall q :: q in rest ==> Rank(x) < Rank(q))
    requires h == [] || h == [x]
    ensures InOrder(h + rest)
  {
    var r := h + rest;
    forall i, j | 0 <= i < j < |r| ensures Rank(r[i]) < Rank(r[j]) {
      if h == [] {
        assert r[i] == rest[i] && r[j] == rest[j];
      } else {
        assert r[j] == rest[j - 1];
        if i > 0 {
          assert r[i] == rest[i - 1];
        }
      }
    }
  }

  lemma {:induction false} DistinctCardinality(s: seq<Program>)
    requires InOrder(s)
    ensures |set p | p in s| == |s|
  {
    if s != [] {
      var t := s[1..];
      InOrderTail(s);
      DistinctCardinality(t);
      assert s[0] !in t by {
        forall k | 0 <= k < |t| ensures t[k] != s[0] {
          assert Rank(s[0]) < Rank(s[k + 1]);
        }
      }
      assert (set p | p in s) == (set p | p in t) + {s[0]};
    }
  }

  lemma OrderCoversAll()
    ensures InOrder(Order)
    ensures forall p :: p in Order
  {
    forall p ensures p in Order {
      assert Order[Rank(p)] == p;
    }
  }

  /** The cracker list holds exactly the available programs, each once, in the fixed
      order relaySMTP, HTTPWorm, SQLInject, BruteSSH, FTPCrack; so at most five. */
  lemma CrackerListFacts(owned: set<Program>)
    ensures forall p :: p in CrackerList(owned) <==> p in owned
    ensures InOrder(CrackerList(owned))
    ensures |CrackerList(owned)| == |owned| <= 5
  {
    OrderCoversAll();
    KeepFacts(Order, owned);
    var c := CrackerList(owned);
    DistinctCardinality(c);
    assert (set p | p in c) == owned;
    assert owned <= set p | p in Order;
    DistinctCardinality(Order);
    SubsetCardinality(owned, set p | p in Order);
  }

  /** The constructor's sequence of `fileExists` tests and pushes. */
  method CollectCrackers(owned: set<Program>) returns (crackers: seq<Program>)
    ensures crackers == CrackerList(owned)
    ensures forall p :: p in crackers <==> p in owned
    ensures |crackers| == |owned| <= 5
  {
    crackers := [];
    crackers := PushIfOwned(crackers, RelaySMTP, owned);
    crackers := PushIfOwned(crackers, HTTPWorm, owned);
    crackers := PushIfOwned(crackers, SQLInject, owned);
    crackers := PushIfOwned(crackers, BruteSSH, owned);
    crackers := PushIfOwned(crackers, FTPCrack, owned);
    CrackerListUnfold(owned);
    CrackerListFacts(owned);
  }

  /** The programs of `[p]` that are owned. */
  function Owned(p: Program, owned: set<Program>): seq<Program>
  {
    if p in owned then [p] else []
  }

  /** `if (ns.fileExists(file, "home")) crackers.push(fn)`. */
  method PushIfOwned(crackers: seq<Program>, p: Program, owned: set<Program>) returns (r: seq<Program>)
    ensures r == crackers + Owned(p, owned)
  {
    r := crackers;
    if p in owned {
      r := r + [p];
    }
  }

  /** The cracker list, one test per program of the fixed order. */
  lemma CrackerListUnfold(owned: set<Program>)
    ensures CrackerList(owned)
            == [] + Owned(RelaySMTP, owned) + Owned(HTTPWorm, owned) + Owned(SQLInject, owned)
               + Owned(BruteSSH, owned) + Owned(FTPCrack, owned)
  {
    var o4 := [FTPCrack];
    var o3 := [BruteSSH] + o4;
    var o2 := [SQLInject] + o3;
    var o1 := [HTTPWorm] + o2;
    assert Order == [RelaySMTP] + o1;
    KeepCons(FTPCrack, [], owned);
    assert [FTPCrack] + [] == o4;
    KeepCons(BruteSSH, o4, owned);
    KeepCons(SQLInject, o3, owned);
    KeepCons(HTTPWorm, o2, owned);
    KeepCons(RelaySMTP, o1, owned);
    var a, b, c, d, e := Owned(RelaySMTP, owned), Owned(HTTPWorm, owned), Owned(SQLInject, owned),
                         Owned(BruteSSH, owned), Owned(FTPCrack, owned);
    assert e + [] == e;
    AppendAssoc(c, d, e);
    AppendAssoc(b, c + d, e);
    AppendAssoc(b, c, d);
    AppendAssoc(a, b + c + d, e);
    AppendAssoc(a, b + c, d);
    AppendAssoc(a, b, c);
    assert [] + a == a;
  }


  lemma KeepCons(p: Program, s: seq<Program>, owned: set<Program>)
    ensures Keep([p] + s, owned) == Owned(p, owned) + Keep(s, owned)
  {
    assert ([p] + s)[0] == p && ([p] + s)[1..] == s;
  }
}
