/** The rooting manager of the discovery script (src/scripts/rooting.ts). Unlike
    the netplan library's manager it keeps `nuke` in its list of crackers, so the
    port check counts `nuke` as a port opener. */
module ScriptsRooting {
  import opened Crackers
  import opened ScriptsServer
  import NetplanRooting

  /** The list the constructor builds: the owned port openers in the fixed order,
      then `nuke`. */
  function ToolList(owned: set<Program>): (tools: seq<Tool>)
    ensures |tools| == |owned| + 1 && tools[|tools| - 1] == Nuke
    ensures forall p :: Opener(p) in tools <==> p in owned
  {
    CrackerListFacts(owned);
    var cs := CrackerList(owned);
    var tools := Openers(cs) + [Nuke];
    assert forall p :: Opener(p) in tools ==> p in cs by {
      forall p | Opener(p) in tools ensures p in cs {
        var i :| 0 <= i < |tools| && tools[i] == Opener(p);
        assert cs[i] == p;
      }
    }
    assert forall p :: p in cs ==> Opener(p) in tools by {
      forall p | p in cs ensures Opener(p) in tools {
        var i :| 0 <= i < |cs| && cs[i] == p;
        assert tools[i] == Opener(p);
      }
    }
    tools
  }

  /** The guard chain of `tryRoot` with the port check against `portBudget`:
      success with no calls for a rooted server, failure with no calls when the
      hacking level is too low or more ports are needed than the budget, otherwise
      every tool once, in list order, and success. */
  function RootAttempt(tools: seq<Tool>, portBudget: int, isRooted: bool, minimumHackingLevel: int,
                       neededOpenPorts: int, hackingLevel: int, name: string): (bool, seq<Call>)
  {
    if isRooted then (true, [])
    else if minimumHackingLevel > hackingLevel then (false, [])
    else if neededOpenPorts > portBudget then (false, [])
    else (true, RunAll(tools, name))
  }

  /** As written: the budget is the whole list, `nuke` included. With the owned
      programs, a server within the hacking level passes when it needs at most one
      port more than there are openers; success always ends with `nuke`, after each
      owned opener once. */
  lemma AsWrittenWithOwned(owned: set<Program>, isRooted: bool, minimumHackingLevel: int, neededOpenPorts: int,
                           hackingLevel: int, name: string)
    ensures var tools := ToolList(owned);
            var (ok, calls) := RootAttempt(tools, |tools|, isRooted, minimumHackingLevel, neededOpenPorts,
                                           hackingLevel, name);
            && (ok <==> isRooted || (minimumHackingLevel <= hackingLevel && neededOpenPorts <= |owned| + 1))
            && (calls != [] ==>
                  && |calls| == |owned| + 1
                  && calls[|calls| - 1] == Call(Nuke, name)
                  && (forall p :: Call(Opener(p), name) in calls <==> p in owned))
  {
    var tools := ToolList(owned);
    var (ok, calls) := RootAttempt(tools, |tools|, isRooted, minimumHackingLevel, neededOpenPorts,
                                   hackingLevel, name);
    if calls != [] {
      assert calls == RunAll(tools, name);
      forall p ensures Call(Opener(p), name) in calls <==> Opener(p) in tools {
        if Opener(p) in tools {
          var i :| 0 <= i < |tools| && tools[i] == Opener(p);
          assert calls[i] == Call(Opener(p), name);
        }
        if Call(Opener(p), name) in calls {
          var i :| 0 <= i < |calls| && calls[i] == Call(Opener(p), name);
          assert tools[i] == Opener(p);
        }
      }
    }
  }

  /** Corrected: the budget is the number of port openers, the list without `nuke`.
      The result is then exactly that of the netplan library's manager with the
      same programs. */
  lemma CorrectedMatchesLibrary(owned: set<Program>, isRooted: bool, minimumHackingLevel: int,
                                neededOpenPorts: int, hackingLevel: int, name: string)
    ensures var tools := ToolList(owned);
            RootAttempt(tools, |tools| - 1, isRooted, minimumHackingLevel, neededOpenPorts, hackingLevel, name)
            == NetplanRooting.Attempt(CrackerList(owned), isRooted, minimumHackingLevel, neededOpenPorts,
                                      hackingLevel, name)
  {
    CrackerListFacts(owned);
  }

  /** The discrepancy: with no port opener at all, a server that needs one open
      port is reported rooted as written, after a lone `nuke` call (assuming the
      game's `nuke` returns rather than raising); the corrected check turns it down
      without a call. The model treats every game call as an effect that returns. */
  lemma NukeCountedAsPort(name: string)
    ensures var tools := ToolList({});
            && RootAttempt(tools, |tools|, false, 0, 1, 0, name) == (true, [Call(Nuke, name)])
            && RootAttempt(tools, |tools| - 1, false, 0, 1, 0, name) == (false, [])
  {
    var tools := ToolList({});
    assert tools == [Nuke] by {
      assert |tools| == 1;
    }
    assert RunAll(tools, name) == [Call(Nuke, name)] by {
      assert RunAll(tools, name)[0] == Call(Nuke, name);
    }
  }

  class RootingManager {
    const tools: seq<Tool>

    /** The constructor tests the five files on "home" in the fixed order, keeps
        the programs present, and pushes `nuke` last. */
    constructor (owned: set<Program>)
      ensures tools == ToolList(owned)
    {
      var found := CollectCrackers(owned);
      tools := Openers(found);
      tools := tools + [Nuke];
    }

    /** `tryRoot` as written: the port requirement is compared with the length of
        the whole list. */
    method TryRoot(server: Server, hackingLevel: int) returns (ok: bool, calls: seq<Call>)
      ensures (ok, calls) == RootAttempt(tools, |tools|, server.isRooted, server.minimumHackingLevel,
                                         server.neededOpenPorts, hackingLevel, server.name)
    {
      if server.isRooted {
        return true, [];
      }
      if server.minimumHackingLevel > hackingLevel {
        return false, [];
      }
      if server.neededOpenPorts > |tools| {
        return false, [];
      }
      calls := RunAll(tools, server.name);
      ok := true;
    }

    /** `tryRoot` with the port requirement compared with the openers only. */
    method TryRootCorrected(server: Server, hackingLevel: int) returns (ok: bool, calls: seq<Call>)
      ensures (ok, calls) == RootAttempt(tools, |tools| - 1, server.isRooted, server.minimumHackingLevel,
                                         server.neededOpenPorts, hackingLevel, server.name)
    {
      if server.isRooted {
        return true, [];
      }
      if server.minimumHackingLevel > hackingLevel {
        return false, [];
      }
      if server.neededOpenPorts > |tools| - 1 {
        return false, [];
      }
      calls := RunAll(tools, server.name);
      ok := true;
    }
  }
}
