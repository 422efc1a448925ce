/** The rooting manager of the netplan scheduler (src/lib/netplan/rooting.ts). */
module NetplanRooting {
  import opened Crackers
  import opened NetplanServer

  /** The outcome of `tryRoot` for a server in the given state: whether it reports
      success, and the game calls it makes on the way. */
  function Attempt(crackers: seq<Program>, isRooted: bool, minimumHackingLevel: int, neededOpenPorts: int,
                   hackingLevel: int, name: string): (bool, seq<Call>)
  {
    if isRooted then (true, [])
    else if minimumHackingLevel > hackingLevel then (false, [])
    else if neededOpenPorts > |crackers| then (false, [])
    else (true, RunAll(Openers(crackers) + [Nuke], name))
  }

  /** The guard chain with the crackers found on "home": success exactly for a rooted
      server, or one within the hacking level whose port requirement the owned
      programs cover. Calls are made only on success for an unrooted server: each
      owned program exactly once, in the fixed order, then `nuke`. */
  lemma AttemptWithOwned(owned: set<Program>, isRooted: bool, minimumHackingLevel: int, neededOpenPorts: int,
                         hackingLevel: int, name: string)
    ensures var (ok, calls) := Attempt(CrackerList(owned), isRooted, minimumHackingLevel, neededOpenPorts, hackingLevel, name);
            && (ok <==> isRooted || (minimumHackingLevel <= hackingLevel && neededOpenPorts <= |owned|))
            && (calls != [] <==> !isRooted && minimumHackingLevel <= hackingLevel && neededOpenPorts <= |owned|)
            && (calls != [] ==>
                  && |calls| == |owned| + 1
                  && calls[|calls| - 1] == Call(Nuke, name)
                  && (forall p :: Call(Opener(p), name) in calls <==> p in owned)
                  && (forall i :: 0 <= i < |calls| ==> calls[i].host == name))
  {
    CrackerListFacts(owned);
    var cs := CrackerList(owned);
    var calls := RunAll(Openers(cs) + [Nuke], name);
    forall p ensures Call(Opener(p), name) in calls <==> p in owned {
      if p in owned {
        var i :| 0 <= i < |cs| && cs[i] == p;
        assert calls[i] == Call(Opener(p), name);
      }
      if Call(Opener(p), name) in calls {
        var i :| 0 <= i < |calls| && calls[i] == Call(Opener(p), name);
        assert i < |cs| && cs[i] == p;
      }
    }
  }

  class RootingManager {
    const crackers: seq<Program>

    /** The constructor tests the five files on "home" in the fixed order and keeps
        the programs present (`owned`). */
    constructor (owned: set<Program>)
      ensures crackers == CrackerList(owned)
      ensures forall p :: p in crackers <==> p in owned
      ensures |crackers| == |owned| <= 5
    {
      var found := CollectCrackers(owned);
      crackers := found;
    }

    /** `tryRoot`: already rooted, success without calls; hacking level too low, or
        more ports needed than crackers, failure without calls; otherwise every
        cracker once in list order, then `nuke`, and success. The server's fields
        are not written. */
    method TryRoot(server: Server, hackingLevel: int) returns (ok: bool, calls: seq<Call>)
      ensures server.isRooted ==> ok && calls == []
      ensures !server.isRooted && server.minimumHackingLevel > hackingLevel ==> !ok && calls == []
      ensures (!server.isRooted && server.minimumHackingLevel <= hackingLevel && server.neededOpenPorts > |crackers|)
                ==> !ok && calls == []
      ensures (!server.isRooted && server.minimumHackingLevel <= hackingLevel && server.neededOpenPorts <= |crackers|)
                ==> ok && calls == RunAll(Openers(crackers) + [Nuke], server.name)
      ensures (ok, calls) == Attempt(crackers, server.isRooted, server.minimumHackingLevel, server.neededOpenPorts,
                                     hackingLevel, server.name)
    {
      if server.isRooted {
        return true, [];
      }
      if server.minimumHackingLevel > hackingLevel {
        return false, [];
      }
      if server.neededOpenPorts > |crackers| {
        return false, [];
      }
      calls := RunAll(Openers(crackers), server.name);
      calls := calls + [Call(Nuke, server.name)];
      ok := true;
    }
  }
}
