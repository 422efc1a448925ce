/** A fleet member of the cluster scheduler (src/lib/cluster/node.ts). */
module ClusterNode {
  import opened Common
  import opened Crackers
  import opened Game

  /** The fields of the game's `Server` record that node.ts reads. The two optional
      ones are optional in the game's interface too. */
  datatype ServerSnapshot = ServerSnapshot(
    hostname: string,
    hasAdminRights: bool,
    numOpenPortsRequired: Option<nat>,
    maxRam: nat,
    ramUsed: nat,
    moneyMax: Option<real>
  )

  /** `ns.getServer(host)` for a host of the world. */
  function SnapshotOf(w: World, host: string): (s: ServerSnapshot)
    requires host in w
    ensures s.hostname == host
  {
    var h := w[host];
    ServerSnapshot(host, h.rooted, Some(h.portsRequired), h.maxRam, h.usedRam, Some(h.maxMoney))
  }

  datatype NodeOpts = NodeOpts(schedulable: bool, scheduleOrder: int)

  /** What the scheduler sees of a node: its name, its schedulable (here: free) RAM
      and its scheduling priority. */
  datatype NodeRecord = NodeRecord(name: string, freeRAM: int, scheduleOrder: int)

  /** The rooting guard of `update` as written: the port requirement is tested for
      truthiness, so a server that needs 0 ports (or reports none) never passes. */
  predicate ShouldRoot(server: ServerSnapshot, crackerCount: nat)
  {
    && !server.hasAdminRights
    && server.numOpenPortsRequired.Some?
    && server.numOpenPortsRequired.value != 0
    && crackerCount >= server.numOpenPortsRequired.value
  }

  /** Ports a server needs; an absent requirement counts as none. */
  function RequiredPorts(server: ServerSnapshot): nat
  {
    if server.numOpenPortsRequired.Some? then server.numOpenPortsRequired.value else 0
  }

  /** The guard `update` evidently means: root every server without admin rights
      whose port requirement the available crackers cover. */
  predicate ShouldRootCorrected(server: ServerSnapshot, crackerCount: nat)
  {
    !server.hasAdminRights && crackerCount >= RequiredPorts(server)
  }

  /** The as-written guard is the intended one minus exactly the servers that need
      no port at all. */
  lemma ShouldRootMissesZeroPorts(server: ServerSnapshot, crackerCount: nat)
    ensures ShouldRoot(server, crackerCount)
            <==> ShouldRootCorrected(server, crackerCount) && RequiredPorts(server) != 0
  {
  }

  /** A server without admin rights that needs no open port: the intended guard roots
      it with no crackers at all, the written one never does. */
  lemma ZeroPortServerNeverRooted()
    ensures var s := ServerSnapshot("n00dles", false, Some(0), 4, 0, Some(70000.0));
            !ShouldRoot(s, 0) && !ShouldRoot(s, 5) && ShouldRootCorrected(s, 0)
  {
  }

  class Node {
    var server: ServerSnapshot
    const schedulable: bool
    const scheduleOrder: int

    /** `new Node(ns, log, host, opts?)` with `server` the result of `ns.getServer(host)`:
        without options a node is schedulable with priority 0. */
    constructor (server: ServerSnapshot, opts: Option<NodeOpts>)
      ensures this.server == server
      ensures opts == None ==> schedulable && scheduleOrder == 0
      ensures opts.Some? ==> schedulable == opts.value.schedulable && scheduleOrder == opts.value.scheduleOrder
    {
      this.server := server;
      if opts.Some? {
        schedulable := opts.value.schedulable;
        scheduleOrder := opts.value.scheduleOrder;
      } else {
        schedulable := true;
        scheduleOrder := 0;
      }
    }

    function Hostname(): string
      reads this
    {
      server.hostname
    }

    /** `getFreeRAM`: installed RAM minus used RAM. */
    function FreeRAM(): (free: int)
      reads this
      ensures free + server.ramUsed == server.maxRam
    {
      server.maxRam - server.ramUsed
    }

    /** `getScriptThreads`: how many copies of a script of the given cost fit into the free RAM. */
    function ScriptThreads(cost: Cost): (t: int)
      reads this
      ensures t * cost <= FreeRAM() < (t + 1) * cost
    {
      Capacity(FreeRAM(), cost)
    }

    /** `getMaxMoney`: the server's maximum money, 0 when the game reports none. */
    function MaxMoney(): (m: real)
      reads this
      ensures server.moneyMax == None ==> m == 0.0
      ensures server.moneyMax.Some? ==> m == server.moneyMax.value
    {
      if server.moneyMax.Some? then server.moneyMax.value else 0.0
    }

    /** The node as the cluster scheduler sees it. */
    function Record(): (r: NodeRecord)
      reads this
      ensures r.name == server.hostname && r.freeRAM == FreeRAM() && r.scheduleOrder == scheduleOrder
    {
      NodeRecord(server.hostname, FreeRAM(), scheduleOrder)
    }

    /** `update`: when the guard holds, run every available cracker on the host in
        list order and then nuke it; in every case replace the snapshot with the one
        the game reports afterwards (`refreshed`). The crackers are the programs
        present on "home" (`owned`). Priority and schedulability are constants. */
    method Update(owned: set<Program>, refreshed: ServerSnapshot) returns (calls: seq<Call>)
      requires refreshed.hostname == server.hostname
      modifies this
      ensures server == refreshed
      ensures ShouldRoot(old(server), |owned|) ==>
                calls == RunAll(Openers(CrackerList(owned)) + [Nuke], old(server.hostname))
      ensures !ShouldRoot(old(server), |owned|) ==> calls == []
    {
      var host := server.hostname;
      calls := [];
      if !server.hasAdminRights && server.numOpenPortsRequired.Some? && server.numOpenPortsRequired.value != 0 {
        var crackers := CollectCrackers(owned);
        if |crackers| >= server.numOpenPortsRequired.value {
          var again := CollectCrackers(owned);
          calls := RunAll(Openers(again) + [Nuke], host);
        }
      }
      server := refreshed;
    }

    /** `update` with the intended guard: a server that needs no open port is
        nuked as soon as it lacks admin rights. */
    method UpdateCorrected(owned: set<Program>, refreshed: ServerSnapshot) returns (calls: seq<Call>)
      requires refreshed.hostname == server.hostname
      modifies this
      ensures server == refreshed
      ensures ShouldRootCorrected(old(server), |owned|) ==>
                calls == RunAll(Openers(CrackerList(owned)) + [Nuke], old(server.hostname))
      ensures !ShouldRootCorrected(old(server), |owned|) ==> calls == []
    {
      var host := server.hostname;
      calls := [];
      if !server.hasAdminRights {
        var crackers := CollectCrackers(owned);
        if |crackers| >= RequiredPorts(server) {
          calls := RunAll(Openers(crackers) + [Nuke], host);
        }
      }
      server := refreshed;
    }
  }
}
