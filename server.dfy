/** A server of the older netplan scheduler (src/lib/netplan/server.ts; netplan.ts
    declares the same class again and the model uses this one for both). Static
    facts are read once at construction; `update` refreshes the rest. */
module NetplanServer {
  import opened Common
  import opened Game

  /** Servers as `scan` creates them: hosts of the world with default options, whose
      fields hold what the game reports. */
  ghost predicate Scanned(s: seq<Server>, w: World)
    reads s
  {
    forall i :: 0 <= i < |s| ==> s[i].name in w && s[i].schedule && s[i].Static(w) && s[i].Current(w)
  }

  class Server {
    const name: string
    const schedule: bool
    const totalRam: nat
    const minimumSecurity: real
    const minimumHackingLevel: int
    const maximumMoney: real
    const growthFactor: real
    const neededOpenPorts: nat
    var currentRam: nat
    var currentSecurity: real
    var currentMoney: real
    var isRooted: bool

    /** The facts read once at construction agree with the game state `w`. */
    ghost predicate Static(w: World)
      requires name in w
    {
      && totalRam == w[name].maxRam && minimumSecurity == w[name].minSecurity
      && maximumMoney == w[name].maxMoney && growthFactor == w[name].growth
      && minimumHackingLevel == w[name].requiredHackingLevel && neededOpenPorts == w[name].portsRequired
    }

    /** The fields `update` reads agree with the game state `w`. */
    ghost predicate Current(w: World)
      reads this
      requires name in w
    {
      && currentRam == w[name].usedRam
      && currentSecurity == w[name].security
      && currentMoney == w[name].money
      && isRooted == w[name].rooted
    }

    /** `new Server(ns, host, schedule = true)`: read the static facts, then `update`. */
    constructor (w: World, host: string, schedule: Option<bool>)
      requires host in w
      ensures name == host
      ensures this.schedule == if schedule.Some? then schedule.value else true
      ensures totalRam == w[host].maxRam && minimumSecurity == w[host].minSecurity
      ensures maximumMoney == w[host].maxMoney && growthFactor == w[host].growth
      ensures minimumHackingLevel == w[host].requiredHackingLevel && neededOpenPorts == w[host].portsRequired
      ensures Current(w)
    {
      name := host;
      this.schedule := if schedule.Some? then schedule.value else true;
      totalRam := w[host].maxRam;
      minimumSecurity := w[host].minSecurity;
      maximumMoney := w[host].maxMoney;
      growthFactor := w[host].growth;
      isRooted := w[host].rooted;
      minimumHackingLevel := w[host].requiredHackingLevel;
      neededOpenPorts := w[host].portsRequired;
      new;
      Update(w);
    }

    /** `update`: refresh security, money, used RAM and root access from the game;
        the static fields are constants. */
    method Update(w: World)
      requires name in w
      modifies this
      ensures Current(w)
    {
      currentSecurity := w[name].security;
      currentMoney := w[name].money;
      currentRam := w[name].usedRam;
      isRooted := w[name].rooted;
    }

    /** `getFreeRAM`: total RAM minus used RAM. */
    function FreeRAM(): (free: int)
      reads this
      ensures free + currentRam == totalRam
    {
      totalRam - currentRam
    }

    /** `getSchedulableThreads`: the number of whole copies of a script of this cost
        that fit into the free RAM. */
    function SchedulableThreads(scriptRam: Cost): (t: int)
      reads this
      ensures t * scriptRam <= FreeRAM() < (t + 1) * scriptRam
    {
      Capacity(FreeRAM(), scriptRam)
    }

    /** `scan`: a fresh server, with default options, for every neighbour the game
        lists, in the game's order. */
    method Scan(w: World) returns (servers: seq<Server>)
      requires name in w && Closed(w)
      ensures |servers| == |w[name].neighbours|
      ensures forall i :: 0 <= i < |servers| ==> fresh(servers[i]) && servers[i].name == w[name].neighbours[i]
      ensures Scanned(servers, w)
    {
      var neighbours := w[name].neighbours;
      servers := [];
      var i := 0;
      while i < |neighbours|
        invariant 0 <= i <= |neighbours| && |servers| == i
        invariant forall j :: 0 <= j < i ==>
                    && fresh(servers[j])
                    && servers[j].name == neighbours[j]
                    && servers[j].name in w
                    && servers[j].schedule
                    && servers[j].Static(w)
                    && servers[j].Current(w)
      {
        var s := new Server(w, neighbours[i], None);
        servers := servers + [s];
        i := i + 1;
      }
    }
  }
}
