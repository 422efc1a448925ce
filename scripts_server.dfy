/** The server record of the discovery script (the `Server` class of
    src/scripts/netplan.ts): every field is read from the game once, at
    construction, and never written again. */
module ScriptsServer {
  import opened Game

  /** The names of a list of servers, in order. */
  function Names(s: seq<Server>): (names: seq<string>)
    ensures |names| == |s|
    ensures forall i :: 0 <= i < |s| ==> names[i] == s[i].name
  {
    seq(|s|, i requires 0 <= i < |s| => s[i].name)
  }

  lemma NamesSnoc(s: seq<Server>, x: Server)
    ensures Names(s + [x]) == Names(s) + [x.name]
  {
    assert Names(s + [x])[|s|] == x.name;
  }

  class Server {
    const name: string
    const ram: nat
    const minimumSecurity: real
    const currentSecurity: real
    const currentMoney: real
    const maximumMoney: real
    const growthFactor: real
    const isRooted: bool
    const minimumHackingLevel: int
    const neededOpenPorts: nat

    /** The fields hold what the game reports for the host `name`. */
    predicate ReadFrom(w: World)
      requires name in w
    {
      && ram == w[name].maxRam
      && minimumSecurity == w[name].minSecurity && currentSecurity == w[name].security
      && currentMoney == w[name].money && maximumMoney == w[name].maxMoney
      && growthFactor == w[name].growth && isRooted == w[name].rooted
      && minimumHackingLevel == w[name].requiredHackingLevel
      && neededOpenPorts == w[name].portsRequired
    }

    /** `new Server(ns, host)`: one game query per field. */
    constructor (w: World, host: string)
      requires host in w
      ensures name == host && ReadFrom(w)
    {
      name := host;
      ram := w[host].maxRam;
      minimumSecurity := w[host].minSecurity;
      currentSecurity := w[host].security;
      currentMoney := w[host].money;
      maximumMoney := w[host].maxMoney;
      growthFactor := w[host].growth;
      isRooted := w[host].rooted;
      minimumHackingLevel := w[host].requiredHackingLevel;
      neededOpenPorts := w[host].portsRequired;
    }

    /** `scan`: a fresh server for every neighbour the game lists, in the game's
        order. */
    method Scan(w: World) returns (servers: seq<Server>)
      requires name in w && Closed(w)
      ensures Names(servers) == w[name].neighbours
      ensures forall i :: 0 <= i < |servers| ==> fresh(servers[i]) && servers[i].name in w && servers[i].ReadFrom(w)
    {
      var neighbours := w[name].neighbours;
      servers := [];
      var i := 0;
      while i < |neighbours|
        invariant 0 <= i <= |neighbours| && |servers| == i
        invariant forall j :: 0 <= j < i ==>
                    && fresh(servers[j]) && servers[j].name == neighbours[j]
                    && servers[j].name in w && servers[j].ReadFrom(w)
      {
        var s := new Server(w, neighbours[i]);
        servers := servers + [s];
        i := i + 1;
      }
    }
  }
}
