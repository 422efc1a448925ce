/** What the scripts read from the game through `ns`, as plain values: one record
    per host, keyed by hostname. Every game query in the model is a lookup here. */
module Game {

  datatype Host = Host(
    maxRam: nat,                 // getServerMaxRam
    usedRam: nat,                // getServerUsedRam
    minSecurity: real,           // getServerMinSecurityLevel
    security: real,              // getServerSecurityLevel
    maxMoney: real,              // getServerMaxMoney
    money: real,                 // getServerMoneyAvailable
    growth: real,                // getServerGrowth
    rooted: bool,                // hasRootAccess
    requiredHackingLevel: int,   // getServerRequiredHackingLevel
    portsRequired: nat,          // getServerNumPortsRequired
    neighbours: seq<string>      // scan
  )

  type World = map<string, Host>

  /** `scan` only ever names hosts that exist. */
  ghost predicate Closed(w: World)
  {
    forall h, n :: h in w && n in w[h].neighbours ==> n in w
  }
}
