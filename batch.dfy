/** The arithmetic shared by the two HWGW batch builders (src/lib/hwgwbatch/batch.ts
    and src/lib/hwgwbatch/HWGWBatch.ts): start delays that make the four scripts
    finish 200 ms apart, and thread counts from the game's analysis functions. */
module BatchTiming {
  import opened Common
  import opened ClusterJob
  import opened Scheduler

  /** Gap between consecutive finishes, in ms. */
  const ScriptDelay: int := 200
  /** Security removed by one weaken thread. */
  const SecurityDecreasePerWeaken: real := 0.05
  const DefaultExtractionFactor: real := 0.25

  const WeakenScript: string := "/lib/hwgwbatch/scripts/weaken.js"
  const GrowScript: string := "/lib/hwgwbatch/scripts/grow.js"
  const HackScript: string := "/lib/hwgwbatch/scripts/hack.js"

  /** The durations the game reports while the timing is derived: the weaken time is
      read twice (the second read fixes the second weaken's delay), then hack and grow. */
  datatype Durations = Durations(weakenTime: int, hackTime: int, growTime: int, weakenTimeAgain: int)

  /** Start delays of hack, grow and the second weaken (the first weaken starts at
      once), and the planned finish of the second weaken. */
  datatype Timing = Timing(hackDelay: int, growDelay: int, growWeakenDelay: int, growWeakenFinish: int)

  /** When hack, weaken₁, grow and weaken₂ finish, each started at its delay and
      running for the duration the game reported for it. */
  function Finishes(d: Durations, t: Timing): seq<int>
  {
    [t.hackDelay + d.hackTime, 0 + d.weakenTime, t.growDelay + d.growTime, t.growWeakenDelay + d.weakenTimeAgain]
  }

  /** The timing derivation: weaken₁ finishes at the weaken time, hack 200 ms before
      it, grow 200 ms after it and weaken₂ 200 ms after grow; so the finishes are
      strictly increasing, 200 ms apart, and weaken₂ starts 400 ms after weaken₁
      whenever the two weaken-time reads agree. */
  function TimingOf(d: Durations): (t: Timing)
    ensures var f := Finishes(d, t);
            f[1] == d.weakenTime && forall i :: 0 <= i < 3 ==> f[i + 1] == f[i] + ScriptDelay
    ensures t.growWeakenFinish == Finishes(d, t)[3] == d.weakenTime + 2 * ScriptDelay
    ensures d.weakenTimeAgain == d.weakenTime ==> t.growWeakenDelay == 2 * ScriptDelay
  {
    var hackWeakenFinish := d.weakenTime;
    var hackFinish := hackWeakenFinish - ScriptDelay;
    var growFinish := hackWeakenFinish + ScriptDelay;
    var growWeakenFinish := growFinish + ScriptDelay;
    Timing(hackFinish - d.hackTime, growFinish - d.growTime, growWeakenFinish - d.weakenTimeAgain, growWeakenFinish)
  }

  /** Weaken 4000 ms, hack 2000 ms, grow 3200 ms: delays 1800, 1000 and 400; finishes
      3800, 4000, 4200, 4400. */
  lemma TimingExample()
    ensures var d := Durations(4000, 2000, 3200, 4000);
            TimingOf(d) == Timing(1800, 1000, 400, 4400)
            && Finishes(d, TimingOf(d)) == [3800, 4000, 4200, 4400]
  {
  }

  /** The game's analysis functions. `growthAnalyze` receives None where the
      growth factor is not a finite number (a division by zero). */
  datatype Analysis = Analysis(
    hackAnalyzeThreads: (string, real) -> real,
    hackAnalyzeSecurity: int -> real,
    growthAnalyze: (string, Option<real>) -> real,
    growthAnalyzeSecurity: int -> real
  )

  /** The money one batch means to take: `maxMoney * extractionFactor`. */
  function TargetExtract(maxMoney: real, extractionFactor: real): real
  {
    maxMoney * extractionFactor
  }

  /** With money on the server, the grow factor `maxMoney / targetExtract` is the
      inverse of the extraction factor. */
  lemma GrowFactorIsInverse(maxMoney: real, extractionFactor: real)
    requires maxMoney > 0.0
    ensures Quotient(maxMoney, TargetExtract(maxMoney, extractionFactor)).Some? <==> extractionFactor != 0.0
    ensures extractionFactor != 0.0 ==>
              Quotient(maxMoney, TargetExtract(maxMoney, extractionFactor)) == Some(1.0 / extractionFactor)
  {
    if extractionFactor != 0.0 {
      var e := maxMoney * extractionFactor;
      var q := 1.0 / extractionFactor;
      assert q * extractionFactor == 1.0;
      assert q * e == (q * extractionFactor) * maxMoney;
      assert e != 0.0 by {
        if extractionFactor > 0.0 {
          assert e > 0.0;
        } else {
          assert e < 0.0;
        }
      }
      assert q * e == maxMoney;
      var g := maxMoney / e;
      assert g * e == maxMoney;
      assert (g - q) * e == 0.0;
      assert g == q;
    }
  }

  /** `ceil(increase / 0.05)`: the fewest weaken threads that remove the increase. */
  function WeakenThreads(increase: real): (t: int)
    ensures t as real * SecurityDecreasePerWeaken >= increase
    ensures (t - 1) as real * SecurityDecreasePerWeaken < increase
  {
    Ceil(increase / SecurityDecreasePerWeaken)
  }

  datatype ThreadPlan = ThreadPlan(hack: int, hackWeaken: int, grow: int, growWeaken: int)
  {
    /** `totalThreads`. */
    function Total(): int
    {
      hack + hackWeaken + grow + growWeaken
    }
  }

  /** Thread counts of a batch: hack threads floored (never take more than the
      extract), grow threads ceiled, and each weaken count the fewest threads that
      undo the security its partner adds. */
  function ThreadsOf(a: Analysis, host: string, maxMoney: real, extract: real): (p: ThreadPlan)
    ensures p.hack as real <= a.hackAnalyzeThreads(host, extract) < p.hack as real + 1.0
    ensures p.hackWeaken as real * SecurityDecreasePerWeaken >= a.hackAnalyzeSecurity(p.hack)
              > (p.hackWeaken - 1) as real * SecurityDecreasePerWeaken
    ensures p.grow as real - 1.0 < a.growthAnalyze(host, Quotient(maxMoney, extract)) <= p.grow as real
    ensures p.growWeaken as real * SecurityDecreasePerWeaken >= a.growthAnalyzeSecurity(p.grow)
              > (p.growWeaken - 1) as real * SecurityDecreasePerWeaken
  {
    var hackThreads := Floor(a.hackAnalyzeThreads(host, extract));
    var growThreads := Ceil(a.growthAnalyze(host, Quotient(maxMoney, extract)));
    ThreadPlan(hackThreads, WeakenThreads(a.hackAnalyzeSecurity(hackThreads)),
               growThreads, WeakenThreads(a.growthAnalyzeSecurity(growThreads)))
  }

  /** The four scripts of a batch, in job order: weaken₁ at once, hack, grow, weaken₂
      at their delays; each gets the target hostname and its delay as arguments. */
  function BatchScripts(source: string, host: string, p: ThreadPlan, t: Timing): (s: seq<Script>)
    ensures |s| == 4
    ensures s[0].file == s[3].file == WeakenScript && s[1].file == HackScript && s[2].file == GrowScript
    ensures forall i :: 0 <= i < 4 ==> s[i].source == source && |s[i].args| == 2 && s[i].args[0] == Str(host)
    ensures [s[0].args[1], s[1].args[1], s[2].args[1], s[3].args[1]]
            == [Num(0), Num(t.hackDelay), Num(t.growDelay), Num(t.growWeakenDelay)]
    ensures s[0].threads == p.hackWeaken && s[1].threads == p.hack
            && s[2].threads == p.grow && s[3].threads == p.growWeaken
  {
    [ Script(source, WeakenScript, p.hackWeaken, [Str(host), Num(0)]),
      Script(source, HackScript, p.hack, [Str(host), Num(t.hackDelay)]),
      Script(source, GrowScript, p.grow, [Str(host), Num(t.growDelay)]),
      Script(source, WeakenScript, p.growWeaken, [Str(host), Num(t.growWeakenDelay)]) ]
  }

  /** The batch job asks the cluster for exactly the logged total of threads, as
      long as no analysis result drives a count below zero. */
  lemma BatchRequestsTotal(source: string, host: string, p: ThreadPlan, t: Timing)
    requires p.hack >= 0 && p.hackWeaken >= 0 && p.grow >= 0 && p.growWeaken >= 0
    ensures Requested(BatchScripts(source, host, p, t)) == p.Total()
  {
    var s := BatchScripts(source, host, p, t);
    var r := seq(|s|, i requires 0 <= i < |s| => Max(s[i].threads, 0));
    assert r == [p.hackWeaken, p.hack, p.grow, p.growWeaken];
    var r3, r2, r1 := r[..3], r[..2], r[..1];
    assert r3[..2] == r2 && r2[..1] == r1 && r1[..0] == [];
    assert Sum(r1) == p.hackWeaken;
    assert Sum(r2) == Sum(r1) + p.hack;
    assert Sum(r3) == Sum(r2) + p.grow;
    assert Sum(r) == Sum(r3) + p.growWeaken;
  }
}

/** src/lib/hwgwbatch/HWGWBatch.ts: builds the four-script job without running it. */
module Hwgw {
  import opened Common
  import opened ClusterNode
  import opened ClusterJob
  import opened BatchTiming

  class HWGWBatch {
    const target: Node
    const source: Node
    const extractionFactor: real

    /** `new HWGWBatch(ns, log, target, source, extractionFactor = 0.25)`. */
    constructor (target: Node, source: Node, extractionFactor: Option<real>)
      ensures this.target == target && this.source == source
      ensures this.extractionFactor == if extractionFactor.Some? then extractionFactor.value else DefaultExtractionFactor
    {
      this.target := target;
      this.source := source;
      this.extractionFactor := if extractionFactor.Some? then extractionFactor.value else DefaultExtractionFactor;
    }

    /** `getJob`: a fresh job named "hwgw-" + target hostname holding weaken₁, hack,
        grow and weaken₂, timed by the durations the game reports (`d`) and sized by
        its analysis functions (`a`). */
    method GetJob(d: Durations, a: Analysis) returns (job: Job)
      ensures fresh(job)
      ensures job.name == "hwgw-" + target.Hostname()
      ensures job.executionTime == None
      ensures var extract := TargetExtract(target.MaxMoney(), extractionFactor);
              job.scripts == BatchScripts(source.Hostname(), target.Hostname(),
                                          ThreadsOf(a, target.Hostname(), target.MaxMoney(), extract), TimingOf(d))
    {
      var timing := TimingOf(d);
      var targetExtract := TargetExtract(target.MaxMoney(), extractionFactor);
      var threads := ThreadsOf(a, target.Hostname(), target.MaxMoney(), targetExtract);
      var host := target.Hostname();
      job := new Job("hwgw-" + host);
      job.AddScripts(BatchScripts(source.Hostname(), host, threads, timing));
    }
  }
}

/** src/lib/hwgwbatch/batch.ts: a batch whose timing is fixed at construction and
    which dispatches itself through the cluster on every run. */
module BatchRunner {
  import opened Common
  import opened Crackers
  import opened ClusterNode
  import opened ClusterJob
  import opened Scheduler
  import opened BatchTiming

  class Batch {
    const target: Node
    const source: Node
    const cluster: Cluster
    const targetExtract: real
    const hackWeakenDelay: int
    const hackDelay: int
    const growDelay: int
    const growWeakenDelay: int
    const growWeakenFinish: int
    /** The durations read at construction. */
    ghost const durations: Durations

    /** The constructor stores the delays derived from the durations the game
        reports now, and the extract from the target's current maximum money. */
    constructor (cluster: Cluster, target: Node, source: Node, d: Durations, extractionFactor: Option<real>)
      ensures this.cluster == cluster && this.target == target && this.source == source && durations == d
      ensures hackWeakenDelay == 0
      ensures TimingOf(d) == Timing(hackDelay, growDelay, growWeakenDelay, growWeakenFinish)
      ensures targetExtract == TargetExtract(target.MaxMoney(),
                                             if extractionFactor.Some? then extractionFactor.value else DefaultExtractionFactor)
    {
      this.cluster := cluster;
      this.target := target;
      this.source := source;
      durations := d;
      hackWeakenDelay := 0;
      var timing := TimingOf(d);
      hackDelay := timing.hackDelay;
      growDelay := timing.growDelay;
      growWeakenDelay := timing.growWeakenDelay;
      growWeakenFinish := timing.growWeakenFinish;
      targetExtract := TargetExtract(target.MaxMoney(),
                                     if extractionFactor.Some? then extractionFactor.value else DefaultExtractionFactor);
    }

    /** `run`: refresh the target (rooting it if it can; `rootCalls` are the calls
        `update` made), size the four scripts with the fixed extract and the
        target's refreshed maximum money, hand the job "batch-" + hostname to the
        cluster, and return the wait before the next run: 200 ms after the second
        weaken finishes, that is the weaken time read at construction plus 600 ms. */
    method Run(owned: set<Program>, refreshed: ServerSnapshot, a: Analysis, ram: ScriptRam, present: Files)
      returns (next: int, rootCalls: seq<Call>, effects: seq<Effect>, present': Files)
      requires refreshed.hostname == target.server.hostname
      requires TimingOf(durations) == Timing(hackDelay, growDelay, growWeakenDelay, growWeakenFinish)
      requires !cluster.isLocked
      modifies target, cluster
      ensures ShouldRoot(old(target.server), |owned|) ==>
                rootCalls == RunAll(Openers(CrackerList(owned)) + [Nuke], old(target.server.hostname))
      ensures !ShouldRoot(old(target.server), |owned|) ==> rootCalls == []
      ensures next == growWeakenFinish + ScriptDelay == durations.weakenTime + 3 * ScriptDelay
      ensures target.server == refreshed && !cluster.isLocked && cluster.nodes == old(cluster.nodes)
      ensures var host := refreshed.hostname;
              var maxMoney := if refreshed.moneyMax.Some? then refreshed.moneyMax.value else 0.0;
              var scripts := BatchScripts(source.server.hostname, host, ThreadsOf(a, host, maxMoney, targetExtract),
                                          Timing(hackDelay, growDelay, growWeakenDelay, growWeakenFinish));
              var r := ScheduleAll(scripts, SortByOrder(Schedulable(old(cluster.nodes))), ram);
              && (r == None ==> effects == [] && present' == present)
              && (r.Some? ==> (effects, present') == DispatchAsWritten(r.value, present))
    {
      var scripts;
      rootCalls, scripts := Plan(owned, refreshed, a);
      assert cluster.nodes == old(cluster.nodes) && !cluster.isLocked;
      var job := new Job("batch-" + refreshed.hostname);
      job.AddScripts(scripts);
      assert job.scripts == scripts;
      effects, present' := cluster.Execute(job, ram, present);
      assert job.scripts == scripts && target.server == refreshed;
      next := growWeakenFinish + ScriptDelay;
    }

    /** The head of `run`: refresh the target, returning the cracker and nuke calls
        `update` made, and size the four scripts. */
    method Plan(owned: set<Program>, refreshed: ServerSnapshot, a: Analysis) returns (rootCalls: seq<Call>, scripts: seq<Script>)
      requires refreshed.hostname == target.server.hostname
      modifies target
      ensures ShouldRoot(old(target.server), |owned|) ==>
                rootCalls == RunAll(Openers(CrackerList(owned)) + [Nuke], old(target.server.hostname))
      ensures !ShouldRoot(old(target.server), |owned|) ==> rootCalls == []
      ensures target.server == refreshed
      ensures var host := refreshed.hostname;
              var maxMoney := if refreshed.moneyMax.Some? then refreshed.moneyMax.value else 0.0;
              scripts == BatchScripts(source.server.hostname, host, ThreadsOf(a, host, maxMoney, targetExtract),
                                      Timing(hackDelay, growDelay, growWeakenDelay, growWeakenFinish))
    {
      rootCalls := target.Update(owned, refreshed);
      var host := target.Hostname();
      var threads := ThreadsOf(a, host, target.MaxMoney(), targetExtract);
      var timing := Timing(hackDelay, growDelay, growWeakenDelay, growWeakenFinish);
      scripts := BatchScripts(source.Hostname(), host, threads, timing);
    }
  }
}
