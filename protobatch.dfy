/** The prototype batcher (src/lib/protobatch/manager.ts): one loop iteration
    refreshes the target, picks weaken, grow or hack by priority, clamps the thread
    request to what the netplan can hold, schedules it and waits for the action's
    duration. */
module ProtoBatch {
  import opened Common
  import opened Game
  import opened Crackers
  import opened ClusterJob
  import opened NetplanServer
  import opened Netplan
  import opened BatchTiming

  /** Security removed by one weaken thread. */
  const SecPerThread: real := 0.05

  const ProtoWeakenScript: string := "/lib/protobatch/basicScripts/weaken.js"
  const ProtoGrowScript: string := "/lib/protobatch/basicScripts/grow.js"
  const ProtoHackScript: string := "/lib/protobatch/basicScripts/hack.js"

  datatype Action = Weaken | Grow | Hack

  function ScriptOf(action: Action): string
  {
    match action
    case Weaken => ProtoWeakenScript
    case Grow => ProtoGrowScript
    case Hack => ProtoHackScript
  }

  /** `sleep(getWeakenTime | getGrowTime | getHackTime)`: the wait after an action. */
  function WaitOf(action: Action, d: Durations): int
  {
    match action
    case Weaken => d.weakenTime
    case Grow => d.growTime
    case Hack => d.hackTime
  }

  /** `growthFactor > 1`, where the growth factor is `maximumMoney / currentMoney`:
      under JavaScript division `x / 0` is +Infinity for positive `x` (greater than
      1), and -Infinity or NaN otherwise (not). */
  function GrowthAboveOne(maximumMoney: real, currentMoney: real): bool
  {
    match Quotient(maximumMoney, currentMoney)
    case None => maximumMoney > 0.0
    case Some(g) => g > 1.0
  }

  /** The branch one iteration of `run` takes. */
  function Decide(deltaSecurity: real, maximumMoney: real, currentMoney: real): Action
  {
    if deltaSecurity != 0.0 then Weaken
    else if GrowthAboveOne(maximumMoney, currentMoney) then Grow
    else Hack
  }

  /** The decision as priorities: weaken exactly when security is off its minimum;
      otherwise, on a server whose money is not negative, grow exactly when it holds
      less than its maximum, and hack when it is full. */
  lemma DecidePriority(deltaSecurity: real, maximumMoney: real, currentMoney: real)
    requires currentMoney >= 0.0
    ensures Decide(deltaSecurity, maximumMoney, currentMoney) == Weaken <==> deltaSecurity != 0.0
    ensures (Decide(deltaSecurity, maximumMoney, currentMoney) == Grow)
              <==> (deltaSecurity == 0.0 && currentMoney < maximumMoney)
    ensures (Decide(deltaSecurity, maximumMoney, currentMoney) == Hack)
              <==> (deltaSecurity == 0.0 && maximumMoney <= currentMoney)
  {
    if currentMoney > 0.0 {
      var g := maximumMoney / currentMoney;
      assert g * currentMoney == maximumMoney;
      if g > 1.0 {
        assert g * currentMoney > 1.0 * currentMoney;
      } else {
        assert g * currentMoney <= 1.0 * currentMoney;
      }
    }
  }

  /** The thread count an action asks for before clamping: enough weaken threads to
      remove the security above the minimum, the grow threads the game reports for
      the growth factor (rounded up), and the hack threads it reports for the
      extraction amount (rounded down). */
  function Requested(action: Action, a: Analysis, name: string, deltaSecurity: real,
                     maximumMoney: real, currentMoney: real, extractionFactor: real): int
  {
    match action
    case Weaken => Ceil(deltaSecurity / SecPerThread)
    case Grow => Ceil(a.growthAnalyze(name, Quotient(maximumMoney, currentMoney)))
    case Hack => Floor(a.hackAnalyzeThreads(name, maximumMoney * extractionFactor))
  }

  /** Weaken asks for the fewest threads whose combined effect covers the excess
      security. */
  lemma WeakenRequestCovers(a: Analysis, name: string, deltaSecurity: real,
                            maximumMoney: real, currentMoney: real, extractionFactor: real)
    ensures var t := Requested(Weaken, a, name, deltaSecurity, maximumMoney, currentMoney, extractionFactor);
            t as real * SecPerThread >= deltaSecurity && (t - 1) as real * SecPerThread < deltaSecurity
  {
    var t := Ceil(deltaSecurity / SecPerThread);
    assert t as real - 1.0 < deltaSecurity / SecPerThread <= t as real;
    assert (deltaSecurity / SecPerThread) * SecPerThread == deltaSecurity;
  }

  class ProtoBatcher {
    const target: Server
    const netplan: Netplan
    const extractionFactor: real

    /** `new ProtoBatcher(ns, target, logger, extractionFactor = 0.25, host = "home")`:
        a netplan is built from `host`. */
    constructor (target: Server, w: World, extractionFactor: Option<real>, host: Option<string>,
                 owned: set<Program>, hackingLevel: int)
      requires (if host.Some? then host.value else "home") in w && Closed(w)
      ensures this.target == target && fresh(netplan)
      ensures this.extractionFactor == if extractionFactor.Some? then extractionFactor.value else 0.25
      ensures netplan.Valid(w) && netplan.host.name == (if host.Some? then host.value else "home")
      ensures |netplan.network| >= 1 && netplan.network[0] == netplan.host
      ensures netplan.State() == Walk(CrackerList(owned), w, hackingLevel, netplan.host.name, Probed([], []))
    {
      this.target := target;
      this.extractionFactor := if extractionFactor.Some? then extractionFactor.value else 0.25;
      netplan := new Netplan(w, host, owned, hackingLevel);
    }

    /** `limitThreads`: the request, capped at the thread count `getMaxThreads`
        reports for the script. */
    method LimitThreads(ramCost: Cost, requested: int) returns (threads: int)
      ensures threads == Min(requested, MaxThreadsOf(SchedulableOf(netplan.network), ramCost))
    {
      var maxThreads := netplan.GetMaxThreads(ramCost);
      if requested > maxThreads {
        return maxThreads;
      }
      return requested;
    }

    /** The head of one iteration of `run`: refresh the target from the game, then
        pick the action and the thread count it asks for. */
    method Observe(w: World, a: Analysis) returns (action: Action, requested: int)
      requires target.name in w
      modifies target
      ensures target.Current(w)
      ensures var h := w[target.name];
              var delta := h.security - target.minimumSecurity;
              && action == Decide(delta, target.maximumMoney, h.money)
              && requested == Requested(action, a, target.name, delta, target.maximumMoney, h.money, extractionFactor)
    {
      target.Update(w);
      var delta := target.currentSecurity - target.minimumSecurity;
      action := Decide(delta, target.maximumMoney, target.currentMoney);
      requested := Requested(action, a, target.name, delta, target.maximumMoney, target.currentMoney,
                             extractionFactor);
    }

    /** The iteration up to scheduling: refresh the target, decide, and clamp the
        request. The netplan's servers are not touched. */
    method Prepare(w: World, a: Analysis, scriptRam: string -> Cost) returns (action: Action, threads: int)
      requires target.name in w && target !in netplan.network
      modifies target
      ensures target.Current(w)
      ensures var h := w[target.name];
              var delta := h.security - target.minimumSecurity;
              && action == Decide(delta, target.maximumMoney, h.money)
              && threads == Min(Requested(action, a, target.name, delta, target.maximumMoney, h.money, extractionFactor),
                                old(MaxThreadsOf(SchedulableOf(netplan.network), scriptRam(ScriptOf(action)))))
      ensures SchedulableOf(netplan.network) == old(SchedulableOf(netplan.network))
    {
      ghost var network := netplan.network;
      ghost var cs := SchedulableOf(network);
      var requested;
      action, requested := Observe(w, a);
      var cost := scriptRam(ScriptOf(action));
      assert SchedulableOf(network) == cs;
      assert MaxThreadsOf(cs, cost) == old(MaxThreadsOf(cs, cost));
      threads := LimitThreads(cost, requested);
    }

    /** One iteration of `run`: refresh the target, decide, clamp the request,
        schedule it on the netplan, and report the wait that follows. */
    method Step(w: World, d: Durations, a: Analysis, scriptRam: string -> Cost, self: string)
      returns (action: Action, threads: int, outcome: Outcome, wait: int)
      requires target.name in w && netplan.Valid(w) && target !in netplan.network
      modifies target, set s | s in netplan.network
      ensures target.Current(w)
      ensures var h := w[target.name];
              var delta := h.security - target.minimumSecurity;
              && action == Decide(delta, target.maximumMoney, h.money)
              && threads == Min(Requested(action, a, target.name, delta, target.maximumMoney, h.money, extractionFactor),
                                old(MaxThreadsOf(SchedulableOf(netplan.network), scriptRam(ScriptOf(action)))))
      ensures var cs := old(SchedulableOf(netplan.network));
              var cost := scriptRam(ScriptOf(action));
              var p := NetPlace(cs, threads, cost, w);
              outcome == if NetLeft(cs, threads, cost, w) > 0 then Exited
                         else Scheduled(p, Launch(p, ScriptOf(action), [Str(target.name)], self))
      // the servers `schedule` visited now match the game; every other server
      // keeps the fields `getMaxThreads` reads on the next iteration
      ensures var cs := old(SchedulableOf(netplan.network));
              var r := NetReached(cs, threads, scriptRam(ScriptOf(action)), w);
              && r <= |cs|
              && (forall i :: 0 <= i < r ==> cs[i].Current(w))
              && (forall s :: s in netplan.network && s !in cs[..r] ==> unchanged(s))
      ensures wait == WaitOf(action, d)
    {
      action, threads := Prepare(w, a, scriptRam);
      var script := ScriptOf(action);
      outcome := netplan.Schedule(script, threads, [Str(target.name)], scriptRam(script), w, self);
      wait := WaitOf(action, d);
    }
  }
}
