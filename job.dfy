/** Scripts and jobs of the cluster scheduler (src/lib/cluster/job.ts). */
module ClusterJob {
  import opened Common

  /** A script argument; the batch code passes the target hostname and a start delay. */
  datatype Arg = Str(text: string) | Num(n: int)

  /** A game call made while dispatching: `ns.scp(file, to, from)` or `ns.exec(file, host, threads, ...args)`. */
  datatype Effect =
    | Scp(file: string, to: string, from: string)
    | Exec(file: string, host: string, threads: int, args: seq<Arg>)

  /** The pairs (file, host) such that the file exists on the host (`ns.fileExists`). */
  type Files = set<(string, string)>

  /** Index of the last occurrence of `c` in `s`, or -1 (`String.prototype.lastIndexOf`). */
  function LastIndexOf(s: string, c: char): (k: int)
    ensures -1 <= k < |s|
    ensures k >= 0 ==> s[k] == c
    ensures forall i :: k < i < |s| ==> s[i] != c
  {
    if s == [] then -1
    else if s[|s| - 1] == c then |s| - 1
    else LastIndexOf(s[..|s| - 1], c)
  }

  /** A `Script`. All its fields are readonly, so it is a value; `source` is the
      hostname of the node the file is copied from. */
  datatype Script = Script(source: string, file: string, threads: int, args: seq<Arg>)
  {
    /** `getName`: the longest suffix of the path that holds no '/', that is, the
        part after the last '/', or the whole path when it has none. */
    function GetName(): (name: string)
      ensures '/' !in name
      ensures |name| <= |file| && file[|file| - |name|..] == name
      ensures |name| == |file| || file[|file| - |name| - 1] == '/'
    {
      file[LastIndexOf(file, '/') + 1..]
    }

    /** `assertPresentOn`: copy the file from the source node only when the target
        does not have it; afterwards it is present there. */
    function AssertPresentOn(target: string, present: Files): (r: (seq<Effect>, Files))
      ensures (file, target) in r.1 && present <= r.1
      ensures (file, target) in present ==> r.0 == [] && r.1 == present
      ensures (file, target) !in present ==> r.0 == [Scp(file, target, source)] && r.1 == present + {(file, target)}
    {
      if (file, target) in present then ([], present)
      else ([Scp(file, target, source)], present + {(file, target)})
    }

    /** `exec(target, threads)` as written: the launch uses the script's own thread
        count and the `threads` argument is ignored. */
    function ExecAsWritten(target: string, threads: int, present: Files): (r: (seq<Effect>, Files))
      ensures r.1 == AssertPresentOn(target, present).1
      ensures r.0 == AssertPresentOn(target, present).0 + [Exec(file, target, this.threads, args)]
    {
      var (copies, present') := AssertPresentOn(target, present);
      (copies + [Exec(file, target, this.threads, args)], present')
    }

    /** `exec(target, threads)` launching the thread count it is given. */
    function ExecScheduled(target: string, threads: int, present: Files): (r: (seq<Effect>, Files))
      ensures r.1 == AssertPresentOn(target, present).1
      ensures r.0 == AssertPresentOn(target, present).0 + [Exec(file, target, threads, args)]
    {
      var (copies, present') := AssertPresentOn(target, present);
      (copies + [Exec(file, target, threads, args)], present')
    }
  }

  /** `new Script(ns, log, source, file, threads = 1, ...args)`. */
  function NewScript(source: string, file: string, threads: Option<int>, args: seq<Arg>): (s: Script)
    ensures s.source == source && s.file == file && s.args == args
    ensures threads == None ==> s.threads == 1
    ensures threads.Some? ==> s.threads == threads.value
  {
    Script(source, file, if threads.Some? then threads.value else 1, args)
  }

  /** The thread count that reaches `ns.exec` through `ExecAsWritten`, whatever count
      the caller passes: for a 12-thread script placed as 10 + 2 threads, both
      launches ask for 12. */
  lemma ExecIgnoresThreads()
    ensures var s := Script("home", "/lib/hwgwbatch/scripts/weaken.js", 12, []);
            s.ExecAsWritten("a", 10, {}).0 == [Scp(s.file, "a", "home"), Exec(s.file, "a", 12, [])]
            && s.ExecAsWritten("b", 2, {}).0 == [Scp(s.file, "b", "home"), Exec(s.file, "b", 12, [])]
  {
  }

  /** A job: a name and the scripts added to it, in insertion order. */
  class Job {
    const name: string
    var scripts: seq<Script>
    var executionTime: Option<int>

    constructor (name: string)
      ensures this.name == name && scripts == [] && executionTime == None
    {
      this.name := name;
      scripts := [];
      executionTime := None;
    }

    /** `addScripts(...scripts)`: append the arguments, in order, after the existing scripts. */
    method AddScripts(more: seq<Script>)
      modifies this
      ensures scripts == old(scripts) + more
      ensures executionTime == old(executionTime)
    {
      scripts := scripts + more;
    }

    method GetScripts() returns (s: seq<Script>)
      ensures s == scripts
    {
      s := scripts;
    }

    method SetExecutionTime(time: int)
      modifies this
      ensures executionTime == Some(time)
      ensures scripts == old(scripts)
    {
      executionTime := Some(time);
    }

    /** Undefined (None) until SetExecutionTime, then the time last set. */
    method GetExecutionTime() returns (time: Option<int>)
      ensures time == executionTime
    {
      time := executionTime;
    }
  }
}
