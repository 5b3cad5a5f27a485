/**
 * The two scaffold pipelines, `create_project` (blocking, returns a result)
 * and `create_project_async` (streaming, reports through events), over an
 * abstract world: a map from file paths to contents, the processes spawned so
 * far, the events emitted so far, and an oracle that gives the i-th spawned
 * process its exit.
 */
module Pipeline {
  import opened Wrappers
  import opened Seqs
  import opened Text
  import opened Registry
  import opened TargetDir
  import opened Features
  import opened Generator
  import opened Patcher

  /** How a spawned process ends: it could not be started, or it exited with captured output. */
  datatype Exit = SpawnError(reason: string) | Exited(success: bool, stdout: string, stderr: string)

  predicate Succeeded(e: Exit)
  {
    e.Exited? && e.success
  }

  /** Every process numbered from `from` up to but excluding `to` succeeds. */
  predicate AllSucceed(outcome: nat -> Exit, from: nat, to: nat)
    decreases (to as int) - (from as int)
  {
    from >= to || (Succeeded(outcome(from)) && AllSucceed(outcome, from + 1, to))
  }

  /** The range reading of `AllSucceed`: every process in the range succeeds. */
  lemma {:induction false} AllSucceedMeans(outcome: nat -> Exit, from: nat, to: nat)
    ensures AllSucceed(outcome, from, to) <==> (forall k: nat :: from <= k < to ==> Succeeded(outcome(k)))
    decreases (to as int) - (from as int)
  {
    if from < to {
      AllSucceedMeans(outcome, from + 1, to);
    }
  }

  /** A range of successes splits at any point between its ends. */
  lemma {:induction false} AllSucceedSplit(outcome: nat -> Exit, from: nat, mid: nat, to: nat)
    requires from <= mid <= to
    ensures AllSucceed(outcome, from, to) <==> AllSucceed(outcome, from, mid) && AllSucceed(outcome, mid, to)
    decreases (mid as int) - (from as int)
  {
    if from < mid {
      AllSucceedSplit(outcome, from + 1, mid, to);
    }
  }

  /** A `pnpm` process: working directory, arguments, and whether `CI=true` is set. */
  datatype Proc = Proc(cwd: string, args: seq<string>, ciEnv: bool)

  /** A `project:create_log` line or the `project:create_done` notification. */
  datatype Event = Log(line: string) | Done(success: bool, error: Option<string>)

  const CreationFailed := "project creation failed"
  const AddFailedPrefix := "failed to add dependency: "
  const InstalledPrefix := "installed dependency: "
  const DevMarker := "(dev) "

  // -------------------------------------------------------------------
  // The `add` closure and the passes over the registry

  /** What a run of `add` calls leaves behind: the processes, the log lines and the outcome. */
  datatype Trace = Trace(procs: seq<Proc>, logs: seq<Event>, result: Result<Unit, string>)

  /** The process that adds one package. */
  function AddProc(projectDir: string, dev: bool, pkg: string): Proc
  {
    Proc(projectDir, AddArgs(dev, pkg), false)
  }

  /** One `add` process per package, in order. */
  function PkgProcs(projectDir: string, dev: bool, pkgs: seq<string>): seq<Proc>
  {
    seq(|pkgs|, i requires 0 <= i < |pkgs| => AddProc(projectDir, dev, pkgs[i]))
  }

  /** The error of a failed `add`: the spawn error text, or the name of the package that failed. */
  function AddError(e: Exit, pkg: string): string
  {
    match e
    case SpawnError(reason) => reason
    case Exited(_, _, _) => AddFailedPrefix + pkg
  }

  /** The streaming pipeline's line after each successful `add`. */
  function InstalledLine(dev: bool, pkg: string): string
  {
    InstalledPrefix + (if dev then DevMarker else "") + pkg
  }

  /** The streaming pipeline's lines for a run of successful `add` processes. */
  function InstalledLines(dev: bool, pkgs: seq<string>): seq<Event>
  {
    seq(|pkgs|, i requires 0 <= i < |pkgs| => Log(InstalledLine(dev, pkgs[i])))
  }

  /** What one `add` process leaves behind, given its exit. */
  function AddOne(e: Exit, projectDir: string, dev: bool, pkg: string, logging: bool): (t: Trace)
    ensures t.procs == [AddProc(projectDir, dev, pkg)]
    ensures t.result.Ok? <==> Succeeded(e)
    ensures t.result.Ok? ==> t.logs == if logging then [Log(InstalledLine(dev, pkg))] else []
    ensures t.result.Err? ==> t.logs == [] && t.result.error == AddError(e, pkg)
    ensures !logging ==> t.logs == []
  {
    if Succeeded(e) then Trace([AddProc(projectDir, dev, pkg)], if logging then [Log(InstalledLine(dev, pkg))] else [], Ok(Unit))
    else Trace([AddProc(projectDir, dev, pkg)], [], Err(AddError(e, pkg)))
  }

  /**
   * The `add` closure: one `pnpm add` per package, in order, in the project
   * directory, `-D` exactly for development dependencies; it stops at the
   * first process that cannot be spawned or fails, whose error it returns.
   * The i-th process spawned gets the exit `outcome(start + i)`; with
   * logging, each success is reported in order.
   */
  function AddTrace(outcome: nat -> Exit, projectDir: string, start: nat, dev: bool, pkgs: seq<string>, logging: bool): (t: Trace)
    ensures t.result.Ok? <==> AllSucceed(outcome, start, start + |pkgs|)
    ensures t.result.Ok? ==> |t.procs| == |pkgs|
    ensures t.result.Err? ==> 0 < |t.procs| <= |pkgs|
    decreases |pkgs|
  {
    if pkgs == [] then Trace([], [], Ok(Unit))
    else Then(AddOne(outcome(start), projectDir, dev, pkgs[0], logging),
              AddTrace(outcome, projectDir, start + 1, dev, pkgs[1..], logging), true)
  }

  /** The processes and lines for a list of packages start with those of its head. */
  lemma PkgProcsCons(projectDir: string, dev: bool, pkgs: seq<string>)
    requires pkgs != []
    ensures PkgProcs(projectDir, dev, pkgs) == [AddProc(projectDir, dev, pkgs[0])] + PkgProcs(projectDir, dev, pkgs[1..])
    ensures InstalledLines(dev, pkgs) == [Log(InstalledLine(dev, pkgs[0]))] + InstalledLines(dev, pkgs[1..])
  {
    assert PkgProcs(projectDir, dev, pkgs) == [AddProc(projectDir, dev, pkgs[0])] + PkgProcs(projectDir, dev, pkgs[1..]);
    assert InstalledLines(dev, pkgs) == [Log(InstalledLine(dev, pkgs[0]))] + InstalledLines(dev, pkgs[1..]);
  }

  /**
   * The `add` processes run in package order, and with logging each success
   * is reported in that order: a failed process is spawned but not reported.
   */
  lemma {:induction false} AddTraceRuns(outcome: nat -> Exit, projectDir: string, start: nat, dev: bool,
                                        pkgs: seq<string>, logging: bool)
    ensures var t := AddTrace(outcome, projectDir, start, dev, pkgs, logging);
      && t.procs == PkgProcs(projectDir, dev, pkgs)[..|t.procs|]
      && (!logging ==> t.logs == [])
      && (logging ==> t.logs == InstalledLines(dev, pkgs)[..if t.result.Ok? then |t.procs| else |t.procs| - 1])
    decreases |pkgs|
  {
    if pkgs != [] {
      var next := start + 1;
      var one := AddOne(outcome(start), projectDir, dev, pkgs[0], logging);
      var rest := AddTrace(outcome, projectDir, next, dev, pkgs[1..], logging);
      var t := AddTrace(outcome, projectDir, start, dev, pkgs, logging);
      assert t == Then(one, rest, true);
      PkgProcsCons(projectDir, dev, pkgs);
      if one.result.Ok? {
        AddTraceRuns(outcome, projectDir, next, dev, pkgs[1..], logging);
        PrefixCons(PkgProcs(projectDir, dev, pkgs), |rest.procs|);
        var m := if rest.result.Ok? then |rest.procs| else |rest.procs| - 1;
        PrefixCons(InstalledLines(dev, pkgs), m);
        assert t.logs == one.logs + rest.logs;
      } else {
        assert t == one && InstalledLines(dev, pkgs)[..0] == [];
      }
    }
  }

  /**
   * A failed `add` call ran its packages up to and including the one whose
   * process failed, every earlier one succeeded, and the error names the
   * failure: the spawn error, or the package the failed process was adding.
   */
  lemma AddTraceFailure(outcome: nat -> Exit, projectDir: string, start: nat, dev: bool,
                        pkgs: seq<string>, logging: bool)
    requires AddTrace(outcome, projectDir, start, dev, pkgs, logging).result.Err?
    ensures var t := AddTrace(outcome, projectDir, start, dev, pkgs, logging);
      var last := start + |t.procs| - 1;
      var failed := t.procs[|t.procs| - 1];
      && AllSucceed(outcome, start, last)
      && !Succeeded(outcome(last))
      && failed == AddProc(projectDir, dev, pkgs[|t.procs| - 1])
      && t.result.error == AddError(outcome(last), pkgs[|t.procs| - 1])
  {
    var t := AddTrace(outcome, projectDir, start, dev, pkgs, logging);
    AddTraceFailedAt(outcome, projectDir, start, dev, pkgs, logging);
    AddTraceRuns(outcome, projectDir, start, dev, pkgs, logging);
    var k := |t.procs| - 1;
    assert t.procs[k] == PkgProcs(projectDir, dev, pkgs)[..|t.procs|][k];
  }

  /** The induction behind `AddTraceFailure`: where the failure is, and what it reports. */
  lemma {:induction false} AddTraceFailedAt(outcome: nat -> Exit, projectDir: string, start: nat, dev: bool,
                                            pkgs: seq<string>, logging: bool)
    requires AddTrace(outcome, projectDir, start, dev, pkgs, logging).result.Err?
    ensures var t := AddTrace(outcome, projectDir, start, dev, pkgs, logging);
      var last := start + |t.procs| - 1;
      && AllSucceed(outcome, start, last)
      && !Succeeded(outcome(last))
      && t.result.error == AddError(outcome(last), pkgs[|t.procs| - 1])
    decreases |pkgs|
  {
    var next := start + 1;
    var one := AddOne(outcome(start), projectDir, dev, pkgs[0], logging);
    var rest := AddTrace(outcome, projectDir, next, dev, pkgs[1..], logging);
    var t := AddTrace(outcome, projectDir, start, dev, pkgs, logging);
    assert t == Then(one, rest, true);
    if one.result.Ok? {
      AddTraceFailedAt(outcome, projectDir, next, dev, pkgs[1..], logging);
    }
    AddFailureStep(outcome, start, pkgs, next, one, rest, t);
  }

  /** One step of `AddTraceFailedAt`: from the head's outcome and the tail's failure to the whole call's. */
  lemma AddFailureStep(outcome: nat -> Exit, start: nat, pkgs: seq<string>, next: nat, one: Trace, rest: Trace, t: Trace)
    requires pkgs != [] && t == Then(one, rest, true) && t.result.Err? && next == start + 1
    requires |one.procs| == 1
    requires one.result.Ok? <==> Succeeded(outcome(start))
    requires one.result.Err? ==> one.result.error == AddError(outcome(start), pkgs[0])
    requires one.result.Ok? ==> rest.result.Err? && 0 < |rest.procs| <= |pkgs[1..]|
    requires one.result.Ok? ==>
      var last := next + |rest.procs| - 1;
      && AllSucceed(outcome, next, last)
      && !Succeeded(outcome(last))
      && rest.result.error == AddError(outcome(last), pkgs[1..][|rest.procs| - 1])
    ensures 0 < |t.procs| <= |pkgs|
    ensures var last := start + |t.procs| - 1;
      && AllSucceed(outcome, start, last)
      && !Succeeded(outcome(last))
      && t.result.error == AddError(outcome(last), pkgs[|t.procs| - 1])
  {
    if one.result.Ok? {
      assert t.procs == one.procs + rest.procs;
    }
  }

  lemma PkgProcsSnoc(projectDir: string, dev: bool, pkgs: seq<string>, i: nat)
    requires i < |pkgs|
    ensures PkgProcs(projectDir, dev, pkgs[..i + 1]) == PkgProcs(projectDir, dev, pkgs[..i]) + [AddProc(projectDir, dev, pkgs[i])]
  {
  }

  lemma InstalledLinesSnoc(dev: bool, pkgs: seq<string>, i: nat)
    requires i < |pkgs|
    ensures InstalledLines(dev, pkgs[..i + 1]) == InstalledLines(dev, pkgs[..i]) + [Log(InstalledLine(dev, pkgs[i]))]
  {
  }

  /** An `add` call whose processes all succeed runs and reports every package, in order. */
  lemma AddTraceAllOk(outcome: nat -> Exit, projectDir: string, start: nat, dev: bool, pkgs: seq<string>, logging: bool)
    requires AllSucceed(outcome, start, start + |pkgs|)
    ensures var t := AddTrace(outcome, projectDir, start, dev, pkgs, logging);
      && t.result == Ok(Unit)
      && t.procs == PkgProcs(projectDir, dev, pkgs)
      && t.logs == if logging then InstalledLines(dev, pkgs) else []
  {
    var t := AddTrace(outcome, projectDir, start, dev, pkgs, logging);
    AddTraceRuns(outcome, projectDir, start, dev, pkgs, logging);
    assert t.result.value == Unit;
  }

  /**
   * An `add` call whose first `i` processes succeed and whose next one does
   * not stops there: it ran the first `i + 1` packages, reported the first
   * `i`, and returns the error of the failed one.
   */
  lemma {:induction false} AddTraceStopsAt(outcome: nat -> Exit, projectDir: string, start: nat, dev: bool, pkgs: seq<string>,
                                           logging: bool, i: nat)
    requires i < |pkgs| && AllSucceed(outcome, start, start + i) && !Succeeded(outcome(start + i))
    ensures var t := AddTrace(outcome, projectDir, start, dev, pkgs, logging);
      && t.procs == PkgProcs(projectDir, dev, pkgs[..i + 1])
      && t.logs == (if logging then InstalledLines(dev, pkgs[..i]) else [])
      && t.result == Err(AddError(outcome(start + i), pkgs[i]))
    decreases i
  {
    var next := start + 1;
    var one := AddOne(outcome(start), projectDir, dev, pkgs[0], logging);
    var rest := AddTrace(outcome, projectDir, next, dev, pkgs[1..], logging);
    assert AddTrace(outcome, projectDir, start, dev, pkgs, logging) == Then(one, rest, true);
    if i == 0 {
      assert pkgs[..1] == [pkgs[0]];
    } else {
      assert Succeeded(outcome(start));
      var j := i - 1;
      AddTraceStopsAt(outcome, projectDir, next, dev, pkgs[1..], logging, j);
      TailOfPrefix(pkgs, i + 1);
      TailOfPrefix(pkgs, i);
      PkgProcsCons(projectDir, dev, pkgs[..i + 1]);
      PkgProcsCons(projectDir, dev, pkgs[..i]);
    }
  }

  /** The number of packages over all jobs. */
  function Total(jobs: seq<AddJob>): nat
  {
    if jobs == [] then 0 else |jobs[0].pkgs| + Total(jobs[1..])
  }

  lemma TotalUnfold(jobs: seq<AddJob>)
    requires jobs != []
    ensures Total(jobs) == |jobs[0].pkgs| + Total(jobs[1..])
  {
  }

  /** Every package of every job, as the `add` process that installs it. */
  function AddProcs(projectDir: string, jobs: seq<AddJob>): (ps: seq<Proc>)
    ensures |ps| == Total(jobs)
  {
    if jobs == [] then []
    else
      var job := jobs[0];
      PkgProcs(projectDir, job.dev, job.pkgs) + AddProcs(projectDir, jobs[1..])
  }

  lemma AddProcsStep(projectDir: string, jobs: seq<AddJob>)
    requires jobs != []
    ensures AddProcs(projectDir, jobs) == PkgProcs(projectDir, jobs[0].dev, jobs[0].pkgs) + AddProcs(projectDir, jobs[1..])
  {
  }

  /**
   * A pass over the jobs, one `add` call each. With `stopOnError` (the
   * blocking first pass) the first failed call ends the pass with its error;
   * without it (the streaming first pass, the custom-key pass) a failed call
   * is dropped and the pass moves on to the next job.
   */
  function PassTrace(outcome: nat -> Exit, projectDir: string, start: nat, jobs: seq<AddJob>,
                     stopOnError: bool, logging: bool): (t: Trace)
    ensures !stopOnError ==> t.result.Ok?
    decreases |jobs|
  {
    if jobs == [] then Trace([], [], Ok(Unit))
    else
      var first := AddTrace(outcome, projectDir, start, jobs[0].dev, jobs[0].pkgs, logging);
      Then(first, PassTrace(outcome, projectDir, start + |first.procs|, jobs[1..], stopOnError, logging), stopOnError)
  }

  /** Without logging, `add` calls report nothing. */
  lemma {:induction false} QuietAdd(outcome: nat -> Exit, projectDir: string, start: nat, dev: bool, pkgs: seq<string>)
    ensures AddTrace(outcome, projectDir, start, dev, pkgs, false).logs == []
    decreases |pkgs|
  {
    if pkgs != [] {
      var one := AddOne(outcome(start), projectDir, dev, pkgs[0], false);
      var rest := AddTrace(outcome, projectDir, start + 1, dev, pkgs[1..], false);
      assert AddTrace(outcome, projectDir, start, dev, pkgs, false) == Then(one, rest, true);
      QuietAdd(outcome, projectDir, start + 1, dev, pkgs[1..]);
      QuietThen(one, rest, AddTrace(outcome, projectDir, start, dev, pkgs, false), true);
    }
  }

  /** Two silent traces make a silent trace. */
  lemma QuietThen(first: Trace, rest: Trace, t: Trace, stopOnError: bool)
    requires t == Then(first, rest, stopOnError)
    requires first.logs == []
    requires rest.logs == []
    ensures t.logs == []
  {
    assert first.logs + rest.logs == [];
  }

  /** Without logging, a pass reports nothing. */
  lemma {:induction false} QuietPass(outcome: nat -> Exit, projectDir: string, start: nat, jobs: seq<AddJob>, stopOnError: bool)
    ensures PassTrace(outcome, projectDir, start, jobs, stopOnError, false).logs == []
    decreases |jobs|
  {
    if jobs != [] {
      var first := AddTrace(outcome, projectDir, start, jobs[0].dev, jobs[0].pkgs, false);
      var m := start + |first.procs|;
      var rest := PassTrace(outcome, projectDir, m, jobs[1..], stopOnError, false);
      var t := PassTrace(outcome, projectDir, start, jobs, stopOnError, false);
      PassTraceStep(outcome, projectDir, start, jobs, stopOnError, false, first, m, rest, t);
      QuietAdd(outcome, projectDir, start, jobs[0].dev, jobs[0].pkgs);
      QuietPass(outcome, projectDir, m, jobs[1..], stopOnError);
      QuietThen(first, rest, t, stopOnError);
    }
  }

  /** One `add` call followed by the rest of a pass: a failed call ends a stopping pass. */
  function Then(first: Trace, rest: Trace, stopOnError: bool): Trace
  {
    if first.result.Err? && stopOnError then first
    else Trace(first.procs + rest.procs, first.logs + rest.logs, rest.result)
  }

  /** `p` is a `pnpm add` in the project directory, without `CI`. */
  predicate IsAddIn(projectDir: string, p: Proc)
  {
    p.cwd == projectDir && !p.ciEnv && |p.args| >= 2 && p.args[0] == "add"
  }

  /** Every process in `ps` is a `pnpm add` in the project directory, without `CI`. */
  predicate AllAddsIn(projectDir: string, ps: seq<Proc>)
  {
    forall i :: 0 <= i < |ps| ==> IsAddIn(projectDir, ps[i])
  }

  lemma AllAddsInConcat(projectDir: string, ps: seq<Proc>, qs: seq<Proc>)
    requires AllAddsIn(projectDir, ps) && AllAddsIn(projectDir, qs)
    ensures AllAddsIn(projectDir, ps + qs)
  {
    forall i | 0 <= i < |ps + qs| ensures IsAddIn(projectDir, (ps + qs)[i]) {
      if i >= |ps| {
        assert (ps + qs)[i] == qs[i - |ps|];
      }
    }
  }

  lemma AddTraceOnlyAdds(outcome: nat -> Exit, projectDir: string, start: nat, dev: bool, pkgs: seq<string>, logging: bool)
    ensures AllAddsIn(projectDir, AddTrace(outcome, projectDir, start, dev, pkgs, logging).procs)
  {
    var t := AddTrace(outcome, projectDir, start, dev, pkgs, logging);
    AddTraceRuns(outcome, projectDir, start, dev, pkgs, logging);
    forall i | 0 <= i < |t.procs| ensures IsAddIn(projectDir, t.procs[i]) {
      assert t.procs[i] == PkgProcs(projectDir, dev, pkgs)[i];
    }
  }

  /** One step of a pass keeps every process a `pnpm add`. */
  lemma AddsStep(projectDir: string, stopOnError: bool, first: Trace, rest: Trace, t: Trace)
    requires AllAddsIn(projectDir, first.procs) && AllAddsIn(projectDir, rest.procs)
    requires t.procs == if first.result.Err? && stopOnError then first.procs else first.procs + rest.procs
    ensures AllAddsIn(projectDir, t.procs)
  {
    if !(first.result.Err? && stopOnError) {
      AllAddsInConcat(projectDir, first.procs, rest.procs);
    }
  }

  /** Every process of a pass is a `pnpm add` in the project directory, without `CI`. */
  lemma {:induction false} PassRunsOnlyAdds(outcome: nat -> Exit, projectDir: string, start: nat, jobs: seq<AddJob>,
                                            stopOnError: bool, logging: bool)
    ensures AllAddsIn(projectDir, PassTrace(outcome, projectDir, start, jobs, stopOnError, logging).procs)
    decreases |jobs|
  {
    if jobs != [] {
      var first := AddTrace(outcome, projectDir, start, jobs[0].dev, jobs[0].pkgs, logging);
      var m := start + |first.procs|;
      var rest := PassTrace(outcome, projectDir, m, jobs[1..], stopOnError, logging);
      var t := PassTrace(outcome, projectDir, start, jobs, stopOnError, logging);
      assert t.procs == if first.result.Err? && stopOnError then first.procs else first.procs + rest.procs by {
        PassTraceStep(outcome, projectDir, start, jobs, stopOnError, logging, first, m, rest, t);
      }
      assert AllAddsIn(projectDir, first.procs) by {
        AddTraceOnlyAdds(outcome, projectDir, start, jobs[0].dev, jobs[0].pkgs, logging);
      }
      assert AllAddsIn(projectDir, rest.procs) by {
        PassRunsOnlyAdds(outcome, projectDir, m, jobs[1..], stopOnError, logging);
      }
      AddsStep(projectDir, stopOnError, first, rest, t);
    }
  }

  /** The `i`-th job of a pass, with its `add` call and the pass over the jobs after it named. */
  lemma PassTraceAt(outcome: nat -> Exit, projectDir: string, jobs: seq<AddJob>, stopOnError: bool, logging: bool,
                    i: nat, here: nat, first: Trace, mid: nat, rest: Trace, next: Trace)
    requires i < |jobs|
    requires rest == PassTrace(outcome, projectDir, here, jobs[i..], stopOnError, logging)
    requires first == AddTrace(outcome, projectDir, here, jobs[i].dev, jobs[i].pkgs, logging)
    requires mid == here + |first.procs|
    requires next == PassTrace(outcome, projectDir, mid, jobs[i + 1..], stopOnError, logging)
    ensures rest == Then(first, next, stopOnError)
  {
    assert jobs[i..][0] == jobs[i] && jobs[i..][1..] == jobs[i + 1..];
  }

  /**
   * One job of a pass, as a loop over the jobs sees it: with `done` and
   * `said` already behind, the job either ends the pass or leaves the pass
   * over the jobs after it.
   */
  lemma PassJobStep(outcome: nat -> Exit, projectDir: string, jobs: seq<AddJob>, stopOnError: bool, logging: bool,
                    i: nat, here: nat, first: Trace, mid: nat, rest: Trace, next: Trace,
                    whole: Trace, done: seq<Proc>, said: seq<Event>)
    requires i < |jobs|
    requires rest == PassTrace(outcome, projectDir, here, jobs[i..], stopOnError, logging)
    requires first == AddTrace(outcome, projectDir, here, jobs[i].dev, jobs[i].pkgs, logging)
    requires mid == here + |first.procs|
    requires next == PassTrace(outcome, projectDir, mid, jobs[i + 1..], stopOnError, logging)
    requires whole.procs == done + rest.procs && whole.logs == said + rest.logs && whole.result == rest.result
    ensures first.result.Err? && stopOnError ==>
      whole.procs == done + first.procs && whole.logs == said + first.logs && whole.result == first.result
    ensures !(first.result.Err? && stopOnError) ==>
      && whole.procs == (done + first.procs) + next.procs
      && whole.logs == (said + first.logs) + next.logs
      && whole.result == next.result
  {
    PassTraceAt(outcome, projectDir, jobs, stopOnError, logging, i, here, first, mid, rest, next);
    if first.result.Err? && stopOnError {
      StopGlue(done, said, whole, first, next, rest, stopOnError);
    } else {
      ThenGlue(done, said, whole, first, next, rest, stopOnError);
    }
  }

  /** What remains of a pass after a job that does not end it is the pass over the jobs after that one. */
  lemma ThenGlue(done: seq<Proc>, said: seq<Event>, whole: Trace, first: Trace, rest: Trace, t: Trace, stopOnError: bool)
    requires t == Then(first, rest, stopOnError) && !(first.result.Err? && stopOnError)
    requires whole.procs == done + t.procs && whole.logs == said + t.logs && whole.result == t.result
    ensures whole.procs == (done + first.procs) + rest.procs
    ensures whole.logs == (said + first.logs) + rest.logs
    ensures whole.result == rest.result
  {
  }

  /** A pass that stops at a failed job ends with that job. */
  lemma StopGlue(done: seq<Proc>, said: seq<Event>, whole: Trace, first: Trace, rest: Trace, t: Trace, stopOnError: bool)
    requires t == Then(first, rest, stopOnError) && first.result.Err? && stopOnError
    requires whole.procs == done + t.procs && whole.logs == said + t.logs && whole.result == t.result
    ensures whole.procs == done + first.procs && whole.logs == said + first.logs && whole.result == first.result
  {
  }

  /**
   * A pass that does not stop on errors tries every job: it spawns at least
   * one process per job, since no job is empty.
   */
  lemma {:induction false} EveryJobTried(outcome: nat -> Exit, projectDir: string, start: nat, jobs: seq<AddJob>, logging: bool)
    requires forall j :: 0 <= j < |jobs| ==> jobs[j].pkgs != []
    ensures |PassTrace(outcome, projectDir, start, jobs, false, logging).procs| >= |jobs|
    decreases |jobs|
  {
    if jobs != [] {
      var n := |AddTrace(outcome, projectDir, start, jobs[0].dev, jobs[0].pkgs, logging).procs|;
      assert jobs[0].pkgs != [];
      NonStoppingLength(outcome, projectDir, start, jobs, logging);
      NonEmptyTail(jobs);
      var m := start + n;
      EveryJobTried(outcome, projectDir, m, jobs[1..], logging);
    }
  }

  /**
   * A pass that does not stop on errors starts every job: the `add` of each
   * job's first package is among its processes, whatever became of the jobs
   * before it.
   */
  lemma {:induction false} EveryJobStarted(outcome: nat -> Exit, projectDir: string, start: nat, jobs: seq<AddJob>, logging: bool)
    requires forall j :: 0 <= j < |jobs| ==> jobs[j].pkgs != []
    ensures var t := PassTrace(outcome, projectDir, start, jobs, false, logging);
      forall j :: 0 <= j < |jobs| ==> AddProc(projectDir, jobs[j].dev, jobs[j].pkgs[0]) in t.procs
    decreases |jobs|
  {
    if jobs != [] {
      var first := AddTrace(outcome, projectDir, start, jobs[0].dev, jobs[0].pkgs, logging);
      var m := start + |first.procs|;
      var rest := PassTrace(outcome, projectDir, m, jobs[1..], false, logging);
      var t := PassTrace(outcome, projectDir, start, jobs, false, logging);
      PassTraceStep(outcome, projectDir, start, jobs, false, logging, first, m, rest, t);
      assert t.procs == first.procs + rest.procs;
      AddStartsWithHead(outcome, projectDir, start, jobs[0].dev, jobs[0].pkgs, logging);
      NonEmptyTail(jobs);
      EveryJobStarted(outcome, projectDir, m, jobs[1..], logging);
      forall j | 0 <= j < |jobs|
        ensures AddProc(projectDir, jobs[j].dev, jobs[j].pkgs[0]) in t.procs
      {
        if j == 0 {
          assert t.procs[0] == first.procs[0];
        } else {
          assert jobs[1..][j - 1] == jobs[j];
        }
      }
    }
  }

  /** An `add` call over at least one package spawns the `add` of its first package first. */
  lemma AddStartsWithHead(outcome: nat -> Exit, projectDir: string, start: nat, dev: bool, pkgs: seq<string>, logging: bool)
    requires pkgs != []
    ensures var t := AddTrace(outcome, projectDir, start, dev, pkgs, logging);
      |t.procs| >= 1 && t.procs[0] == AddProc(projectDir, dev, pkgs[0])
  {
    var one := AddOne(outcome(start), projectDir, dev, pkgs[0], logging);
    var rest := AddTrace(outcome, projectDir, start + 1, dev, pkgs[1..], logging);
    assert AddTrace(outcome, projectDir, start, dev, pkgs, logging) == Then(one, rest, true);
  }

  /** The jobs after the first of a list without empty jobs have none either. */
  lemma NonEmptyTail(jobs: seq<AddJob>)
    requires jobs != [] && forall j :: 0 <= j < |jobs| ==> jobs[j].pkgs != []
    ensures forall j :: 0 <= j < |jobs[1..]| ==> jobs[1..][j].pkgs != []
  {
    forall j | 0 <= j < |jobs[1..]| ensures jobs[1..][j].pkgs != [] {
      assert jobs[1..][j] == jobs[j + 1];
    }
  }

  /** A pass that does not stop spawns the first job's processes and then those of the rest. */
  lemma NonStoppingLength(outcome: nat -> Exit, projectDir: string, start: nat, jobs: seq<AddJob>, logging: bool)
    requires jobs != []
    ensures var first := AddTrace(outcome, projectDir, start, jobs[0].dev, jobs[0].pkgs, logging);
      && (jobs[0].pkgs != [] ==> |first.procs| >= 1)
      && |PassTrace(outcome, projectDir, start, jobs, false, logging).procs|
         == |first.procs| + |PassTrace(outcome, projectDir, start + |first.procs|, jobs[1..], false, logging).procs|
  {
    var first := AddTrace(outcome, projectDir, start, jobs[0].dev, jobs[0].pkgs, logging);
    var m := start + |first.procs|;
    var rest := PassTrace(outcome, projectDir, m, jobs[1..], false, logging);
    PassTraceStep(outcome, projectDir, start, jobs, false, logging, first, m, rest,
                  PassTrace(outcome, projectDir, start, jobs, false, logging));
  }

  /** One job of a pass, with the first job's `add` call and the rest of the pass named. */
  lemma PassTraceStep(outcome: nat -> Exit, projectDir: string, start: nat, jobs: seq<AddJob>,
                      stopOnError: bool, logging: bool, first: Trace, m: nat, rest: Trace, t: Trace)
    requires jobs != []
    requires first == AddTrace(outcome, projectDir, start, jobs[0].dev, jobs[0].pkgs, logging)
    requires m == start + |first.procs|
    requires rest == PassTrace(outcome, projectDir, m, jobs[1..], stopOnError, logging)
    requires t == PassTrace(outcome, projectDir, start, jobs, stopOnError, logging)
    ensures t == Then(first, rest, stopOnError)
  {
  }

  /**
   * A stopping pass succeeds exactly when every one of its `add` processes
   * succeeds, and then it has run exactly one process per package, in order.
   */
  lemma StoppingPassOk(outcome: nat -> Exit, projectDir: string, start: nat, jobs: seq<AddJob>, logging: bool)
    ensures var t := PassTrace(outcome, projectDir, start, jobs, true, logging);
      && (t.result.Ok? <==> AllSucceed(outcome, start, start + Total(jobs)))
      && (t.result.Ok? ==> t.procs == AddProcs(projectDir, jobs))
  {
    if PassTrace(outcome, projectDir, start, jobs, true, logging).result.Ok? {
      StoppingOkAllSucceed(outcome, projectDir, start, jobs, logging);
    }
    if AllSucceed(outcome, start, start + Total(jobs)) {
      AllAddsOk(outcome, projectDir, start, jobs, true, logging);
      AllAddsProcs(outcome, projectDir, start, jobs, true, logging);
    }
  }

  /** A stopping pass that succeeds saw every one of its `add` processes succeed. */
  lemma {:induction false} StoppingOkAllSucceed(outcome: nat -> Exit, projectDir: string, start: nat, jobs: seq<AddJob>, logging: bool)
    requires PassTrace(outcome, projectDir, start, jobs, true, logging).result.Ok?
    ensures AllSucceed(outcome, start, start + Total(jobs))
    decreases |jobs|
  {
    if jobs != [] {
      var first := AddTrace(outcome, projectDir, start, jobs[0].dev, jobs[0].pkgs, logging);
      var m := start + |first.procs|;
      PassTraceStep(outcome, projectDir, start, jobs, true, logging, first, m,
                    PassTrace(outcome, projectDir, m, jobs[1..], true, logging),
                    PassTrace(outcome, projectDir, start, jobs, true, logging));
      StoppingOkAllSucceed(outcome, projectDir, m, jobs[1..], logging);
      TotalUnfold(jobs);
      AllSucceedSplit(outcome, start, m, start + Total(jobs));
    }
  }

  /** When every `add` succeeds, a pass of either kind runs one process per package, in order. */
  lemma {:induction false} AllAddsRun(outcome: nat -> Exit, projectDir: string, start: nat, jobs: seq<AddJob>,
                                      stopOnError: bool, logging: bool)
    requires AllSucceed(outcome, start, start + Total(jobs))
    ensures var t := PassTrace(outcome, projectDir, start, jobs, stopOnError, logging);
      t.result.Ok? && t.procs == AddProcs(projectDir, jobs)
    decreases |jobs|
  {
    AllAddsOk(outcome, projectDir, start, jobs, stopOnError, logging);
    AllAddsProcs(outcome, projectDir, start, jobs, stopOnError, logging);
  }

  /** When every `add` succeeds, the first job's `add` call succeeds and so does every process after it. */
  lemma FirstJobOk(outcome: nat -> Exit, projectDir: string, start: nat, jobs: seq<AddJob>, logging: bool,
                    first: Trace, m: nat)
    requires jobs != [] && AllSucceed(outcome, start, start + Total(jobs))
    requires first == AddTrace(outcome, projectDir, start, jobs[0].dev, jobs[0].pkgs, logging)
    requires m == start + |first.procs|
    ensures first.result == Ok(Unit)
    ensures first.procs == PkgProcs(projectDir, jobs[0].dev, jobs[0].pkgs)
    ensures AllSucceed(outcome, m, m + Total(jobs[1..]))
  {
    TotalUnfold(jobs);
    SucceedAround(outcome, start, |jobs[0].pkgs|, Total(jobs[1..]));
    AddTraceAllOk(outcome, projectDir, start, jobs[0].dev, jobs[0].pkgs, logging);
    assert |first.procs| == |jobs[0].pkgs|;
  }

  /** A run of successes of length `n + m` is one of length `n` followed by one of length `m`. */
  lemma SucceedAround(outcome: nat -> Exit, start: nat, n: nat, m: nat)
    requires AllSucceed(outcome, start, start + (n + m))
    ensures AllSucceed(outcome, start, start + n) && AllSucceed(outcome, start + n, start + n + m)
  {
    AllSucceedSplit(outcome, start, start + n, start + (n + m));
  }

  /** When every `add` succeeds, the pass succeeds. */
  lemma {:induction false} AllAddsOk(outcome: nat -> Exit, projectDir: string, start: nat, jobs: seq<AddJob>,
                                     stopOnError: bool, logging: bool)
    requires AllSucceed(outcome, start, start + Total(jobs))
    ensures PassTrace(outcome, projectDir, start, jobs, stopOnError, logging).result.Ok?
    decreases |jobs|
  {
    if jobs != [] {
      var first := AddTrace(outcome, projectDir, start, jobs[0].dev, jobs[0].pkgs, logging);
      var m := start + |first.procs|;
      FirstJobOk(outcome, projectDir, start, jobs, logging, first, m);
      AllAddsOk(outcome, projectDir, m, jobs[1..], stopOnError, logging);
      PassTraceStep(outcome, projectDir, start, jobs, stopOnError, logging, first, m,
                    PassTrace(outcome, projectDir, m, jobs[1..], stopOnError, logging),
                    PassTrace(outcome, projectDir, start, jobs, stopOnError, logging));
    }
  }

  /** When every `add` succeeds, the pass runs one process per package, in order. */
  lemma {:induction false} AllAddsProcs(outcome: nat -> Exit, projectDir: string, start: nat, jobs: seq<AddJob>,
                                        stopOnError: bool, logging: bool)
    requires AllSucceed(outcome, start, start + Total(jobs))
    ensures PassTrace(outcome, projectDir, start, jobs, stopOnError, logging).procs == AddProcs(projectDir, jobs)
    decreases |jobs|
  {
    if jobs != [] {
      var first := AddTrace(outcome, projectDir, start, jobs[0].dev, jobs[0].pkgs, logging);
      var m := start + |first.procs|;
      var rest := PassTrace(outcome, projectDir, m, jobs[1..], stopOnError, logging);
      var t := PassTrace(outcome, projectDir, start, jobs, stopOnError, logging);
      FirstJobOk(outcome, projectDir, start, jobs, logging, first, m);
      AllAddsProcs(outcome, projectDir, m, jobs[1..], stopOnError, logging);
      PassTraceStep(outcome, projectDir, start, jobs, stopOnError, logging, first, m, rest, t);
      OkThenProcs(first, rest, t, stopOnError);
      AddProcsStep(projectDir, jobs);
    }
  }

  /** After a successful first trace, the combined processes are the first's, then the rest's. */
  lemma OkThenProcs(first: Trace, rest: Trace, t: Trace, stopOnError: bool)
    requires t == Then(first, rest, stopOnError) && first.result.Ok?
    ensures t.procs == first.procs + rest.procs
  {
  }

  /**
   * The processes `procs`, numbered from `start`, ended with a failed
   * `pnpm add`: every earlier one succeeded, and the error `result` is that
   * of the package the failed process was adding.
   */
  predicate FailedLast(outcome: nat -> Exit, start: nat, procs: seq<Proc>, result: Result<Unit, string>)
  {
    && result.Err?
    && |procs| > 0
    && AllSucceed(outcome, start, start + |procs| - 1)
    && !Succeeded(outcome(start + |procs| - 1))
    && |procs[|procs| - 1].args| > 1 && procs[|procs| - 1].args[0] == "add"
    && result.error == AddError(outcome(start + |procs| - 1), procs[|procs| - 1].args[|procs[|procs| - 1].args| - 1])
  }

  /** A failed `add` call ended with its failed process. */
  lemma AddTraceFails(outcome: nat -> Exit, projectDir: string, start: nat, dev: bool, pkgs: seq<string>, logging: bool)
    requires AddTrace(outcome, projectDir, start, dev, pkgs, logging).result.Err?
    ensures var t := AddTrace(outcome, projectDir, start, dev, pkgs, logging);
      FailedLast(outcome, start, t.procs, t.result)
  {
    var t := AddTrace(outcome, projectDir, start, dev, pkgs, logging);
    AddTraceFailure(outcome, projectDir, start, dev, pkgs, logging);
    var k := |t.procs| - 1;
    assert t.procs[k].args == AddArgs(dev, pkgs[k]);
  }

  /** A failure after a run of successes ends the combined run. */
  lemma FailedLastAfter(outcome: nat -> Exit, start: nat, first: Trace, rest: Trace, t: Trace)
    requires first.result.Ok? && AllSucceed(outcome, start, start + |first.procs|)
    requires FailedLast(outcome, start + |first.procs|, rest.procs, rest.result)
    requires t == Then(first, rest, true)
    ensures FailedLast(outcome, start, t.procs, t.result)
  {
    var n := |first.procs|;
    var last := start + |t.procs| - 1;
    assert t.procs[|t.procs| - 1] == rest.procs[|rest.procs| - 1];
    AllSucceedSplit(outcome, start, start + n, last);
  }

  /**
   * A stopping pass that fails ends with the failed process: every earlier
   * one succeeded, and the error is that of the package the failed process
   * was adding.
   */
  lemma StoppingPassFailure(outcome: nat -> Exit, projectDir: string, start: nat, jobs: seq<AddJob>, logging: bool)
    requires PassTrace(outcome, projectDir, start, jobs, true, logging).result.Err?
    ensures var t := PassTrace(outcome, projectDir, start, jobs, true, logging);
      FailedLast(outcome, start, t.procs, t.result)
  {
    FailedPass(outcome, projectDir, start, jobs, logging, PassTrace(outcome, projectDir, start, jobs, true, logging));
  }

  /** The induction behind `StoppingPassFailure`, over a pass named `t`. */
  lemma {:induction false} FailedPass(outcome: nat -> Exit, projectDir: string, start: nat, jobs: seq<AddJob>, logging: bool, t: Trace)
    requires t == PassTrace(outcome, projectDir, start, jobs, true, logging) && t.result.Err?
    ensures FailedLast(outcome, start, t.procs, t.result)
    decreases |jobs|, 1
  {
    assert jobs != [];
    var first := AddTrace(outcome, projectDir, start, jobs[0].dev, jobs[0].pkgs, logging);
    var m := start + |first.procs|;
    var rest := PassTrace(outcome, projectDir, m, jobs[1..], true, logging);
    PassTraceStep(outcome, projectDir, start, jobs, true, logging, first, m, rest, t);
    FailedPassStep(outcome, projectDir, start, jobs, logging, first, m, rest, t);
  }

  /** One step of `FailedPass`: the failure is the first call's, or follows its successes. */
  lemma {:induction false} FailedPassStep(outcome: nat -> Exit, projectDir: string, start: nat, jobs: seq<AddJob>, logging: bool,
                                          first: Trace, m: nat, rest: Trace, t: Trace)
    requires jobs != [] && first == AddTrace(outcome, projectDir, start, jobs[0].dev, jobs[0].pkgs, logging)
    requires m == start + |first.procs|
    requires rest == PassTrace(outcome, projectDir, m, jobs[1..], true, logging)
    requires t == Then(first, rest, true) && t.result.Err?
    ensures FailedLast(outcome, start, t.procs, t.result)
    decreases |jobs|, 0
  {
    if first.result.Err? {
      AddTraceFails(outcome, projectDir, start, jobs[0].dev, jobs[0].pkgs, logging);
      assert t == first;
    } else {
      FailedPass(outcome, projectDir, m, jobs[1..], logging, rest);
      FailedLastAfter(outcome, start, first, rest, t);
    }
  }

  // -------------------------------------------------------------------
  // The world and the two pipelines as specifications

  /**
   * What the pipelines depend on but do not decide: whether `pnpm` resolves,
   * the state of the project directory, whether the config directory
   * resolves, the registry file there and in the working directory, the exit
   * of the i-th spawned process, and the files the generator writes when it
   * succeeds.
   */
  datatype Env = Env(tool: Option<string>, dirState: DirState, configDir: bool,
                     registry: RegistryFile, cwdRegistry: RegistryFile,
                     outcome: nat -> Exit, generated: map<string, string>)

  /** The arguments of both commands (the `set_default` flag is not modelled). */
  datatype Request = Request(version: string, lang: string, name: string, directory: string, features: seq<string>)

  /**
   * How far a pipeline got with the files: nothing written, the generator's
   * output in place, or that output patched as well.
   */
  datatype Stage = Untouched | Scaffolded | Patched

  /** The effect of the blocking pipeline: its result, the processes it spawned, how far it got with the files. */
  datatype Run = Run(result: Result<Unit, string>, procs: seq<Proc>, stage: Stage)

  /** The effect of the streaming pipeline: its events, the processes it spawned, how far it got with the files. */
  datatype Stream = Stream(events: seq<Event>, procs: seq<Proc>, stage: Stage)

  function ProjectDir(req: Request): string
  {
    Join(req.directory, req.name)
  }

  function FirstPlan(items: seq<Item>, req: Request): seq<AddJob>
  {
    Plan(items, req.features, req.version, req.lang)
  }

  const InstallArgs: seq<string> := ["install"]

  /**
   * The files after a pipeline reached `stage`, starting from `files`; the
   * blocking pipeline's patch also rewrites the pinia setup.
   */
  function FilesAt(stage: Stage, env: Env, req: Request, files: map<string, string>, blocking: bool): map<string, string>
  {
    match stage
    case Untouched => files
    case Scaffolded => files + env.generated
    case Patched => PatchedFiles(files + env.generated, ProjectDir(req), req.version, req.lang, req.features, blocking)
  }

  /** Whether the checks before any process pass: tool found, directory usable, version known. */
  predicate Admitted(env: Env, req: Request)
  {
    && env.tool.Some?
    && (env.dirState == Absent || env.dirState == Empty)
    && (req.version == "vue2" || req.version == "vue3")
  }

  /**
   * `create_project`, processes numbered from `start`. Every failure aborts,
   * except that the base install aborts only when it cannot be spawned and
   * the custom-key pass ignores its failures.
   */
  function Blocking(env: Env, req: Request, start: nat): (r: Run)
    ensures r.procs == [] ==> r.result.Err? && r.stage == Untouched
  {
    if env.tool.None? then Run(Err(ToolNotFound), [], Untouched)
    else
      var guard := Guard(req.directory, req.name, env.dirState, CreationAborted);
      if guard.Err? then Run(Err(guard.error), [], Untouched)
      else match BlockingArgs(req.version, req.lang, req.name, req.features)
        case Err(msg) => Run(Err(msg), [], Untouched)
        case Ok(gen) => BlockingFrom(env, req, start, Proc(req.directory, gen.args, gen.ciEnv))
  }

  /** `create_project` once its checks passed: the generator, the install, the config directory, the passes. */
  function BlockingFrom(env: Env, req: Request, start: nat, genProc: Proc): (r: Run)
    ensures |r.procs| >= 1 && r.procs[0] == genProc
    ensures r.stage == Untouched ==> r.procs == [genProc] && r.result.Err?
  {
    var ge := env.outcome(start);
    if ge.SpawnError? then Run(Err(ge.reason), [genProc], Untouched)
    else if !ge.success then Run(Err(CreationFailed), [genProc], Untouched)
    else
      var rest := Installed(env, req, start + 1);
      Run(rest.result, [genProc] + rest.procs, rest.stage)
  }

  /**
   * `create_project` after its generator succeeded, processes numbered from
   * `start`: the base install, which aborts only when it cannot be spawned,
   * the config directory, then the two passes.
   */
  function Installed(env: Env, req: Request, start: nat): (r: Run)
    ensures |r.procs| >= 1 && r.procs[0] == Proc(ProjectDir(req), InstallArgs, false)
    ensures r.stage != Untouched
  {
    var install := Proc(ProjectDir(req), InstallArgs, false);
    var ie := env.outcome(start);
    if ie.SpawnError? then Run(Err(ie.reason), [install], Scaffolded)
    else if !env.configDir then Run(Err(ConfigDirUnavailable), [install], Scaffolded)
    else
      var items := JobComponents(env.registry);
      var passes := BlockingPasses(env.outcome, ProjectDir(req), FirstPlan(items, req),
                                   CustomPlan(items, req.features, req.version, req.lang), start + 1);
      Run(passes.result, [install] + passes.procs, passes.stage)
  }

  /**
   * The two passes of `create_project` over the registry, the first over
   * `plan`, the second over `custom`, processes numbered from `start`: a
   * failed first pass aborts before the patch; the custom-key pass cannot
   * fail.
   */
  function BlockingPasses(outcome: nat -> Exit, projectDir: string, plan: seq<AddJob>, custom: seq<AddJob>,
                          start: nat): (r: Run)
    ensures r.stage != Untouched
    ensures r.result.Ok? <==> r.stage == Patched
  {
    var first := PassTrace(outcome, projectDir, start, plan, true, false);
    if first.result.Err? then Run(first.result, first.procs, Scaffolded)
    else
      var m := start + |first.procs|;
    var second := PassTrace(outcome, projectDir, m, custom, false, false);
      Run(Ok(Unit), first.procs + second.procs, Patched)
  }

  /** The two passes, with both pass traces and the run named. */
  lemma PassesStep(outcome: nat -> Exit, projectDir: string, plan: seq<AddJob>, custom: seq<AddJob>,
                   start: nat, first: Trace, m: nat, second: Trace, run: Run)
    requires first == PassTrace(outcome, projectDir, start, plan, true, false)
    requires m == start + |first.procs|
    requires second == PassTrace(outcome, projectDir, m, custom, false, false)
    requires run == BlockingPasses(outcome, projectDir, plan, custom, start)
    ensures run.procs == if first.result.Err? then first.procs else first.procs + second.procs
    ensures run.result.Ok? <==> first.result.Ok?
    ensures first.result.Err? ==> run.result == first.result
    ensures run.stage == if first.result.Err? then Scaffolded else Patched
  {
  }

  /** The streaming job after some lines is those lines followed by the job on its own. */
  lemma StreamingFromAfter(env: Env, req: Request, start: nat, lines: seq<Event>)
    ensures var alone := StreamingFrom(env, req, start, []);
      StreamingFrom(env, req, start, lines) == Stream(lines + alone.events, alone.procs, alone.stage)
  {
    match StreamingArgs(req.version, req.lang, req.name)
    case Err(msg) => FailedAfter(lines, [], msg, []);
    case Ok(gen) =>
      var genProc := Proc(req.directory, gen.args, gen.ciEnv);
      match env.outcome(start)
      case SpawnError(reason) => FailedAfter(lines, [], SpawnFailedPrefix + reason, [genProc]);
      case Exited(success, stdout, stderr) =>
        if !success {
          FailedAfter(lines, OutputLines(stdout, stderr), CreationFailed, [genProc]);
        } else {
          var pd := ProjectDir(req);
          PassAfterLines(env.outcome, pd, StreamingPlan(env, req), start + 2, lines, [genProc, Proc(pd, InstallArgs, false)]);
        }
  }

  /** A failed job after some lines is those lines followed by the failure on its own. */
  lemma FailedAfter(lines: seq<Event>, more: seq<Event>, error: string, procs: seq<Proc>)
    ensures Failed(lines + more, error, procs) == Stream(lines + Failed(more, error, procs).events, procs, Untouched)
    ensures Failed(lines, error, procs) == Stream(lines + Failed([], error, procs).events, procs, Untouched)
  {
    Assoc(lines, more, [Done(false, Some(error))]);
    assert [] + [Done(false, Some(error))] == [Done(false, Some(error))];
  }

  /** The end of a streaming job after some lines is those lines followed by the end on its own. */
  lemma PassAfterLines(outcome: nat -> Exit, projectDir: string, plan: seq<AddJob>, start: nat, lines: seq<Event>, spawned: seq<Proc>)
    ensures var alone := StreamingPass(outcome, projectDir, plan, start, [], spawned);
      StreamingPass(outcome, projectDir, plan, start, lines, spawned) == Stream(lines + alone.events, alone.procs, Patched)
  {
    var first := PassTrace(outcome, projectDir, start, plan, false, true);
    var tail := [Log(ScaffoldedLine), Log(InstalledAllLine)] + first.logs + [Log(CreatedLine)] + [Done(true, None)];
    StreamingPassUnfold(outcome, projectDir, plan, start, spawned, first);
    assert lines + [Log(ScaffoldedLine), Log(InstalledAllLine)] + first.logs + [Log(CreatedLine)] + [Done(true, None)] == lines + tail;
  }

  const StartedPrefix := "creating project: "
  const TargetPrefix := "target directory: "
  const NoFeatures := "features: none"
  const FeaturesPrefix := "features: "
  const ScaffoldingLine := "setting up the scaffold and installing dependencies..."
  const ScaffoldedLine := "scaffold created."
  const OutputPrefix := "scaffold output: "
  const ErrorOutputPrefix := "scaffold error: "
  const SpawnFailedPrefix := "failed to run: "
  const InstalledAllLine := "dependencies installed."
  const CreatedLine := "project created."

  /** `features.join(", ")`. */
  function JoinComma(xs: seq<string>): string
  {
    if |xs| == 0 then "" else if |xs| == 1 then xs[0] else xs[0] + ", " + JoinComma(xs[1..])
  }

  /** The four lines the streaming job emits before any check. */
  function IntroLines(req: Request): (lines: seq<Event>)
    ensures |lines| == 4 && AllLogs(lines)
  {
    [ Log(StartedPrefix + req.name),
      Log(TargetPrefix + req.directory),
      Log("Vue version: " + req.version + ", language: " + req.lang),
      Log(if req.features == [] then NoFeatures else FeaturesPrefix + JoinComma(req.features)) ]
  }

  /** The generator's trimmed output, each part only when not empty: standard output first. */
  function OutputLines(stdout: string, stderr: string): (lines: seq<Event>)
    ensures |lines| <= 2 && AllLogs(lines)
    ensures lines == [] <==> Trim(stdout) == "" && Trim(stderr) == ""
  {
    (if Trim(stdout) != "" then [Log(OutputPrefix + Trim(stdout))] else [])
      + (if Trim(stderr) != "" then [Log(ErrorOutputPrefix + Trim(stderr))] else [])
  }

  /** A failed streaming job: the log lines so far, then the one `done` event. */
  function Failed(lines: seq<Event>, error: string, procs: seq<Proc>): Stream
  {
    Stream(lines + [Done(false, Some(error))], procs, Untouched)
  }

  /**
   * `create_project_async`'s background job, processes numbered from
   * `start`. Only the tool, the directory, the version and the generator can
   * fail it; the install and every `add` are best effort, the registry falls
   * back to the working directory, and there is no pinia rewrite and no
   * custom-key pass.
   */
  function Streaming(env: Env, req: Request, start: nat): (s: Stream)
    ensures |s.events| >= 5 && s.events[..4] == IntroLines(req)
    ensures s.events[|s.events| - 1].Done? && s.stage != Scaffolded
  {
    var intro := IntroLines(req);
    if env.tool.None? then Failed(intro, ToolNotFound, [])
    else
      var guard := Guard(req.directory, req.name, env.dirState, CreationAborted);
      if guard.Err? then Failed(intro, guard.error, [])
      else StreamingFrom(env, req, start, intro + [Log(ScaffoldingLine)])
  }

  /** The streaming job once its checks passed, after the lines `lines`. */
  function StreamingFrom(env: Env, req: Request, start: nat, lines: seq<Event>): (s: Stream)
    ensures |s.events| > |lines| && s.events[..|lines|] == lines
    ensures s.events[|s.events| - 1].Done? && s.stage != Scaffolded
  {
    match StreamingArgs(req.version, req.lang, req.name)
    case Err(msg) => Failed(lines, msg, [])
    case Ok(gen) => StreamingGenerated(env, req, start, lines, Proc(req.directory, gen.args, gen.ciEnv))
  }

  /** The streaming job from the generator process `genProc` on, after the lines `lines`. */
  function StreamingGenerated(env: Env, req: Request, start: nat, lines: seq<Event>, genProc: Proc): (s: Stream)
    ensures |s.events| > |lines| && s.events[..|lines|] == lines
    ensures s.events[|s.events| - 1].Done? && s.stage != Scaffolded
    ensures |s.procs| >= 1 && s.procs[0] == genProc
  {
    match env.outcome(start)
    case SpawnError(reason) => Failed(lines, SpawnFailedPrefix + reason, [genProc])
    case Exited(success, stdout, stderr) =>
      if !success then Failed(lines + OutputLines(stdout, stderr), CreationFailed, [genProc])
      else
        var pd := ProjectDir(req);
        StreamingPass(env.outcome, pd, StreamingPlan(env, req), start + 2, lines, [genProc, Proc(pd, InstallArgs, false)])
  }

  /**
   * The end of a streaming job whose generator succeeded: the first pass over
   * `plan`, processes numbered from `start`, after the lines `lines` and the
   * processes `spawned`; each installed package is logged.
   */
  function StreamingPass(outcome: nat -> Exit, projectDir: string, plan: seq<AddJob>, start: nat,
                         lines: seq<Event>, spawned: seq<Proc>): (s: Stream)
    ensures |s.events| > |lines| && s.events[..|lines|] == lines
    ensures s.events[|s.events| - 1] == Done(true, None)
    ensures |s.procs| >= |spawned| && s.procs[..|spawned|] == spawned
    ensures s.stage == Patched
  {
    var first := PassTrace(outcome, projectDir, start, plan, false, true);
    Stream(lines + [Log(ScaffoldedLine), Log(InstalledAllLine)] + first.logs + [Log(CreatedLine)] + [Done(true, None)],
           spawned + first.procs, Patched)
  }

  /** The end of a streaming job with no lines before it, with its pass named. */
  lemma StreamingPassUnfold(outcome: nat -> Exit, projectDir: string, plan: seq<AddJob>, start: nat,
                            spawned: seq<Proc>, first: Trace)
    requires first == PassTrace(outcome, projectDir, start, plan, false, true)
    ensures StreamingPass(outcome, projectDir, plan, start, [], spawned)
      == Stream([Log(ScaffoldedLine), Log(InstalledAllLine)] + first.logs + [Log(CreatedLine)] + [Done(true, None)],
                spawned + first.procs, Patched)
  {
    assert [] + [Log(ScaffoldedLine), Log(InstalledAllLine)] == [Log(ScaffoldedLine), Log(InstalledAllLine)];
  }

  /** The events the end of a streaming job appends, one step at a time, regrouped as one block. */
  lemma StreamTail(before: seq<Event>, logs: seq<Event>, after: seq<Event>)
    requires after == before + [Log(ScaffoldedLine)] + [Log(InstalledAllLine)] + logs + [Log(CreatedLine)] + [Done(true, None)]
    ensures after == before + ([Log(ScaffoldedLine), Log(InstalledAllLine)] + logs + [Log(CreatedLine)] + [Done(true, None)])
  {
    assert [Log(ScaffoldedLine)] + [Log(InstalledAllLine)] == [Log(ScaffoldedLine), Log(InstalledAllLine)];
    Assoc(before, [Log(ScaffoldedLine)], [Log(InstalledAllLine)]);
    Assoc(before, [Log(ScaffoldedLine), Log(InstalledAllLine)], logs);
    Assoc(before, [Log(ScaffoldedLine), Log(InstalledAllLine)] + logs, [Log(CreatedLine)]);
    Assoc(before, [Log(ScaffoldedLine), Log(InstalledAllLine)] + logs + [Log(CreatedLine)], [Done(true, None)]);
  }

  /** The end of a streaming job, appended step by step, is what `StreamingPass` describes. */
  lemma StreamingPassEnd(outcome: nat -> Exit, projectDir: string, plan: seq<AddJob>, start: nat,
                         before: seq<Event>, after: seq<Event>, procsBefore: seq<Proc>, procsAfter: seq<Proc>, first: Trace)
    requires first == PassTrace(outcome, projectDir, start, plan, false, true)
    requires after == before + [Log(ScaffoldedLine)] + [Log(InstalledAllLine)] + first.logs + [Log(CreatedLine)] + [Done(true, None)]
    requires procsAfter == procsBefore + [Proc(projectDir, InstallArgs, false)] + first.procs
    ensures var s := StreamingPass(outcome, projectDir, plan, start, [], [Proc(projectDir, InstallArgs, false)]);
      after == before + s.events && procsAfter == procsBefore + s.procs
  {
    StreamingPassUnfold(outcome, projectDir, plan, start, [Proc(projectDir, InstallArgs, false)], first);
    StreamTail(before, first.logs, after);
    Assoc(procsBefore, [Proc(projectDir, InstallArgs, false)], first.procs);
  }

  /** A generator that exits unsuccessfully ends the job with its output and the failure. */
  lemma GeneratorFailed(env: Env, req: Request, start: nat, genProc: Proc)
    requires env.outcome(start).Exited? && !env.outcome(start).success
    ensures var e := env.outcome(start);
      StreamingGenerated(env, req, start, [], genProc)
        == Stream(OutputLines(e.stdout, e.stderr) + [Done(false, Some(CreationFailed))], [genProc], Untouched)
  {
    var e := env.outcome(start);
    assert [] + OutputLines(e.stdout, e.stderr) == OutputLines(e.stdout, e.stderr);
  }

  /** After a successful generator, the job is the generator process followed by the rest on its own. */
  lemma GeneratorSucceeded(env: Env, req: Request, start: nat, genProc: Proc)
    requires Succeeded(env.outcome(start))
    ensures var pd := ProjectDir(req);
      var rest := StreamingPass(env.outcome, pd, StreamingPlan(env, req), start + 2, [], [Proc(pd, InstallArgs, false)]);
      StreamingGenerated(env, req, start, [], genProc) == Stream(rest.events, [genProc] + rest.procs, Patched)
  {
    var pd := ProjectDir(req);
    assert StreamingGenerated(env, req, start, [], genProc)
        == StreamingPass(env.outcome, pd, StreamingPlan(env, req), start + 2, [], [genProc, Proc(pd, InstallArgs, false)]);
    PassAfterGenerator(env.outcome, pd, StreamingPlan(env, req), start + 2, genProc);
  }

  /** The streaming pass after the generator spawned the generator, then everything else. */
  lemma PassAfterGenerator(outcome: nat -> Exit, projectDir: string, plan: seq<AddJob>, start: nat, genProc: Proc)
    ensures var rest := StreamingPass(outcome, projectDir, plan, start, [], [Proc(projectDir, InstallArgs, false)]);
      StreamingPass(outcome, projectDir, plan, start, [], [genProc, Proc(projectDir, InstallArgs, false)])
        == Stream(rest.events, [genProc] + rest.procs, Patched)
  {
    var install := Proc(projectDir, InstallArgs, false);
    var first := PassTrace(outcome, projectDir, start, plan, false, true);
    StreamingPassUnfold(outcome, projectDir, plan, start, [install], first);
    StreamingPassUnfold(outcome, projectDir, plan, start, [genProc, install], first);
    assert [genProc] + ([install] + first.procs) == [genProc, install] + first.procs;
  }

  /** The streaming first pass reads the registry in the config directory, or else in the working directory. */
  function StreamingPlan(env: Env, req: Request): (plan: seq<AddJob>)
    ensures |plan| <= |req.features|
    ensures forall j :: 0 <= j < |plan| ==> plan[j].pkgs != []
  {
    var items := JobComponents(if env.configDir then env.registry else env.cwdRegistry);
    PlanJobsNonEmpty(items, req.features, req.version, req.lang);
    FirstPlan(items, req)
  }

  // -------------------------------------------------------------------
  // What the pipelines promise

  /**
   * The blocking pipeline checks the tool, the directory and the version
   * before it spawns anything; a refused directory is reported with the
   * folder name and its path.
   */
  lemma BlockingChecksFirst(env: Env, req: Request, start: nat)
    ensures var run := Blocking(env, req, start);
      && (run.procs == [] <==> !Admitted(env, req))
      && (!Admitted(env, req) ==> run.stage == Untouched && run.result.Err?)
      && (env.tool.None? ==> run.result == Err(ToolNotFound))
      && (env.tool.Some? && env.dirState != Absent && env.dirState != Empty ==>
            HasOcc(run.result.error, req.name) && HasOcc(run.result.error, ProjectDir(req)))
      && (env.tool.Some? && (env.dirState == Absent || env.dirState == Empty) && req.version != "vue2" && req.version != "vue3" ==>
            run.result == Err(UnknownVersion))
  {
    GuardMentions(req.directory, req.name, env.dirState, CreationAborted);
  }

  /** The passes succeed exactly when every first-pass `add` does, and only then is the project patched. */
  lemma PassesOkIff(outcome: nat -> Exit, projectDir: string, plan: seq<AddJob>, custom: seq<AddJob>, start: nat)
    ensures var run := BlockingPasses(outcome, projectDir, plan, custom, start);
      && (run.result.Ok? <==> AllSucceed(outcome, start, start + Total(plan)))
      && (run.stage == Patched <==> run.result.Ok?)
      && run.stage != Untouched
  {
    var first := PassTrace(outcome, projectDir, start, plan, true, false);
    var m := start + |first.procs|;
    var second := PassTrace(outcome, projectDir, m, custom, false, false);
    var run := BlockingPasses(outcome, projectDir, plan, custom, start);
    PassesStep(outcome, projectDir, plan, custom, start, first, m, second, run);
    StoppingPassOk(outcome, projectDir, start, plan, false);
  }

  /**
   * A blocking run that got past the generator, the install and the config
   * directory: those two processes, then the passes.
   */
  lemma BlockingReachesPasses(env: Env, req: Request, start: nat)
    requires Admitted(env, req) && Succeeded(env.outcome(start)) && !env.outcome(start + 1).SpawnError? && env.configDir
    ensures BlockingArgs(req.version, req.lang, req.name, req.features).Ok?
    ensures Blocking(env, req, start)
      == AfterInstall(GenProc(req), Proc(ProjectDir(req), InstallArgs, false),
                      BlockingPasses(env.outcome, ProjectDir(req), FirstPlan(JobComponents(env.registry), req),
                                     CustomPlan(JobComponents(env.registry), req.features, req.version, req.lang), start + 2))
  {
    var gen := BlockingArgs(req.version, req.lang, req.name, req.features).value;
    assert Blocking(env, req, start) == BlockingFrom(env, req, start, Proc(req.directory, gen.args, gen.ciEnv));
  }

  /** The generator process of the blocking mode, for a version it knows. */
  function GenProc(req: Request): Proc
    requires BlockingArgs(req.version, req.lang, req.name, req.features).Ok?
  {
    var gen := BlockingArgs(req.version, req.lang, req.name, req.features).value;
    Proc(req.directory, gen.args, gen.ciEnv)
  }

  /** The blocking run once the generator and the base install ran: their two processes, then the passes. */
  function AfterInstall(genProc: Proc, install: Proc, passes: Run): Run
  {
    Run(passes.result, [genProc] + ([install] + passes.procs), passes.stage)
  }

  /** A run made of two processes followed by the passes: where each part sits in its processes. */
  lemma AfterTwo(run: Run, first: Proc, second: Proc, passes: Run, n: nat)
    requires run == AfterInstall(first, second, passes)
    requires n <= |passes.procs|
    ensures |run.procs| == 2 + |passes.procs| && run.procs[0] == first && run.procs[1] == second
    ensures run.procs[2..] == passes.procs && run.procs[2..2 + n] == passes.procs[..n]
    ensures run.result == passes.result
  {
    assert run.procs[2..] == passes.procs;
  }

  /** A run made of two processes followed by failed passes ends with the failed `add`. */
  lemma AfterTwoFailed(run: Run, first: Proc, second: Proc, passes: Run, outcome: nat -> Exit, start: nat)
    requires run == AfterInstall(first, second, passes)
    requires FailedLast(outcome, start, passes.procs, passes.result)
    ensures |run.procs| > 2 && FailedLast(outcome, start, run.procs[2..], run.result)
  {
    AfterTwo(run, first, second, passes, 0);
  }

  /**
   * The blocking pipeline succeeds exactly when the checks pass, the
   * generator succeeds, the install can be spawned (its exit status is never
   * looked at), the config directory resolves and every first-pass `add`
   * succeeds. Nothing after the first pass, the custom-key `add`s included,
   * can make it fail; and it patches the project exactly when it succeeds.
   */
  lemma BlockingOkIff(env: Env, req: Request, start: nat)
    ensures var run := Blocking(env, req, start);
      && (run.result.Ok? <==>
            && Admitted(env, req)
            && Succeeded(env.outcome(start))
            && !env.outcome(start + 1).SpawnError?
            && env.configDir
            && AllSucceed(env.outcome, start + 2, start + 2 + Total(FirstPlan(JobComponents(env.registry), req))))
      && (run.stage == Patched <==> run.result.Ok?)
  {
    if Admitted(env, req) {
      var gen := BlockingArgs(req.version, req.lang, req.name, req.features).value;
      assert Blocking(env, req, start) == BlockingFrom(env, req, start, Proc(req.directory, gen.args, gen.ciEnv));
      if Succeeded(env.outcome(start)) && !env.outcome(start + 1).SpawnError? && env.configDir {
        var items := JobComponents(env.registry);
        BlockingReachesPasses(env, req, start);
        PassesOkIff(env.outcome, ProjectDir(req), FirstPlan(items, req),
                    CustomPlan(items, req.features, req.version, req.lang), start + 2);
      }
    }
  }

  /** The processes of the passes are all `pnpm add`s in the project directory. */
  lemma PassesSpawnAdds(outcome: nat -> Exit, projectDir: string, plan: seq<AddJob>, custom: seq<AddJob>, start: nat)
    ensures AllAddsIn(projectDir, BlockingPasses(outcome, projectDir, plan, custom, start).procs)
  {
    var first := PassTrace(outcome, projectDir, start, plan, true, false);
    var m := start + |first.procs|;
    var second := PassTrace(outcome, projectDir, m, custom, false, false);
    var run := BlockingPasses(outcome, projectDir, plan, custom, start);
    PassesStep(outcome, projectDir, plan, custom, start, first, m, second, run);
    PassRunsOnlyAdds(outcome, projectDir, start, plan, true, false);
    PassRunsOnlyAdds(outcome, projectDir, m, custom, false, false);
    AddsInEither(projectDir, first, second, run.procs);
  }

  /** The processes of one pass, or of two, are all `pnpm add`s when each pass's are. */
  lemma AddsInEither(projectDir: string, first: Trace, second: Trace, procs: seq<Proc>)
    requires procs == if first.result.Err? then first.procs else first.procs + second.procs
    requires AllAddsIn(projectDir, first.procs) && AllAddsIn(projectDir, second.procs)
    ensures AllAddsIn(projectDir, procs)
  {
    if first.result.Ok? {
      AllAddsInConcat(projectDir, first.procs, second.procs);
    }
  }

  /**
   * A blocking run that gets past the generator and the install ran the
   * generator in the base directory (with `CI=true` exactly for Vue 3), the
   * install in the project directory, and after them only `pnpm add`s in the
   * project directory.
   */
  lemma BlockingProcesses(env: Env, req: Request, start: nat)
    requires Admitted(env, req) && Succeeded(env.outcome(start)) && !env.outcome(start + 1).SpawnError? && env.configDir
    ensures var run := Blocking(env, req, start);
      && |run.procs| >= 2
      && run.procs[0].cwd == req.directory
      && (run.procs[0].ciEnv <==> req.version == "vue3")
      && run.procs[1] == Proc(ProjectDir(req), InstallArgs, false)
      && AllAddsIn(ProjectDir(req), run.procs[2..])
  {
    var items := JobComponents(env.registry);
    var plan := FirstPlan(items, req);
    var custom := CustomPlan(items, req.features, req.version, req.lang);
    var passes := BlockingPasses(env.outcome, ProjectDir(req), plan, custom, start + 2);
    BlockingReachesPasses(env, req, start);
    PassesSpawnAdds(env.outcome, ProjectDir(req), plan, custom, start + 2);
    AfterTwo(Blocking(env, req, start), GenProc(req), Proc(ProjectDir(req), InstallArgs, false), passes, 0);
  }

  /** Successful passes begin with every first-pass package, in order. */
  lemma PassesSuccess(outcome: nat -> Exit, projectDir: string, plan: seq<AddJob>, custom: seq<AddJob>, start: nat)
    requires BlockingPasses(outcome, projectDir, plan, custom, start).result.Ok?
    ensures var run := BlockingPasses(outcome, projectDir, plan, custom, start);
      && |run.procs| >= Total(plan)
      && run.procs[..Total(plan)] == AddProcs(projectDir, plan)
  {
    var first := PassTrace(outcome, projectDir, start, plan, true, false);
    var m := start + |first.procs|;
    var second := PassTrace(outcome, projectDir, m, custom, false, false);
    var run := BlockingPasses(outcome, projectDir, plan, custom, start);
    PassesStep(outcome, projectDir, plan, custom, start, first, m, second, run);
    StoppingPassOk(outcome, projectDir, start, plan, false);
    SliceAfter(first.procs, second.procs);
  }

  /**
   * A successful blocking run ran the generator, the install and then every
   * first-pass package, in order.
   */
  lemma BlockingSuccess(env: Env, req: Request, start: nat)
    requires Blocking(env, req, start).result.Ok?
    ensures var run := Blocking(env, req, start);
      var plan := FirstPlan(JobComponents(env.registry), req);
      && |run.procs| >= 2 + Total(plan)
      && run.procs[2..2 + Total(plan)] == AddProcs(ProjectDir(req), plan)
  {
    var items := JobComponents(env.registry);
    BlockingOkIff(env, req, start);
    BlockingReachesPasses(env, req, start);
    PassesSuccessAfter(Blocking(env, req, start), GenProc(req), Proc(ProjectDir(req), InstallArgs, false),
                       env.outcome, ProjectDir(req), FirstPlan(items, req), CustomPlan(items, req.features, req.version, req.lang), start + 2);
  }

  /** `PassesSuccess` seen through the two processes that precede the passes. */
  lemma PassesSuccessAfter(run: Run, first: Proc, second: Proc, outcome: nat -> Exit, projectDir: string,
                           plan: seq<AddJob>, custom: seq<AddJob>, start: nat)
    requires run == AfterInstall(first, second, BlockingPasses(outcome, projectDir, plan, custom, start))
    requires BlockingPasses(outcome, projectDir, plan, custom, start).result.Ok?
    ensures |run.procs| >= 2 + Total(plan) && run.procs[2..2 + Total(plan)] == AddProcs(projectDir, plan)
  {
    PassesSuccess(outcome, projectDir, plan, custom, start);
    PrefixAfterTwo(run, first, second, BlockingPasses(outcome, projectDir, plan, custom, start), AddProcs(projectDir, plan));
  }

  /** A prefix of the passes' processes sits right after the first two processes. */
  lemma PrefixAfterTwo(run: Run, first: Proc, second: Proc, passes: Run, prefix: seq<Proc>)
    requires run == AfterInstall(first, second, passes)
    requires |prefix| <= |passes.procs| && passes.procs[..|prefix|] == prefix
    ensures |run.procs| >= 2 + |prefix| && run.procs[2..2 + |prefix|] == prefix
  {
    AfterTwo(run, first, second, passes, |prefix|);
  }

  /** Failed passes end with the failed first-pass `add`. */
  lemma PassesFailure(outcome: nat -> Exit, projectDir: string, plan: seq<AddJob>, custom: seq<AddJob>, start: nat)
    requires BlockingPasses(outcome, projectDir, plan, custom, start).result.Err?
    ensures var run := BlockingPasses(outcome, projectDir, plan, custom, start);
      FailedLast(outcome, start, run.procs, run.result)
  {
    var first := PassTrace(outcome, projectDir, start, plan, true, false);
    var m := start + |first.procs|;
    var second := PassTrace(outcome, projectDir, m, custom, false, false);
    var run := BlockingPasses(outcome, projectDir, plan, custom, start);
    PassesStep(outcome, projectDir, plan, custom, start, first, m, second, run);
    StoppingPassFailure(outcome, projectDir, start, plan, false);
  }

  /**
   * A blocking run that fails after the generator, the install and the
   * config directory failed on a first-pass `add`: it ends with that
   * package's process, whose failure is the run's error, and every earlier
   * `add` succeeded.
   */
  lemma BlockingAddFailure(env: Env, req: Request, start: nat)
    requires Admitted(env, req) && Succeeded(env.outcome(start)) && !env.outcome(start + 1).SpawnError? && env.configDir
    requires Blocking(env, req, start).result.Err?
    ensures var run := Blocking(env, req, start);
      |run.procs| > 2 && FailedLast(env.outcome, start + 2, run.procs[2..], run.result)
  {
    var items := JobComponents(env.registry);
    BlockingReachesPasses(env, req, start);
    PassesFailureAfter(Blocking(env, req, start), GenProc(req), Proc(ProjectDir(req), InstallArgs, false),
                       env.outcome, ProjectDir(req), FirstPlan(items, req), CustomPlan(items, req.features, req.version, req.lang), start + 2);
  }

  /** `PassesFailure` seen through the two processes that precede the passes. */
  lemma PassesFailureAfter(run: Run, first: Proc, second: Proc, outcome: nat -> Exit, projectDir: string,
                           plan: seq<AddJob>, custom: seq<AddJob>, start: nat)
    requires run == AfterInstall(first, second, BlockingPasses(outcome, projectDir, plan, custom, start))
    requires run.result.Err?
    ensures |run.procs| > 2 && FailedLast(outcome, start, run.procs[2..], run.result)
  {
    var passes := BlockingPasses(outcome, projectDir, plan, custom, start);
    PassesFailure(outcome, projectDir, plan, custom, start);
    AfterTwoFailed(run, first, second, passes, outcome, start);
  }

  /** Every event of `xs` is a log line. */
  predicate AllLogs(xs: seq<Event>)
  {
    forall i :: 0 <= i < |xs| ==> xs[i].Log?
  }

  /** Log lines, then exactly one `done` event, last. */
  predicate LogsThenDone(events: seq<Event>)
  {
    && |events| > 0
    && events[|events| - 1].Done?
    && AllLogs(events[..|events| - 1])
  }

  lemma AllLogsConcat(xs: seq<Event>, ys: seq<Event>)
    requires AllLogs(xs) && AllLogs(ys)
    ensures AllLogs(xs + ys)
  {
    forall i | 0 <= i < |xs + ys| ensures (xs + ys)[i].Log? {
      if i >= |xs| {
        assert (xs + ys)[i] == ys[i - |xs|];
      }
    }
  }

  lemma EndsWithDone(lines: seq<Event>, done: Event)
    requires AllLogs(lines) && done.Done?
    ensures LogsThenDone(lines + [done])
  {
    assert (lines + [done])[..|lines|] == lines;
  }

  /** An `add` call only logs lines. */
  lemma AddTraceLogs(outcome: nat -> Exit, projectDir: string, start: nat, dev: bool, pkgs: seq<string>, logging: bool)
    ensures AllLogs(AddTrace(outcome, projectDir, start, dev, pkgs, logging).logs)
  {
    AddTraceRuns(outcome, projectDir, start, dev, pkgs, logging);
  }

  /** A pass only ever logs lines. */
  lemma {:induction false} PassLogsAreLines(outcome: nat -> Exit, projectDir: string, start: nat, jobs: seq<AddJob>,
                                            stopOnError: bool, logging: bool)
    ensures AllLogs(PassTrace(outcome, projectDir, start, jobs, stopOnError, logging).logs)
    decreases |jobs|
  {
    if jobs != [] {
      var first := AddTrace(outcome, projectDir, start, jobs[0].dev, jobs[0].pkgs, logging);
      var m := start + |first.procs|;
      var rest := PassTrace(outcome, projectDir, m, jobs[1..], stopOnError, logging);
      var t := PassTrace(outcome, projectDir, start, jobs, stopOnError, logging);
      PassTraceStep(outcome, projectDir, start, jobs, stopOnError, logging, first, m, rest, t);
      AddTraceLogs(outcome, projectDir, start, jobs[0].dev, jobs[0].pkgs, logging);
      PassLogsAreLines(outcome, projectDir, m, jobs[1..], stopOnError, logging);
      if !(first.result.Err? && stopOnError) {
        AllLogsConcat(first.logs, rest.logs);
      }
    }
  }

  /** After the checks, the streaming job still ends with exactly one `done` event. */
  lemma StreamingFromOneDone(env: Env, req: Request, start: nat, lines: seq<Event>)
    requires AllLogs(lines)
    ensures LogsThenDone(StreamingFrom(env, req, start, lines).events)
  {
    var events := StreamingFrom(env, req, start, lines).events;
    match StreamingArgs(req.version, req.lang, req.name)
    case Err(msg) =>
      EndsWithDone(lines, Done(false, Some(msg)));
    case Ok(gen) =>
      match env.outcome(start)
      case SpawnError(reason) =>
        EndsWithDone(lines, Done(false, Some(SpawnFailedPrefix + reason)));
      case Exited(success, stdout, stderr) =>
        if !success {
          AllLogsConcat(lines, OutputLines(stdout, stderr));
          EndsWithDone(lines + OutputLines(stdout, stderr), Done(false, Some(CreationFailed)));
        } else {
          var pd := ProjectDir(req);
          StreamingPassOneDone(env.outcome, pd, StreamingPlan(env, req), start + 2, lines,
                               [Proc(req.directory, gen.args, gen.ciEnv), Proc(pd, InstallArgs, false)]);
        }
  }

  lemma StreamingPassOneDone(outcome: nat -> Exit, projectDir: string, plan: seq<AddJob>, start: nat,
                             lines: seq<Event>, spawned: seq<Proc>)
    requires AllLogs(lines)
    ensures LogsThenDone(StreamingPass(outcome, projectDir, plan, start, lines, spawned).events)
  {
    var first := PassTrace(outcome, projectDir, start, plan, false, true);
    PassLogsAreLines(outcome, projectDir, start, plan, false, true);
    var before := lines + [Log(ScaffoldedLine), Log(InstalledAllLine)];
    AllLogsConcat(lines, [Log(ScaffoldedLine), Log(InstalledAllLine)]);
    AllLogsConcat(before, first.logs);
    AllLogsConcat(before + first.logs, [Log(CreatedLine)]);
    EndsWithDone(before + first.logs + [Log(CreatedLine)], Done(true, None));
  }

  /** The streaming job emits exactly one `done` event, and it is the last event. */
  lemma StreamingOneDone(env: Env, req: Request, start: nat)
    ensures var events := Streaming(env, req, start).events;
      && |events| > 0
      && events[|events| - 1].Done?
      && forall i :: 0 <= i < |events| - 1 ==> events[i].Log?
  {
    var intro := IntroLines(req);
    assert AllLogs(intro);
    if env.tool.None? {
      EndsWithDone(intro, Done(false, Some(ToolNotFound)));
    } else if Guard(req.directory, req.name, env.dirState, CreationAborted).Err? {
      EndsWithDone(intro, Done(false, Some(Guard(req.directory, req.name, env.dirState, CreationAborted).error)));
    } else {
      AllLogsConcat(intro, [Log(ScaffoldingLine)]);
      StreamingFromOneDone(env, req, start, intro + [Log(ScaffoldingLine)]);
    }
    var events := Streaming(env, req, start).events;
    assert forall i :: 0 <= i < |events| - 1 ==> events[i] == events[..|events| - 1][i];
  }

  /** After the checks, the streaming job reports success exactly when the generator succeeds. */
  lemma StreamingFromOkIff(env: Env, req: Request, start: nat, lines: seq<Event>)
    requires req.version == "vue2" || req.version == "vue3"
    ensures var run := StreamingFrom(env, req, start, lines);
      && |run.events| > 0
      && (run.events[|run.events| - 1] == Done(true, None) <==> Succeeded(env.outcome(start)))
      && (run.events[|run.events| - 1] != Done(true, None) ==>
            run.stage == Untouched && run.events[|run.events| - 1].Done? && run.events[|run.events| - 1].error.Some?)
  {
  }

  /**
   * The streaming job reports success exactly when the checks pass and the
   * generator succeeds: the install and the `add`s cannot fail it. On
   * failure no file was written.
   */
  lemma StreamingOkIff(env: Env, req: Request, start: nat)
    ensures var run := Streaming(env, req, start);
      && |run.events| > 0
      && (run.events[|run.events| - 1] == Done(true, None) <==> Admitted(env, req) && Succeeded(env.outcome(start)))
      && (run.events[|run.events| - 1].Done? && !run.events[|run.events| - 1].success ==>
            run.stage == Untouched && run.events[|run.events| - 1].error.Some?)
  {
    if env.tool.Some? && Guard(req.directory, req.name, env.dirState, CreationAborted).Ok? {
      var lines := IntroLines(req) + [Log(ScaffoldingLine)];
      assert Streaming(env, req, start) == StreamingFrom(env, req, start, lines);
      if req.version == "vue2" || req.version == "vue3" {
        StreamingFromOkIff(env, req, start, lines);
      }
    }
  }

  /** The processes of a streaming first pass: all `pnpm add`s, at least one per job, the first package of every job among them, and exactly the plan's when all succeed. */
  lemma StreamingPassEffects(outcome: nat -> Exit, projectDir: string, plan: seq<AddJob>, start: nat,
                             lines: seq<Event>, spawned: seq<Proc>)
    requires forall j :: 0 <= j < |plan| ==> plan[j].pkgs != []
    ensures var run := StreamingPass(outcome, projectDir, plan, start, lines, spawned);
      && |run.procs| >= |spawned| + |plan|
      && run.procs[..|spawned|] == spawned
      && run.stage == Patched
      && AllAddsIn(projectDir, run.procs[|spawned|..])
      && (forall j :: 0 <= j < |plan| ==> AddProc(projectDir, plan[j].dev, plan[j].pkgs[0]) in run.procs[|spawned|..])
      && (AllSucceed(outcome, start, start + Total(plan)) ==> run.procs[|spawned|..] == AddProcs(projectDir, plan))
  {
    var first := PassTrace(outcome, projectDir, start, plan, false, true);
    var run := StreamingPass(outcome, projectDir, plan, start, lines, spawned);
    assert run.procs == spawned + first.procs;
    assert run.procs[|spawned|..] == first.procs;
    EveryJobTried(outcome, projectDir, start, plan, true);
    EveryJobStarted(outcome, projectDir, start, plan, true);
    PassRunsOnlyAdds(outcome, projectDir, start, plan, false, true);
    if AllSucceed(outcome, start, start + Total(plan)) {
      AllAddsRun(outcome, projectDir, start, plan, false, true);
    }
  }

  /**
   * A successful streaming job spawned the generator and the install, tried
   * every first-pass job, and left the project patched (without the pinia
   * rewrite); when every `add` succeeds, those are all its processes (no
   * custom-key pass).
   */
  lemma StreamingEffects(env: Env, req: Request, start: nat)
    requires Admitted(env, req) && Succeeded(env.outcome(start))
    ensures var run := Streaming(env, req, start);
      var pd := ProjectDir(req);
      var plan := StreamingPlan(env, req);
      && |run.procs| >= 2 + |plan|
      && run.procs[0].cwd == req.directory && !run.procs[0].ciEnv
      && run.procs[1] == Proc(pd, InstallArgs, false)
      && run.stage == Patched
      && AllAddsIn(pd, run.procs[2..])
      && (AllSucceed(env.outcome, start + 2, start + 2 + Total(plan)) ==> run.procs[2..] == AddProcs(pd, plan))
  {
    var pd := ProjectDir(req);
    var lines := IntroLines(req) + [Log(ScaffoldingLine)];
    var gen := StreamingArgs(req.version, req.lang, req.name).value;
    var spawned := [Proc(req.directory, gen.args, gen.ciEnv), Proc(pd, InstallArgs, false)];
    var plan := StreamingPlan(env, req);
    var run := Streaming(env, req, start);
    StreamingReachesPass(env, req, start);
    PassAfterTwo(env.outcome, pd, plan, start + 2, lines, spawned, run);
  }

  /**
   * A successful streaming job starts every first-pass job: the `add` of each
   * job's first package is among its processes after the generator and the
   * install, even when earlier jobs failed.
   */
  lemma StreamingStartsEveryJob(env: Env, req: Request, start: nat)
    requires Admitted(env, req) && Succeeded(env.outcome(start))
    ensures var run := Streaming(env, req, start);
      var plan := StreamingPlan(env, req);
      forall j :: 0 <= j < |plan| ==> plan[j].pkgs != [] && AddProc(ProjectDir(req), plan[j].dev, plan[j].pkgs[0]) in run.procs[2..]
  {
    var pd := ProjectDir(req);
    var gen := StreamingArgs(req.version, req.lang, req.name).value;
    var spawned := [Proc(req.directory, gen.args, gen.ciEnv), Proc(pd, InstallArgs, false)];
    var plan := StreamingPlan(env, req);
    var run := Streaming(env, req, start);
    StreamingReachesPass(env, req, start);
    StreamingPassEffects(env.outcome, pd, plan, start + 2, IntroLines(req) + [Log(ScaffoldingLine)], spawned);
    assert run.procs[2..] == run.procs[|spawned|..];
  }

  /** A streaming first pass after exactly two processes: where those two and the pass's processes sit. */
  lemma PassAfterTwo(outcome: nat -> Exit, projectDir: string, plan: seq<AddJob>, start: nat,
                     lines: seq<Event>, spawned: seq<Proc>, run: Stream)
    requires |spawned| == 2 && forall j :: 0 <= j < |plan| ==> plan[j].pkgs != []
    requires run == StreamingPass(outcome, projectDir, plan, start, lines, spawned)
    ensures |run.procs| >= 2 + |plan| && run.procs[0] == spawned[0] && run.procs[1] == spawned[1]
    ensures run.stage == Patched && AllAddsIn(projectDir, run.procs[2..])
    ensures AllSucceed(outcome, start, start + Total(plan)) ==> run.procs[2..] == AddProcs(projectDir, plan)
  {
    StreamingPassEffects(outcome, projectDir, plan, start, lines, spawned);
    assert run.procs[..2] == spawned;
    assert run.procs[0] == run.procs[..2][0];
  }

  /**
   * A streaming job whose checks pass and whose generator succeeds ends with
   * its first pass, after the generator and the install.
   */
  lemma StreamingReachesPass(env: Env, req: Request, start: nat)
    requires Admitted(env, req) && Succeeded(env.outcome(start))
    ensures StreamingArgs(req.version, req.lang, req.name).Ok?
    ensures var pd := ProjectDir(req);
      var gen := StreamingArgs(req.version, req.lang, req.name).value;
      Streaming(env, req, start)
        == StreamingPass(env.outcome, pd, StreamingPlan(env, req), start + 2, IntroLines(req) + [Log(ScaffoldingLine)],
                         [Proc(req.directory, gen.args, gen.ciEnv), Proc(pd, InstallArgs, false)])
  {
    var lines := IntroLines(req) + [Log(ScaffoldingLine)];
    assert Streaming(env, req, start) == StreamingFrom(env, req, start, lines);
  }


  /**
   * A generator that exits unsuccessfully has its trimmed standard output and
   * error logged, each only when not empty, before the failure is reported.
   */
  lemma StreamingGeneratorOutput(env: Env, req: Request, start: nat, stdout: string, stderr: string)
    requires Admitted(env, req) && env.outcome(start) == Exited(false, stdout, stderr)
    ensures var events := Streaming(env, req, start).events;
      && |events| == 6 + (if Trim(stdout) != "" then 1 else 0) + (if Trim(stderr) != "" then 1 else 0)
      && (Trim(stdout) != "" ==> events[5] == Log(OutputPrefix + Trim(stdout)))
      && (Trim(stderr) != "" ==> events[|events| - 2] == Log(ErrorOutputPrefix + Trim(stderr)))
      && events[|events| - 1] == Done(false, Some(CreationFailed))
  {
    var lines := IntroLines(req) + [Log(ScaffoldingLine)];
    assert Streaming(env, req, start) == StreamingFrom(env, req, start, lines);
    assert StreamingFrom(env, req, start, lines).events == lines + OutputLines(stdout, stderr) + [Done(false, Some(CreationFailed))];
    OutputLayout(lines, Trim(stdout), Trim(stderr));
  }

  /** The events of a failed generator: five opening lines, its non-empty output, then the failure. */
  lemma OutputLayout(lines: seq<Event>, out: string, err: string)
    requires |lines| == 5
    ensures var events := lines
                          + ((if out != "" then [Log(OutputPrefix + out)] else [])
                             + (if err != "" then [Log(ErrorOutputPrefix + err)] else []))
                          + [Done(false, Some(CreationFailed))];
      && |events| == 6 + (if out != "" then 1 else 0) + (if err != "" then 1 else 0)
      && (out != "" ==> events[5] == Log(OutputPrefix + out))
      && (err != "" ==> events[|events| - 2] == Log(ErrorOutputPrefix + err))
      && events[|events| - 1] == Done(false, Some(CreationFailed))
  {
  }

  /** Both pipelines refuse the same requests before spawning anything, with the same message. */
  lemma ModesAgreeOnChecks(env: Env, req: Request, start: nat)
    requires !Admitted(env, req)
    ensures var run := Blocking(env, req, start);
      var stream := Streaming(env, req, start);
      && run.result.Err? && run.procs == [] && stream.procs == []
      && stream.events[|stream.events| - 1] == Done(false, Some(run.result.error))
  {
  }

  // -------------------------------------------------------------------
  // The pipelines as they run

  /** The world one pipeline run sees and changes. */
  class Workspace {
    const env: Env
    var files: map<string, string>
    var procs: seq<Proc>
    var events: seq<Event>

    constructor (env: Env, files: map<string, string>)
      ensures this.env == env && this.files == files && procs == [] && events == []
    {
      this.env := env;
      this.files := files;
      procs := [];
      events := [];
    }

    /** Spawns a `pnpm` process and waits for it: the i-th process gets the i-th exit. */
    method Spawn(cwd: string, args: seq<string>, ciEnv: bool) returns (e: Exit)
      modifies this`procs
      ensures procs == old(procs) + [Proc(cwd, args, ciEnv)]
      ensures e == env.outcome(|old(procs)|)
    {
      e := env.outcome(|procs|);
      procs := procs + [Proc(cwd, args, ciEnv)];
    }

    /** The `add` closure. */
    method AddPackages(projectDir: string, dev: bool, pkgs: seq<string>, logging: bool) returns (r: Result<Unit, string>)
      modifies this`procs, this`events
      ensures var t := AddTrace(env.outcome, projectDir, |old(procs)|, dev, pkgs, logging);
        procs == old(procs) + t.procs && events == old(events) + t.logs && r == t.result
    {
      ghost var start := |procs|;
      var i := 0;
      while i < |pkgs|
        invariant 0 <= i <= |pkgs|
        invariant |procs| == start + i
        invariant AllSucceed(env.outcome, start, start + i)
        invariant procs == old(procs) + PkgProcs(projectDir, dev, pkgs[..i])
        invariant events == old(events) + (if logging then InstalledLines(dev, pkgs[..i]) else [])
      {
        var e := Spawn(projectDir, AddArgs(dev, pkgs[i]), false);
        PkgProcsSnoc(projectDir, dev, pkgs, i);
        Assoc(old(procs), PkgProcs(projectDir, dev, pkgs[..i]), [AddProc(projectDir, dev, pkgs[i])]);
        if !Succeeded(e) {
          AddTraceStopsAt(env.outcome, projectDir, start, dev, pkgs, logging, i);
          return Err(AddError(e, pkgs[i]));
        }
        if logging {
          InstalledLinesSnoc(dev, pkgs, i);
          Assoc(old(events), InstalledLines(dev, pkgs[..i]), [Log(InstalledLine(dev, pkgs[i]))]);
          events := events + [Log(InstalledLine(dev, pkgs[i]))];
        }
        AllSucceedSplit(env.outcome, start, start + i, start + i + 1);
        i := i + 1;
      }
      assert pkgs[..i] == pkgs;
      AddTraceAllOk(env.outcome, projectDir, start, dev, pkgs, logging);
      r := Ok(Unit);
    }
    /**
     * A pass over the registry jobs: one `add` call per job, in order. A
     * stopping pass (the blocking first pass) returns the first failed
     * call's error; otherwise failures are dropped.
     */
    method RunPass(projectDir: string, jobs: seq<AddJob>, stopOnError: bool, logging: bool) returns (r: Result<Unit, string>)
      modifies this`procs, this`events
      ensures var t := PassTrace(env.outcome, projectDir, |old(procs)|, jobs, stopOnError, logging);
        procs == old(procs) + t.procs && events == old(events) + t.logs && r == t.result
    {
      ghost var whole := PassTrace(env.outcome, projectDir, |procs|, jobs, stopOnError, logging);
      ghost var rest := whole;
      ghost var done: seq<Proc> := [];
      ghost var said: seq<Event> := [];
      var i := 0;
      assert jobs[i..] == jobs && done + rest.procs == rest.procs && said + rest.logs == rest.logs;
      while i < |jobs|
        invariant 0 <= i <= |jobs|
        invariant procs == old(procs) + done && events == old(events) + said
        invariant rest == PassTrace(env.outcome, projectDir, |procs|, jobs[i..], stopOnError, logging)
        invariant whole.procs == done + rest.procs && whole.logs == said + rest.logs && whole.result == rest.result
      {
        ghost var here := |procs|;
        var res := AddPackages(projectDir, jobs[i].dev, jobs[i].pkgs, logging);
        ghost var first := AddTrace(env.outcome, projectDir, here, jobs[i].dev, jobs[i].pkgs, logging);
        var j := i + 1;
        ghost var next := PassTrace(env.outcome, projectDir, |procs|, jobs[j..], stopOnError, logging);
        PassJobStep(env.outcome, projectDir, jobs, stopOnError, logging, i, here, first, |procs|, rest, next, whole, done, said);
        Assoc(old(procs), done, first.procs);
        Assoc(old(events), said, first.logs);
        if res.Err? && stopOnError {
          return res;
        }
        done, said, rest := done + first.procs, said + first.logs, next;
        i := j;
      }
      assert jobs[i..] == [] && done + rest.procs == done && said + rest.logs == said;
      r := Ok(Unit);
    }
    /**
     * The patch phase: the import step and, in blocking mode, the pinia
     * rewrite on the entry file (`main.ts`, else `main.js`, if either
     * exists), then the stylesheet and the store, each only where absent.
     */
    method PatchProject(projectDir: string, version: string, lang: string, features: seq<string>, blocking: bool)
      modifies this`files
      ensures files == PatchedFiles(old(files), projectDir, version, lang, features, blocking)
    {
      var target := EntryPath(files, projectDir);
      if target.Some? {
        var content := PrependImports(features, files[target.value]);
        if RewritesPinia(version, features, blocking) {
          content := PiniaRewrite(content);
        }
        assert content == EntryPatch(files[target.value], version, features, blocking);
        files := files[target.value := content];
      }
      ghost var entryDone := files;
      assert entryDone == PatchEntry(old(files), projectDir, version, features, blocking);
      if "sass" in features && ScssPath(projectDir) !in files {
        files := files[ScssPath(projectDir) := ScssAsset];
      }
      ghost var sassDone := files;
      assert sassDone == if "sass" in features then WriteIfAbsent(entryDone, ScssPath(projectDir), ScssAsset) else entryDone;
      if version == "vue3" && "pinia" in features && CounterPath(projectDir, lang) !in files {
        files := files[CounterPath(projectDir, lang) := CounterAsset(lang)];
      }
      assert files == if version == "vue3" && "pinia" in features then WriteIfAbsent(sassDone, CounterPath(projectDir, lang), CounterAsset(lang)) else sassDone;
    }

    /** `create_project`: the blocking pipeline. */
    method CreateProject(req: Request) returns (r: Result<Unit, string>)
      modifies this`files, this`procs, this`events
      ensures var run := Blocking(env, req, |old(procs)|);
        r == run.result && procs == old(procs) + run.procs && files == FilesAt(run.stage, env, req, old(files), true)
      ensures events == old(events)
    {
      if env.tool.None? {
        return Err(ToolNotFound);
      }
      var guard := Guard(req.directory, req.name, env.dirState, CreationAborted);
      if guard.Err? {
        return Err(guard.error);
      }
      var gen := BlockingArgs(req.version, req.lang, req.name, req.features);
      if gen.Err? {
        return Err(gen.error);
      }
      r := Scaffold(req, Proc(req.directory, gen.value.args, gen.value.ciEnv));
    }

    /** `create_project` once its checks passed: the generator, then the rest of the pipeline. */
    method Scaffold(req: Request, genProc: Proc) returns (r: Result<Unit, string>)
      modifies this`files, this`procs, this`events
      ensures var run := BlockingFrom(env, req, |old(procs)|, genProc);
        r == run.result && procs == old(procs) + run.procs && files == FilesAt(run.stage, env, req, old(files), true)
      ensures events == old(events)
    {
      var ge := Spawn(genProc.cwd, genProc.args, genProc.ciEnv);
      if ge.SpawnError? {
        return Err(ge.reason);
      }
      if !ge.success {
        return Err(CreationFailed);
      }
      files := files + env.generated;
      ghost var next := |old(procs)| + 1;
      ghost var rest := Installed(env, req, next);
      assert |procs| == next;
      r := Install(req);
      Assoc(old(procs), [genProc], rest.procs);
    }

    /** After the generator: the base install, the config directory, then the passes. */
    method Install(req: Request) returns (r: Result<Unit, string>)
      modifies this`files, this`procs, this`events
      ensures var run := Installed(env, req, |old(procs)|);
        && r == run.result && procs == old(procs) + run.procs
        && files == if run.stage == Patched then PatchedFiles(old(files), ProjectDir(req), req.version, req.lang, req.features, true)
                    else old(files)
      ensures events == old(events)
    {
      var projectDir := ProjectDir(req);
      ghost var start := |procs|;
      var ie := Spawn(projectDir, InstallArgs, false);
      if ie.SpawnError? {
        return Err(ie.reason);
      }
      if !env.configDir {
        return Err(ConfigDirUnavailable);
      }
      var items := JobComponents(env.registry);
      var plan := FirstPlan(items, req);
      var custom := CustomPlan(items, req.features, req.version, req.lang);
      ghost var next := start + 1;
      ghost var passes := BlockingPasses(env.outcome, projectDir, plan, custom, next);
      assert |procs| == next;
      r := InstallFeatures(req, plan, custom);
      Assoc(old(procs), [Proc(projectDir, InstallArgs, false)], passes.procs);
    }

    /** The two passes over the registry, then the patch phase if the first pass succeeded. */
    method InstallFeatures(req: Request, plan: seq<AddJob>, custom: seq<AddJob>) returns (r: Result<Unit, string>)
      modifies this`files, this`procs, this`events
      ensures var run := BlockingPasses(env.outcome, ProjectDir(req), plan, custom, |old(procs)|);
        && r == run.result && procs == old(procs) + run.procs
        && files == if run.stage == Patched then PatchedFiles(old(files), ProjectDir(req), req.version, req.lang, req.features, true)
                    else old(files)
      ensures events == old(events)
    {
      r := RunPasses(ProjectDir(req), plan, custom);
      if r.Ok? {
        PatchProject(ProjectDir(req), req.version, req.lang, req.features, true);
      }
    }

    /**
     * The stopping first pass over the registry's packages, then, if it
     * succeeded, the custom-key pass whose failures are dropped. Nothing is
     * reported on the way.
     */
    method RunPasses(projectDir: string, plan: seq<AddJob>, custom: seq<AddJob>) returns (r: Result<Unit, string>)
      modifies this`procs, this`events
      ensures var run := BlockingPasses(env.outcome, projectDir, plan, custom, |old(procs)|);
        && r == run.result && procs == old(procs) + run.procs && events == old(events)
        && (run.stage == Patched <==> r.Ok?)
    {
      ghost var start := |procs|;
      ghost var first := PassTrace(env.outcome, projectDir, start, plan, true, false);
      ghost var m := start + |first.procs|;
      ghost var second := PassTrace(env.outcome, projectDir, m, custom, false, false);
      ghost var run := BlockingPasses(env.outcome, projectDir, plan, custom, start);
      PassesStep(env.outcome, projectDir, plan, custom, start, first, m, second, run);
      QuietPass(env.outcome, projectDir, start, plan, true);
      QuietPass(env.outcome, projectDir, m, custom, false);
      r := RunPass(projectDir, plan, true, false);
      if r.Err? {
        return;
      }
      assert |procs| == m;
      var _ := RunPass(projectDir, custom, false, false);
      Assoc(old(procs), first.procs, second.procs);
      r := Ok(Unit);
    }

    /** `create_project_async`'s background job: the streaming pipeline. */
    method CreateProjectAsync(req: Request)
      modifies this`files, this`procs, this`events
      ensures var s := Streaming(env, req, |old(procs)|);
        events == old(events) + s.events && procs == old(procs) + s.procs && files == FilesAt(s.stage, env, req, old(files), false)
    {
      ghost var start := |procs|;
      events := events + IntroLines(req);
      if env.tool.None? {
        events := events + [Done(false, Some(ToolNotFound))];
        return;
      }
      var guard := Guard(req.directory, req.name, env.dirState, CreationAborted);
      if guard.Err? {
        events := events + [Done(false, Some(guard.error))];
        return;
      }
      events := events + [Log(ScaffoldingLine)];
      ghost var lines := IntroLines(req) + [Log(ScaffoldingLine)];
      assert events == old(events) + lines;
      ScaffoldAsync(req);
      StreamingFromAfter(env, req, start, lines);
      Assoc(old(events), lines, StreamingFrom(env, req, start, []).events);
    }

    /** The streaming job once its checks passed: the generator, the install, the pass, the patch. */
    method ScaffoldAsync(req: Request)
      modifies this`files, this`procs, this`events
      ensures var s := StreamingFrom(env, req, |old(procs)|, []);
        events == old(events) + s.events && procs == old(procs) + s.procs && files == FilesAt(s.stage, env, req, old(files), false)
    {
      var gen := StreamingArgs(req.version, req.lang, req.name);
      if gen.Err? {
        events := events + [Done(false, Some(gen.error))];
        return;
      }
      GenerateAsync(req, Proc(req.directory, gen.value.args, gen.value.ciEnv));
    }

    /** The generator process and what follows it: a failure is reported with the generator's output. */
    method GenerateAsync(req: Request, genProc: Proc)
      modifies this`files, this`procs, this`events
      ensures var s := StreamingGenerated(env, req, |old(procs)|, [], genProc);
        events == old(events) + s.events && procs == old(procs) + s.procs && files == FilesAt(s.stage, env, req, old(files), false)
    {
      ghost var start := |procs|;
      var ge := Spawn(genProc.cwd, genProc.args, genProc.ciEnv);
      if ge.SpawnError? {
        events := events + [Done(false, Some(SpawnFailedPrefix + ge.reason))];
        return;
      }
      if !ge.success {
        ReportFailedGenerator(ge.stdout, ge.stderr);
        GeneratorFailed(env, req, start, genProc);
        return;
      }
      ghost var next := start + 2;
      ghost var rest := StreamingPass(env.outcome, ProjectDir(req), StreamingPlan(env, req), next, [],
                                      [Proc(ProjectDir(req), InstallArgs, false)]);
      assert |procs| + 1 == next;
      FinishAsync(req);
      GeneratorSucceeded(env, req, start, genProc);
      Assoc(old(procs), [genProc], rest.procs);
    }

    /** Logs the generator's output, then reports the failed creation. */
    method ReportFailedGenerator(stdout: string, stderr: string)
      modifies this`events
      ensures events == old(events) + (OutputLines(stdout, stderr) + [Done(false, Some(CreationFailed))])
    {
      LogOutput(stdout, stderr);
      events := events + [Done(false, Some(CreationFailed))];
    }

    /** Logs the generator's trimmed standard output and error, each only when not empty. */
    method LogOutput(stdout: string, stderr: string)
      modifies this`events
      ensures events == old(events) + OutputLines(stdout, stderr)
    {
      var out := Trim(stdout);
      var err := Trim(stderr);
      if out != "" {
        events := events + [Log(OutputPrefix + out)];
      }
      if err != "" {
        events := events + [Log(ErrorOutputPrefix + err)];
      }
    }

    /**
     * The streaming job after its generator succeeded: the base install, whose
     * outcome is ignored, the logged first pass and the patch.
     */
    method FinishAsync(req: Request)
      modifies this`files, this`procs, this`events
      ensures var s := StreamingPass(env.outcome, ProjectDir(req), StreamingPlan(env, req), |old(procs)| + 1, [],
                                     [Proc(ProjectDir(req), InstallArgs, false)]);
        events == old(events) + s.events && procs == old(procs) + s.procs && files == FilesAt(Patched, env, req, old(files), false)
    {
      ghost var start := |procs|;
      events := events + [Log(ScaffoldedLine)];
      files := files + env.generated;
      var projectDir := ProjectDir(req);
      var _ := Spawn(projectDir, InstallArgs, false);
      ghost var next := start + 1;
      assert |procs| == next;
      events := events + [Log(InstalledAllLine)];
      var plan := StreamingPlan(env, req);
      ghost var first := PassTrace(env.outcome, projectDir, next, plan, false, true);
      ghost var generated := files;
      var _ := RunPass(projectDir, plan, false, true);
      ghost var passed := events;
      PatchProject(projectDir, req.version, req.lang, req.features, false);
      assert files == FilesAt(Patched, env, req, old(files), false) by {
        assert generated == old(files) + env.generated;
      }
      events := events + [Log(CreatedLine)];
      events := events + [Done(true, None)];
      assert events == passed + [Log(CreatedLine)] + [Done(true, None)];
      StreamingPassEnd(env.outcome, projectDir, plan, next, old(events), events, old(procs), procs, first);
    }
  }
}
