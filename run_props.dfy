/** What `run` promises, stated over RunTrace: where the push sits among the events,
    which backend calls each mode makes and with what arguments, the sweep's calls, the
    errors raised before any call, and when the output directory is pulled back. */
module RunProperties {
  import opened Wrappers
  import opened Strings
  import opened Config
  import opened RunCommand
  import Sync

  /** An exception, if any, is the last event: nothing catches it. */
  predicate RaiseLast(t: seq<Event>)
  {
    forall i :: 0 <= i < |t| - 1 ==> !t[i].Raise?
  }

  /** Only backend calls and the exception that may end them. */
  predicate OnlyCalls(t: seq<Event>)
  {
    forall i :: 0 <= i < |t| ==> t[i].Exec? || t[i].Raise?
  }

  /** The shared steps (lookup, excludes, push) succeeded, so the dispatch runs. */
  predicate StagedOk(config: Config, parsed: Parsed, world: World)
  {
    Sync.Locate(config, parsed).Ok? && Sync.Excludes(config).Ok? && !world.pushFails
  }

  /** A sweep only calls the backend; its exception, raised by the first failing call in
      the range, ends it. */
  lemma SweepShape(env: Env, call: SlurmCall, lo: nat, hi: nat, begin: nat, world: World)
    requires begin <= lo <= hi
    ensures var t := SweepTrace(env, call, lo, hi, begin, world);
      && OnlyCalls(t) && RaiseLast(t)
      && (EndsRaising(t) <==> SweepFails(lo, hi, begin, world))
      && (t != [] && !EndsRaising(t) ==> t[|t| - 1].Exec?)
  {
    SweepClosed(env, call, lo, hi, begin, world);
  }

  /** The backend calls of consecutive sweep indices. */
  lemma {:induction false} SweepExecsCalls(env: Env, call: SlurmCall, lo: nat, hi: nat)
    requires lo <= hi
    ensures var calls := Execs(SweepExecs(env, call, lo, hi));
      && |calls| == hi - lo
      && forall i :: 0 <= i < hi - lo ==> calls[i] == Slurm(call, env[SweepIdxVar := Int(lo + i)], true)
    decreases hi - lo
  {
    if lo < hi {
      var t := SweepExecs(env, call, lo, hi);
      var rest := SweepExecs(env, call, lo + 1, hi);
      var first := Exec(Slurm(call, env[SweepIdxVar := Int(lo)], true));
      assert t == [first] + rest by {
        assert forall i :: 0 <= i < |rest| ==> rest[i] == t[i + 1];
      }
      SweepExecsCalls(env, call, lo + 1, hi);
      ExecsCons(first, rest);
      var calls := Execs(t);
      assert calls == [first.call] + Execs(rest);
      forall i | 0 <= i < hi - lo
        ensures calls[i] == Slurm(call, env[SweepIdxVar := Int(lo + i)], true)
      {
        if i > 0 {
          assert calls[i] == Execs(rest)[i - 1];
        }
      }
    }
  }

  /** A sweep makes its calls in ascending index order, each one with `LMD_RUN_SWEEP_IDX`
      set to its index and `sweeping` set, up to the end of the range or up to and
      including the first failing call. */
  lemma SweepInOrder(env: Env, call: SlurmCall, lo: nat, hi: nat, begin: nat, world: World)
    requires begin <= lo <= hi
    ensures var calls := Execs(SweepTrace(env, call, lo, hi, begin, world));
      var n := SweepCalls(lo, hi, begin, world);
      && |calls| == n
      && (forall i :: 0 <= i < n ==> calls[i] == Slurm(call, env[SweepIdxVar := Int(lo + i)], true))
  {
    var n := SweepCalls(lo, hi, begin, world);
    var tail: seq<Event> := if SweepFails(lo, hi, begin, world) then [Raise(TransportFailure)] else [];
    SweepClosed(env, call, lo, hi, begin, world);
    SweepExecsCalls(env, call, lo, lo + n);
    ExecsAppend(SweepExecs(env, call, lo, lo + n), tail);
    ExecsNone(tail);
  }

  /** A backend call is an Exec, followed by an exception exactly when it fails. */
  lemma CallShape(call: Backend, k: nat, world: World)
    ensures var t := CallTrace(call, k, world);
      OnlyCalls(t) && RaiseLast(t) && Execs(t) == [call]
      && (EndsRaising(t) <==> world.failingExec == Some(k))
  {
    var t := CallTrace(call, k, world);
    ExecsAppend([Exec(call)], t[1..]);
    ExecsNone(t[1..]);
    assert [Exec(call)] + t[1..] == t;
  }

  /** The dispatch only calls backends and raises; an exception is its last event. */
  lemma DispatchShape(config: Config, parsed: Parsed, workdir: string, s: Sync.Staged, env: Env, world: World)
    ensures var d := DispatchTrace(config, parsed, workdir, s, env, world);
      OnlyCalls(d) && RaiseLast(d) && |d| > 0 && (d[|d| - 1].Exec? || d[|d| - 1].Raise?)
  {
    var m := s.machine;
    var mode := ResolveMode(parsed.mode, m);
    var d := DispatchTrace(config, parsed, workdir, s, env, world);
    if mode == "ssh" {
      CallShape(Ssh(parsed.remoteCommand, workdir, m.startup, parsed.disown, parsed.xForward, env, parsed.dryRun), 0, world);
    } else if mode == "docker" && !parsed.dryRun && ResolveImage(config, parsed, m).Ok? {
      CallShape(Docker(ResolveImage(config, parsed, m).value, s.user + "-" + s.project.name, parsed.remoteCommand,
                       workdir, m.startup, true, true, parsed.xForward, env), 0, world);
    } else if mode == "slurm" && ResolveSlurmConf(config, parsed, m).Ok? {
      var call := SlurmCallOf(parsed, workdir, m, ResolveSlurmConf(config, parsed, m).value);
      if !Truthy(parsed.sweep) {
        CallShape(Slurm(call, env, false), 0, world);
      } else if parsed.disown && ParseSweep(parsed.sweep.value).Some? {
        var (b, e) := ParseSweep(parsed.sweep.value).value;
        if b < e {
          SweepShape(env, call, b, e, b, world);
          assert |d| > 0 by {
            assert d == SweepTrace(env, call, b, e, b, world);
          }
        }
      }
    }
  }

  /** The backend calls of `run` are those of the dispatch, and only when the shared steps
      succeeded; the pull adds none. */
  lemma RunExecs(config: Config, parsed: Parsed, workdir: string, layout: Layout, world: World)
    ensures var t := RunTrace(config, parsed, workdir, layout, world);
      && (!StagedOk(config, parsed, world) ==> t == Sync.SyncTrace(config, parsed, layout, world.pushFails) && Execs(t) == [])
      && (StagedOk(config, parsed, world) ==>
            var s := Sync.Locate(config, parsed).value;
            Execs(t) == Execs(DispatchTrace(config, parsed, workdir, s, MergeEnv(config.project, s.machine), world)))
  {
    var t := RunTrace(config, parsed, workdir, layout, world);
    var pre := Sync.SyncTrace(config, parsed, layout, world.pushFails);
    if StagedOk(config, parsed, world) {
      var s := Sync.Locate(config, parsed).value;
      var d := DispatchTrace(config, parsed, workdir, s, MergeEnv(config.project, s.machine), world);
      var pull := if EndsRaising(d) then [] else PullTrace(parsed, s, layout, world);
      RunStaged(config, parsed, workdir, layout, world);
      ExecsAppend(pre + d, pull);
      ExecsAppend(pre, d);
      ExecsNone(pre);
      ExecsNone(pull);
    } else {
      Sync.SyncSinglePush(config, parsed, layout, world.pushFails);
    }
  }

  /** The events of a pull step: listings and pulls, and only as the last one an exception. */
  predicate PullStep(pull: seq<Event>)
  {
    forall i :: 0 <= i < |pull| ==> pull[i].ListOut? || pull[i].Pull? || (i == |pull| - 1 && pull[i].Raise?)
  }

  /** A trace made of a push, a dispatch and a pull step: an exception can only end
      it, nothing is pulled after one raised by the dispatch, and no later event is a
      push. */
  lemma StagedShape(p: Event, d: seq<Event>, pull: seq<Event>)
    requires p.Push? && OnlyCalls(d) && RaiseLast(d) && |d| > 0
    requires PullStep(pull)
    requires EndsRaising(d) ==> pull == []
    ensures var t := [p] + d + pull;
      && RaiseLast(t) && (EndsRaising(d) ==> NoPull(t))
      && (forall i :: 0 < i < |t| ==> !t[i].Push?)
      && (EndsRaising(t) <==> EndsRaising(d) || EndsRaising(pull))
      && (forall e: Event :: e.ListOut? || e.Pull? ==> (e in t <==> e in pull))
  {
    var t := [p] + d + pull;
    assert forall i :: 1 <= i < 1 + |d| ==> t[i] == d[i - 1];
    assert forall i :: 1 + |d| <= i < |t| ==> t[i] == pull[i - 1 - |d|];
  }

  /** The events of the shared steps: one or two, the push only first, an exception
      only last, and never a listing or a pull. */
  lemma SyncShape(config: Config, parsed: Parsed, layout: Layout, pushFails: bool)
    ensures var t := Sync.SyncTrace(config, parsed, layout, pushFails);
      && 1 <= |t| <= 2 && RaiseLast(t) && NoPull(t)
      && (forall i :: 0 < i < |t| ==> !t[i].Push?)
      && (Sync.Locate(config, parsed).Ok? && Sync.Excludes(config).Ok? ==> t[0].Push?)
      && (Sync.Locate(config, parsed).Ok? && Sync.Excludes(config).Ok? && !pushFails ==> |t| == 1)
  {
  }

  /** When the shared steps succeed, `run` is their single push, then the dispatch, then
      the pull step when the dispatch raised nothing. */
  lemma RunStaged(config: Config, parsed: Parsed, workdir: string, layout: Layout, world: World)
    requires StagedOk(config, parsed, world)
    ensures var s := Sync.Locate(config, parsed).value;
      var d := DispatchTrace(config, parsed, workdir, s, MergeEnv(config.project, s.machine), world);
      var pull := if EndsRaising(d) then [] else PullTrace(parsed, s, layout, world);
      var pre := Sync.SyncTrace(config, parsed, layout, world.pushFails);
      var t := RunTrace(config, parsed, workdir, layout, world);
      && pre == [t[0]] && t[0].Push?
      && t == pre + d + pull
      && OnlyCalls(d) && RaiseLast(d) && |d| > 0
      && PullStep(pull)
  {
    var s := Sync.Locate(config, parsed).value;
    SyncShape(config, parsed, layout, world.pushFails);
    DispatchShape(config, parsed, workdir, s, MergeEnv(config.project, s.machine), world);
  }

  /** An exception ends every trace of `run`. A trace that ends with one lists and pulls
      nothing, unless the exception is the failure of the pull itself, right after it. */
  lemma RunRaiseEnds(config: Config, parsed: Parsed, workdir: string, layout: Layout, world: World)
    ensures var t := RunTrace(config, parsed, workdir, layout, world);
      && |t| > 0 && RaiseLast(t)
      && (EndsRaising(t) ==> NoPull(t) || (world.pullFails && |t| >= 2 && t[|t| - 2].Pull?))
  {
    if StagedOk(config, parsed, world) {
      var t := RunTrace(config, parsed, workdir, layout, world);
      var s := Sync.Locate(config, parsed).value;
      var d := DispatchTrace(config, parsed, workdir, s, MergeEnv(config.project, s.machine), world);
      var pull := if EndsRaising(d) then [] else PullTrace(parsed, s, layout, world);
      RunStaged(config, parsed, workdir, layout, world);
      StagedShape(t[0], d, pull);
      if EndsRaising(t) && !EndsRaising(d) {
        assert EndsRaising(pull) && |pull| == 3 && pull[1].Pull?;
        assert t[|t| - 2] == pull[1];
      }
    } else {
      SyncShape(config, parsed, layout, world.pushFails);
    }
  }

  /** `run` pushes the project at most once, as its first event, and calls no backend
      unless that push happened. */
  lemma RunPushFirst(config: Config, parsed: Parsed, workdir: string, layout: Layout, world: World)
    ensures var t := RunTrace(config, parsed, workdir, layout, world);
      && |t| > 0
      && (forall i :: 0 < i < |t| ==> !t[i].Push?)
      && Pushes(t) <= 1
      && (Pushes(t) == 1 <==> t[0].Push?)
      && (Execs(t) != [] ==> t[0].Push?)
  {
    var t := RunTrace(config, parsed, workdir, layout, world);
    RunExecs(config, parsed, workdir, layout, world);
    if StagedOk(config, parsed, world) {
      var s := Sync.Locate(config, parsed).value;
      var d := DispatchTrace(config, parsed, workdir, s, MergeEnv(config.project, s.machine), world);
      var pull := if EndsRaising(d) then [] else PullTrace(parsed, s, layout, world);
      RunStaged(config, parsed, workdir, layout, world);
      StagedShape(t[0], d, pull);
    } else {
      SyncShape(config, parsed, layout, world.pushFails);
    }
    assert t == [t[0]] + t[1..];
    PushesAppend([t[0]], t[1..]);
    PushesNone(t[1..]);
  }

  /** An unknown machine raises KeyError, naming the configured machines, before anything
      reaches the outside world. */
  lemma RunUnknownMachine(config: Config, parsed: Parsed, workdir: string, layout: Layout, world: World)
    requires parsed.machine !in config.machines
    ensures RunTrace(config, parsed, workdir, layout, world) == [Raise(UnknownMachine(parsed.machine, config.machines.Keys))]
    ensures ClassOf(RunTrace(config, parsed, workdir, layout, world)[0].error) == KeyError
  {
    Sync.SyncUnknownMachine(config, parsed, layout, world.pushFails);
  }

  /** `run` starts exactly as `sync` does: the events of `sync` are a prefix of those of
      `run`, and `run` stops there when the shared steps raise. */
  lemma RunExtendsSync(config: Config, parsed: Parsed, workdir: string, layout: Layout, world: World)
    ensures var pre := Sync.SyncTrace(config, parsed, layout, world.pushFails);
      var t := RunTrace(config, parsed, workdir, layout, world);
      |pre| <= |t| && t[..|pre|] == pre
      && (EndsRaising(pre) ==> t == pre)
      && (StagedOk(config, parsed, world) <==> !EndsRaising(pre))
  {
    Sync.SyncSinglePush(config, parsed, layout, world.pushFails);
  }

  /** ssh mode: one call of the ssh backend, with the command, the working directory, the
      machine's startup, disown, x-forwarding, dry-run and the merged environment. */
  lemma RunSsh(config: Config, parsed: Parsed, workdir: string, layout: Layout, world: World)
    requires StagedOk(config, parsed, world)
    requires ResolveMode(parsed.mode, Sync.Locate(config, parsed).value.machine) == "ssh"
    ensures var m := Sync.Locate(config, parsed).value.machine;
      Execs(RunTrace(config, parsed, workdir, layout, world))
        == [Ssh(parsed.remoteCommand, workdir, m.startup, parsed.disown, parsed.xForward,
                MergeEnv(config.project, m), parsed.dryRun)]
  {
    var s := Sync.Locate(config, parsed).value;
    RunExecs(config, parsed, workdir, layout, world);
    CallShape(Ssh(parsed.remoteCommand, workdir, s.machine.startup, parsed.disown, parsed.xForward,
                  MergeEnv(config.project, s.machine), parsed.dryRun), 0, world);
  }

  /** docker mode with `--dry_run`: the project has already been pushed (with rsync's own
      dry run) when the ValueError is raised; no container is started and nothing is pulled. */
  lemma RunDockerDryRun(config: Config, parsed: Parsed, workdir: string, layout: Layout, world: World)
    requires StagedOk(config, parsed, world) && parsed.dryRun
    requires ResolveMode(parsed.mode, Sync.Locate(config, parsed).value.machine) == "docker"
    ensures var t := RunTrace(config, parsed, workdir, layout, world);
      && t == Sync.SyncTrace(config, parsed, layout, world.pushFails) + [Raise(DockerDryRun)]
      && |t| == 2 && t[0].Push? && t[0].dryRun
      && ClassOf(t[1].error) == ValueError
  {
  }

  /** docker mode without `--dry_run`: when the image resolves, one container call, named
      after the user and the project, with a shell and the GPUs; otherwise the resolution
      error ends the command before any call. */
  lemma RunDocker(config: Config, parsed: Parsed, workdir: string, layout: Layout, world: World)
    requires StagedOk(config, parsed, world) && !parsed.dryRun
    requires ResolveMode(parsed.mode, Sync.Locate(config, parsed).value.machine) == "docker"
    ensures var s := Sync.Locate(config, parsed).value;
      var image := ResolveImage(config, parsed, s.machine);
      var t := RunTrace(config, parsed, workdir, layout, world);
      && (image.Ok? ==>
            Execs(t) == [Docker(image.value, s.user + "-" + parsed.name, parsed.remoteCommand, workdir,
                                s.machine.startup, true, true, parsed.xForward, MergeEnv(config.project, s.machine))])
      && (image.Err? ==> Execs(t) == [] && EndsRaising(t) && t[|t| - 1].error == image.error)
  {
    var s := Sync.Locate(config, parsed).value;
    var image := ResolveImage(config, parsed, s.machine);
    RunExecs(config, parsed, workdir, layout, world);
    if image.Ok? {
      CallShape(Docker(image.value, s.user + "-" + s.project.name, parsed.remoteCommand, workdir,
                       s.machine.startup, true, true, parsed.xForward, MergeEnv(config.project, s.machine)), 0, world);
    } else {
      ExecsNone([Raise(image.error)]);
    }
  }

  /** slurm mode without `--sweep`: one call, interactive unless `--disown`, with the
      environment as merged and no sweep index. */
  lemma RunSlurmSingle(config: Config, parsed: Parsed, workdir: string, layout: Layout, world: World)
    requires StagedOk(config, parsed, world) && !Truthy(parsed.sweep)
    requires ResolveMode(parsed.mode, Sync.Locate(config, parsed).value.machine) == "slurm"
    requires ResolveSlurmConf(config, parsed, Sync.Locate(config, parsed).value.machine).Ok?
    ensures var m := Sync.Locate(config, parsed).value.machine;
      var sconf := ResolveSlurmConf(config, parsed, m).value;
      Execs(RunTrace(config, parsed, workdir, layout, world))
        == [Slurm(SlurmCall(sconf, parsed.remoteCommand, workdir, m.startup, !parsed.disown,
                            parsed.numSequence, parsed.dryRun), MergeEnv(config.project, m), false)]
  {
    var m := Sync.Locate(config, parsed).value.machine;
    RunExecs(config, parsed, workdir, layout, world);
    CallShape(Slurm(SlurmCallOf(parsed, workdir, m, ResolveSlurmConf(config, parsed, m).value),
                    MergeEnv(config.project, m), false), 0, world);
  }

  /** slurm mode with `--sweep b-e` and `--disown`, when no call fails: `e - b` calls, in
      ascending order of the index `b + i` stored in `LMD_RUN_SWEEP_IDX`, each non-interactive
      and marked as sweeping; the pull step then follows. */
  lemma RunSweep(config: Config, parsed: Parsed, workdir: string, layout: Layout, world: World, b: nat, e: nat)
    requires StagedOk(config, parsed, world) && parsed.disown && world.failingExec.None?
    requires ResolveMode(parsed.mode, Sync.Locate(config, parsed).value.machine) == "slurm"
    requires ResolveSlurmConf(config, parsed, Sync.Locate(config, parsed).value.machine).Ok?
    requires Truthy(parsed.sweep) && ParseSweep(parsed.sweep.value) == Some((b, e)) && b < e
    ensures var s := Sync.Locate(config, parsed).value;
      var sconf := ResolveSlurmConf(config, parsed, s.machine).value;
      var env := MergeEnv(config.project, s.machine);
      var calls := Execs(RunTrace(config, parsed, workdir, layout, world));
      && |calls| == e - b
      && (forall i :: 0 <= i < e - b ==>
            calls[i] == Slurm(SlurmCall(sconf, parsed.remoteCommand, workdir, s.machine.startup, false,
                                        parsed.numSequence, parsed.dryRun),
                              env[SweepIdxVar := Int(b + i)], true))
      && RunTrace(config, parsed, workdir, layout, world)
           == Sync.SyncTrace(config, parsed, layout, world.pushFails)
              + SweepTrace(env, SlurmCallOf(parsed, workdir, s.machine, sconf), b, e, b, world)
              + PullTrace(parsed, s, layout, world)
  {
    var s := Sync.Locate(config, parsed).value;
    var sconf := ResolveSlurmConf(config, parsed, s.machine).value;
    var env := MergeEnv(config.project, s.machine);
    RunExecs(config, parsed, workdir, layout, world);
    SweepInOrder(env, SlurmCallOf(parsed, workdir, s.machine, sconf), b, e, b, world);
    SweepShape(env, SlurmCallOf(parsed, workdir, s.machine, sconf), b, e, b, world);
  }

  /** The error a rejected `--sweep` raises, given whether `--disown` was passed and how the
      range read. */
  function SweepError(disown: bool, sweep: string, range: Option<(nat, nat)>): (e: Error)
    ensures ClassOf(e) == (if disown && range.None? then ValueError else AssertionError)
  {
    if !disown then SweepWithoutDisown
    else if range.None? then MalformedSweep(sweep)
    else EmptySweepRange(range.value.0, range.value.1)
  }

  /** The error a rejected `--sweep` raises. */
  function SweepRejection(parsed: Parsed): (e: Error)
    requires Truthy(parsed.sweep)
    ensures ClassOf(e) == (if parsed.disown && ParseSweep(parsed.sweep.value).None? then ValueError else AssertionError)
  {
    SweepError(parsed.disown, parsed.sweep.value, ParseSweep(parsed.sweep.value))
  }

  /** The dispatch of a rejected `--sweep` is the one exception. */
  lemma DispatchSweepRejected(config: Config, parsed: Parsed, workdir: string, s: Sync.Staged, env: Env, world: World)
    requires Truthy(parsed.sweep)
    requires ResolveMode(parsed.mode, s.machine) == "slurm" && ResolveSlurmConf(config, parsed, s.machine).Ok?
    requires var range := ParseSweep(parsed.sweep.value);
      !parsed.disown || range.None? || range.value.0 >= range.value.1
    ensures DispatchTrace(config, parsed, workdir, s, env, world) == [Raise(SweepRejection(parsed))]
  {
  }

  /** slurm mode with `--sweep`: a missing `--disown` (AssertionError), a range that does not
      read as two integers (ValueError) and an empty range (AssertionError) are all raised
      right after the push, before any call. */
  lemma RunSweepRejected(config: Config, parsed: Parsed, workdir: string, layout: Layout, world: World)
    requires StagedOk(config, parsed, world) && Truthy(parsed.sweep)
    requires ResolveMode(parsed.mode, Sync.Locate(config, parsed).value.machine) == "slurm"
    requires ResolveSlurmConf(config, parsed, Sync.Locate(config, parsed).value.machine).Ok?
    requires var range := ParseSweep(parsed.sweep.value);
      !parsed.disown || range.None? || range.value.0 >= range.value.1
    ensures var t := RunTrace(config, parsed, workdir, layout, world);
      && t == Sync.SyncTrace(config, parsed, layout, world.pushFails) + [Raise(SweepRejection(parsed))]
      && Execs(t) == [] && NoPull(t)
      && ClassOf(t[1].error) == (if parsed.disown && ParseSweep(parsed.sweep.value).None? then ValueError else AssertionError)
  {
    var t := RunTrace(config, parsed, workdir, layout, world);
    var s := Sync.Locate(config, parsed).value;
    var e := SweepRejection(parsed);
    var d := DispatchTrace(config, parsed, workdir, s, MergeEnv(config.project, s.machine), world);
    DispatchSweepRejected(config, parsed, workdir, s, MergeEnv(config.project, s.machine), world);
    assert d == [Raise(e)] && EndsRaising(d);
    RunStaged(config, parsed, workdir, layout, world);
    assert t == [t[0]] + d;
    assert t == [t[0], Raise(e)];
    ExecsAppend([t[0]], [Raise(e)]);
    ExecsNone([t[0]]);
    ExecsNone([Raise(e)]);
  }

  /** slurm mode whose configuration cannot be resolved: a missing `slurm-configs` table
      (KeyError), a `--conf` name missing from it (AttributeError) or, without `--conf`, a
      missing machine `slurm` table (TypeError) is raised right after the push, before
      any call. */
  lemma RunSlurmConfRejected(config: Config, parsed: Parsed, workdir: string, layout: Layout, world: World)
    requires StagedOk(config, parsed, world)
    requires ResolveMode(parsed.mode, Sync.Locate(config, parsed).value.machine) == "slurm"
    requires ResolveSlurmConf(config, parsed, Sync.Locate(config, parsed).value.machine).Err?
    ensures var err := ResolveSlurmConf(config, parsed, Sync.Locate(config, parsed).value.machine).error;
      var t := RunTrace(config, parsed, workdir, layout, world);
      && t == Sync.SyncTrace(config, parsed, layout, world.pushFails) + [Raise(err)]
      && Execs(t) == [] && NoPull(t)
      && ClassOf(t[1].error) == (if !Truthy(parsed.conf) then TypeError
                                 else if config.slurmConfigs.None? then KeyError
                                 else AttributeError)
  {
    var t := RunTrace(config, parsed, workdir, layout, world);
    var s := Sync.Locate(config, parsed).value;
    var err := ResolveSlurmConf(config, parsed, s.machine).error;
    RunStaged(config, parsed, workdir, layout, world);
    assert DispatchTrace(config, parsed, workdir, s, MergeEnv(config.project, s.machine), world) == [Raise(err)];
    assert t == [t[0], Raise(err)];
    ExecsAppend([t[0]], [Raise(err)]);
    ExecsNone([t[0]]);
    ExecsNone([Raise(err)]);
  }

  /** The singularity modes are not implemented, and any other unknown mode is a KeyError;
      either way no backend is called and nothing is pulled. */
  lemma RunOtherModes(config: Config, parsed: Parsed, workdir: string, layout: Layout, world: World)
    requires StagedOk(config, parsed, world)
    requires ResolveMode(parsed.mode, Sync.Locate(config, parsed).value.machine) !in {"ssh", "docker", "slurm"}
    ensures var mode := ResolveMode(parsed.mode, Sync.Locate(config, parsed).value.machine);
      var t := RunTrace(config, parsed, workdir, layout, world);
      && |t| == 2 && Execs(t) == [] && NoPull(t)
      && ClassOf(t[1].error) == (if mode in {"singularity", "sing-slurm"} then NotImplementedError else KeyError)
  {
    RunExecs(config, parsed, workdir, layout, world);
    var s := Sync.Locate(config, parsed).value;
    ExecsNone(DispatchTrace(config, parsed, workdir, s, MergeEnv(config.project, s.machine), world));
  }

  /** After a dispatch that raised nothing, the remote output directory is listed exactly
      when `out_dir` is set, and copied back to `out_dir` exactly when, in addition, the
      listing counts a file; `run` then raises only when that copy fails. An exception
      from the dispatch skips both. */
  lemma RunPull(config: Config, parsed: Parsed, workdir: string, layout: Layout, world: World)
    requires StagedOk(config, parsed, world)
    ensures var s := Sync.Locate(config, parsed).value;
      var d := DispatchTrace(config, parsed, workdir, s, MergeEnv(config.project, s.machine), world);
      var t := RunTrace(config, parsed, workdir, layout, world);
      var out := Remote(s.user, s.host, layout.remoteOutdir(s.project));
      && (EndsRaising(d) ==> NoPull(t) && EndsRaising(t))
      && (!EndsRaising(d) ==>
            && (ListOut(out) in t <==> Truthy(parsed.outdir))
            && (Pull(out, parsed.outdir.GetOr(""), parsed.dryRun) in t <==> Truthy(parsed.outdir) && world.listedFiles != 0)
            && (EndsRaising(t) <==> Truthy(parsed.outdir) && world.listedFiles != 0 && world.pullFails))
  {
    var s := Sync.Locate(config, parsed).value;
    var d := DispatchTrace(config, parsed, workdir, s, MergeEnv(config.project, s.machine), world);
    var t := RunTrace(config, parsed, workdir, layout, world);
    var pull := if EndsRaising(d) then [] else PullTrace(parsed, s, layout, world);
    RunStaged(config, parsed, workdir, layout, world);
    StagedShape(t[0], d, pull);
  }

  /** A failing backend call ends `run` with its exception: nothing is listed or pulled. */
  lemma RunFailureSkipsPull(config: Config, parsed: Parsed, workdir: string, layout: Layout, world: World)
    requires StagedOk(config, parsed, world) && world.failingExec == Some(0)
    ensures var t := RunTrace(config, parsed, workdir, layout, world);
      EndsRaising(t) && NoPull(t)
  {
    var s := Sync.Locate(config, parsed).value;
    var env := MergeEnv(config.project, s.machine);
    var m := s.machine;
    var mode := ResolveMode(parsed.mode, m);
    var d := DispatchTrace(config, parsed, workdir, s, env, world);
    if mode == "ssh" {
      CallShape(Ssh(parsed.remoteCommand, workdir, m.startup, parsed.disown, parsed.xForward, env, parsed.dryRun), 0, world);
    } else if mode == "docker" && !parsed.dryRun && ResolveImage(config, parsed, m).Ok? {
      CallShape(Docker(ResolveImage(config, parsed, m).value, s.user + "-" + s.project.name, parsed.remoteCommand,
                       workdir, m.startup, true, true, parsed.xForward, env), 0, world);
    } else if mode == "slurm" && ResolveSlurmConf(config, parsed, m).Ok? {
      var call := SlurmCallOf(parsed, workdir, m, ResolveSlurmConf(config, parsed, m).value);
      if !Truthy(parsed.sweep) {
        CallShape(Slurm(call, env, false), 0, world);
      } else if parsed.disown && ParseSweep(parsed.sweep.value).Some? {
        var (b, e) := ParseSweep(parsed.sweep.value).value;
        if b < e {
          SweepShape(env, call, b, e, b, world);
        }
      }
    }
    assert EndsRaising(d);
    RunPull(config, parsed, workdir, layout, world);
  }
}
