/** `CLIRunCommand.execute` (lmd/cli/commands/run.py): after the steps shared with `sync`
    (machine lookup, project, exclude merge, push), it resolves the mode, builds the
    environment, calls the ssh, docker or slurm backend (slurm optionally once per index
    of a sweep range), and pulls the output directory back when it is set and not empty.
    The specification is RunTrace; the method Execute produces that trace step by step. */
module RunCommand {
  import opened Wrappers
  import opened Strings
  import opened Config
  import Sync

  const SweepIdxVar := "LMD_RUN_SWEEP_IDX"

  /** The explicit `--mode` when given, else the machine's `default_mode`, else "ssh". */
  function ResolveMode(requested: Option<string>, m: Machine): (mode: string)
    ensures Truthy(requested) ==> mode == requested.value
    ensures !Truthy(requested) && m.defaultMode.Some? ==> mode == m.defaultMode.value
    ensures !Truthy(requested) && m.defaultMode.None? ==> mode == "ssh"
  {
    if Truthy(requested) then requested.value else m.defaultMode.GetOr("ssh")
  }

  /** The project's `environment` (empty when absent) updated with the machine's. */
  function MergeEnv(p: Option<ProjectConf>, m: Machine): (env: Env)
    ensures var projectEnv := if p.Some? && p.value.environment.Some? then p.value.environment.value else map[];
      var machineEnv := m.environment.GetOr(map[]);
      && env.Keys == projectEnv.Keys + machineEnv.Keys
      && (forall k :: k in machineEnv ==> env[k] == machineEnv[k])
      && (forall k :: k in projectEnv && k !in machineEnv ==> env[k] == projectEnv[k])
  {
    var env := if p.Some? && p.value.environment.Some? then p.value.environment.value else map[];
    if m.environment.Some? && m.environment.value != map[] then env + m.environment.value else env
  }

  /** The docker image: an alias from `docker-images` gives that entry's `name`, any other
      `--image` is used literally, and without `--image` the machine's `docker.name` is used. */
  function ResolveImage(config: Config, parsed: Parsed, m: Machine): (r: Result<string>)
    ensures Truthy(parsed.image) && config.dockerImages.None? ==> r == Err(MissingKey("docker-images"))
    ensures Truthy(parsed.image) && config.dockerImages.Some? && parsed.image.value in config.dockerImages.value ==>
      var name := config.dockerImages.value[parsed.image.value].name;
      r == if name.Some? then Ok(name.value) else Err(DockerImageUnresolved)
    ensures Truthy(parsed.image) && config.dockerImages.Some? && parsed.image.value !in config.dockerImages.value ==>
      r == Ok(parsed.image.value)
    ensures !Truthy(parsed.image) ==>
      r == if m.docker.None? then Err(DockerConfigMissing)
           else if m.docker.value.name.None? then Err(DockerImageUnresolved)
           else Ok(m.docker.value.name.value)
  {
    var image: Result<Option<string>> :=
      if Truthy(parsed.image) then
        if config.dockerImages.None? then Err(MissingKey("docker-images"))
        else if parsed.image.value in config.dockerImages.value then
          Ok(config.dockerImages.value[parsed.image.value].name)
        else Ok(Some(parsed.image.value))
      else if m.docker.None? then Err(DockerConfigMissing)
      else Ok(m.docker.value.name);
    match image
    case Err(e) => Err(e)
    case Ok(None) => Err(DockerImageUnresolved)
    case Ok(Some(name)) => Ok(name)
  }

  /** The Slurm configuration: the named `--conf` entry of `slurm-configs`, else the
      machine's `slurm` table. Without `slurm-configs` the lookup is a KeyError; a name
      missing from it an AttributeError, raised while the message is formatted; a missing
      machine `slurm` table a TypeError, raised by `SlurmConfig(**None)`. */
  function ResolveSlurmConf(config: Config, parsed: Parsed, m: Machine): (r: Result<SlurmConf>)
    ensures r.Ok? <==>
      if Truthy(parsed.conf) then config.slurmConfigs.Some? && parsed.conf.value in config.slurmConfigs.value
      else m.slurm.Some?
    ensures r.Ok? && Truthy(parsed.conf) ==> r.value == config.slurmConfigs.value[parsed.conf.value]
    ensures r.Ok? && !Truthy(parsed.conf) ==> Some(r.value) == m.slurm
    ensures r.Err? ==>
      ClassOf(r.error) == if !Truthy(parsed.conf) then TypeError
                          else if config.slurmConfigs.None? then KeyError
                          else AttributeError
    ensures r.Err? && Truthy(parsed.conf) && config.slurmConfigs.Some? ==> r.error == SlurmConfNotFound(parsed.conf.value)
  {
    if Truthy(parsed.conf) then
      if config.slurmConfigs.None? then Err(MissingKey("slurm-configs"))
      else if parsed.conf.value in config.slurmConfigs.value then Ok(config.slurmConfigs.value[parsed.conf.value])
      else Err(SlurmConfNotFound(parsed.conf.value))
    else if m.slurm.None? then Err(SlurmConfigMissing)
    else Ok(m.slurm.value)
  }

  /** `[int(val) for val in sweep.split('-')]` unpacked into `begin, end`; None is the ValueError. */
  function ParseSweep(sweep: string): (range: Option<(nat, nat)>)
    ensures var parts := Split(sweep, '-');
      range.Some? <==> |parts| == 2 && IsDecimal(Numeral(parts[0])) && IsDecimal(Numeral(parts[1]))
    ensures range.Some? ==>
      var parts := Split(sweep, '-');
      range.value == (DecimalValue(Numeral(parts[0])), DecimalValue(Numeral(parts[1])))
  {
    var parts := Split(sweep, '-');
    if |parts| == 2 && ParseNat(parts[0]).Some? && ParseNat(parts[1]).Some? then
      Some((ParseNat(parts[0]).value, ParseNat(parts[1]).value))
    else None
  }

  /** Two dash-free ends whose numerals are `b` and `e` read as the range (b, e). */
  lemma ParseSweepParts(first: string, last: string, b: nat, e: nat)
    requires '-' !in first && '-' !in last
    requires Numeral(first) == Decimal(b) && Numeral(last) == Decimal(e)
    ensures ParseSweep(first + "-" + last) == Some((b, e))
  {
    assert Split(first + "-" + last, '-') == [first, last] by {
      SplitPiece(first, '-', last);
      SplitNone(last, '-');
    }
    DecimalRoundTrip(b);
    DecimalRoundTrip(e);
  }

  /** A decimal numeral has no dash in it. */
  lemma DecimalDashFree(n: nat)
    ensures '-' !in Decimal(n)
  {
    assert forall i :: 0 <= i < |Decimal(n)| ==> IsDigit(Decimal(n)[i]);
  }

  /** "b-e" written in decimal reads back as (b, e). */
  lemma ParseSweepRoundTrip(b: nat, e: nat)
    ensures ParseSweep(Decimal(b) + "-" + Decimal(e)) == Some((b, e))
  {
    DecimalDashFree(b);
    DecimalDashFree(e);
    NumeralOfDecimal(Decimal(b));
    NumeralOfDecimal(Decimal(e));
    ParseSweepParts(Decimal(b), Decimal(e), b, e);
  }

  /** `int()` reads the ends of a range written with spaces around the dash, so `"b - e"`
      reads as (b, e) too. */
  lemma ParseSweepSpaced(b: nat, e: nat)
    ensures ParseSweep(Decimal(b) + " - " + Decimal(e)) == Some((b, e))
  {
    var first, last := Decimal(b) + " ", " " + Decimal(e);
    assert Decimal(b) + " - " + Decimal(e) == first + "-" + last;
    assert '-' !in first && '-' !in last by {
      DecimalDashFree(b);
      DecimalDashFree(e);
    }
    assert Numeral(first) == Decimal(b) by {
      NumeralPadded([], Decimal(b), " ");
      assert [] + Decimal(b) + " " == first;
    }
    assert Numeral(last) == Decimal(e) by {
      NumeralPadded(" ", Decimal(e), []);
      assert " " + Decimal(e) + [] == last;
    }
    ParseSweepParts(first, last, b, e);
  }

  /** `int()` accepts a leading `+`, so `"+b-e"` reads as (b, e) too. */
  lemma ParseSweepSigned(b: nat, e: nat)
    ensures ParseSweep("+" + Decimal(b) + "-" + Decimal(e)) == Some((b, e))
  {
    var first := "+" + Decimal(b);
    DecimalDashFree(b);
    DecimalDashFree(e);
    NumeralSigned(Decimal(b));
    NumeralOfDecimal(Decimal(e));
    ParseSweepParts(first, Decimal(e), b, e);
  }

  /** One backend call, numbered `k` among the command's calls, and the failure it may raise. */
  function CallTrace(call: Backend, k: nat, world: World): seq<Event>
  {
    [Exec(call)] + (if world.failingExec == Some(k) then [Raise(TransportFailure)] else [])
  }

  /** The sweep calls for indices `lo` to `hi - 1`, each with `LMD_RUN_SWEEP_IDX` set to the
      index; the first failing call ends the sweep. */
  function SweepTrace(env: Env, call: SlurmCall, lo: nat, hi: nat, begin: nat, world: World): seq<Event>
    requires begin <= lo
    decreases hi - lo
  {
    if lo >= hi then []
    else
      var ev := [Exec(Slurm(call, env[SweepIdxVar := Int(lo)], true))];
      if world.failingExec == Some(lo - begin) then ev + [Raise(TransportFailure)]
      else ev + SweepTrace(env, call, lo + 1, hi, begin, world)
  }

  /** The arguments of every slurm call of the command. */
  function SlurmCallOf(parsed: Parsed, workdir: string, m: Machine, sconf: SlurmConf): SlurmCall
  {
    SlurmCall(sconf, parsed.remoteCommand, workdir, m.startup, !parsed.disown, parsed.numSequence, parsed.dryRun)
  }

  /** The events of the mode dispatch. */
  function DispatchTrace(config: Config, parsed: Parsed, workdir: string, s: Sync.Staged, env: Env, world: World)
    : seq<Event>
  {
    var m := s.machine;
    var mode := ResolveMode(parsed.mode, m);
    if mode == "ssh" then
      CallTrace(Ssh(parsed.remoteCommand, workdir, m.startup, parsed.disown, parsed.xForward, env, parsed.dryRun), 0, world)
    else if mode == "docker" then
      if parsed.dryRun then [Raise(DockerDryRun)]
      else
        match ResolveImage(config, parsed, m)
        case Err(e) => [Raise(e)]
        case Ok(image) =>
          CallTrace(Docker(image, s.user + "-" + s.project.name, parsed.remoteCommand, workdir, m.startup,
                           true, true, parsed.xForward, env), 0, world)
    else if mode == "slurm" then
      match ResolveSlurmConf(config, parsed, m)
      case Err(e) => [Raise(e)]
      case Ok(sconf) =>
        var call := SlurmCallOf(parsed, workdir, m, sconf);
        if Truthy(parsed.sweep) then
          if !parsed.disown then [Raise(SweepWithoutDisown)]
          else
            match ParseSweep(parsed.sweep.value)
            case None => [Raise(MalformedSweep(parsed.sweep.value))]
            case Some((b, e)) =>
              if b >= e then [Raise(EmptySweepRange(b, e))] else SweepTrace(env, call, b, e, b, world)
        else CallTrace(Slurm(call, env, false), 0, world)
    else if mode == "singularity" || mode == "sing-slurm" then [Raise(ModeNotImplemented(mode))]
    else [Raise(UnknownMode(mode))]
  }

  /** The pull step: list the remote output directory when `out_dir` is set, and copy it
      back when the listing counts a file; a failing copy raises. */
  function PullTrace(parsed: Parsed, s: Sync.Staged, layout: Layout, world: World): seq<Event>
  {
    if Truthy(s.project.outDir) then
      var out := Remote(s.user, s.host, layout.remoteOutdir(s.project));
      [ListOut(out)]
      + (if world.listedFiles != 0 then
           [Pull(out, s.project.outDir.value, parsed.dryRun)]
           + (if world.pullFails then [Raise(TransportFailure)] else [])
         else [])
    else []
  }

  /** The events of `run`: the shared steps, then the dispatch, then the pull unless the
      dispatch raised (nothing catches an exception on the way). */
  function RunTrace(config: Config, parsed: Parsed, workdir: string, layout: Layout, world: World): seq<Event>
  {
    var pre := Sync.SyncTrace(config, parsed, layout, world.pushFails);
    var located := Sync.Locate(config, parsed);
    if located.Err? || Sync.Excludes(config).Err? || world.pushFails then pre
    else
      var s := located.value;
      var d := DispatchTrace(config, parsed, workdir, s, MergeEnv(config.project, s.machine), world);
      pre + d + (if EndsRaising(d) then [] else PullTrace(parsed, s, layout, world))
  }

  /** The sweep calls for the indices `lo` to `hi - 1`, in order. */
  function SweepExecs(env: Env, call: SlurmCall, lo: nat, hi: nat): (t: seq<Event>)
    requires lo <= hi
    ensures |t| == hi - lo
    ensures forall i :: 0 <= i < hi - lo ==> t[i] == Exec(Slurm(call, env[SweepIdxVar := Int(lo + i)], true))
  {
    seq(hi - lo, i requires 0 <= i < hi - lo => Exec(Slurm(call, env[SweepIdxVar := Int(lo + i)], true)))
  }

  /** How many calls a sweep from `lo` makes: up to the end of the range, or up to and
      including the first failing call. */
  function SweepCalls(lo: nat, hi: nat, begin: nat, world: World): (n: nat)
    requires begin <= lo <= hi
    ensures n <= hi - lo
  {
    if SweepFails(lo, hi, begin, world) then world.failingExec.value - (lo - begin) + 1 else hi - lo
  }

  /** A sweep fails when the failing call's number falls in the range still to run. */
  predicate SweepFails(lo: nat, hi: nat, begin: nat, world: World)
    requires begin <= lo
  {
    world.failingExec.Some? && lo - begin <= world.failingExec.value < hi - begin
  }

  /** The sweep in closed form: the calls for `lo` onwards, in ascending order, up to the end
      of the range or the first failing call, whose exception then ends the sweep. */
  lemma {:induction false} SweepClosed(env: Env, call: SlurmCall, lo: nat, hi: nat, begin: nat, world: World)
    requires begin <= lo <= hi
    ensures SweepTrace(env, call, lo, hi, begin, world)
      == SweepExecs(env, call, lo, lo + SweepCalls(lo, hi, begin, world))
         + (if SweepFails(lo, hi, begin, world) then [Raise(TransportFailure)] else [])
    decreases hi - lo
  {
    if lo < hi && world.failingExec != Some(lo - begin) {
      SweepClosed(env, call, lo + 1, hi, begin, world);
      var n := SweepCalls(lo + 1, hi, begin, world);
      assert SweepCalls(lo, hi, begin, world) == n + 1;
      assert SweepExecs(env, call, lo, lo + n + 1)
        == [Exec(Slurm(call, env[SweepIdxVar := Int(lo)], true))] + SweepExecs(env, call, lo + 1, lo + 1 + n);
    }
  }

  /** Storing a key again replaces what the previous store put there. */
  lemma UpdateOverrides(m: Env, k: string, a: EnvVal, b: EnvVal)
    ensures m[k := a][k := b] == m[k := b]
  {
  }

  /** The sweep loop: one slurm call per index, ascending, `LMD_RUN_SWEEP_IDX` set in the
      environment before each. */
  method Sweep(env: Env, call: SlurmCall, begin: nat, end: nat, world: World) returns (trace: seq<Event>)
    requires begin < end
    ensures trace == SweepTrace(env, call, begin, end, begin, world)
  {
    SweepClosed(env, call, begin, end, begin, world);
    trace := [];
    var sweepEnv := env;
    var idx := begin;
    while idx < end
      invariant begin <= idx <= end
      invariant trace == SweepExecs(env, call, begin, idx)
      invariant world.failingExec.None? || world.failingExec.value >= idx - begin
      invariant idx > begin ==> sweepEnv == env[SweepIdxVar := Int(idx - 1)]
      invariant idx == begin ==> sweepEnv == env
    {
      if idx > begin {
        UpdateOverrides(env, SweepIdxVar, Int(idx - 1), Int(idx));
      }
      sweepEnv := sweepEnv[SweepIdxVar := Int(idx)];
      trace := trace + [Exec(Slurm(call, sweepEnv, true))];
      assert trace == SweepExecs(env, call, begin, idx + 1);
      if world.failingExec == Some(idx - begin) {
        trace := trace + [Raise(TransportFailure)];
        return;
      }
      idx := idx + 1;
    }
  }

  /** The dispatch on the resolved mode. */
  method Dispatch(config: Config, parsed: Parsed, workdir: string, s: Sync.Staged, env: Env, world: World)
    returns (trace: seq<Event>)
    ensures trace == DispatchTrace(config, parsed, workdir, s, env, world)
  {
    var m := s.machine;
    var mode := ResolveMode(parsed.mode, m);
    if mode == "ssh" {
      trace := CallTrace(Ssh(parsed.remoteCommand, workdir, m.startup, parsed.disown, parsed.xForward, env, parsed.dryRun), 0, world);
    } else if mode == "docker" {
      if parsed.dryRun {
        trace := [Raise(DockerDryRun)];
        return;
      }
      var image := ResolveImage(config, parsed, m);
      if image.Err? {
        trace := [Raise(image.error)];
        return;
      }
      trace := CallTrace(Docker(image.value, s.user + "-" + s.project.name, parsed.remoteCommand, workdir,
                                m.startup, true, true, parsed.xForward, env), 0, world);
    } else if mode == "slurm" {
      var sconf := ResolveSlurmConf(config, parsed, m);
      if sconf.Err? {
        trace := [Raise(sconf.error)];
        return;
      }
      var call := SlurmCallOf(parsed, workdir, m, sconf.value);
      if Truthy(parsed.sweep) {
        if !parsed.disown {
          trace := [Raise(SweepWithoutDisown)];
          return;
        }
        var range := ParseSweep(parsed.sweep.value);
        if range.None? {
          trace := [Raise(MalformedSweep(parsed.sweep.value))];
          return;
        }
        var (b, e) := range.value;
        if b >= e {
          trace := [Raise(EmptySweepRange(b, e))];
          return;
        }
        trace := Sweep(env, call, b, e, world);
      } else {
        trace := CallTrace(Slurm(call, env, false), 0, world);
      }
    } else if mode == "singularity" || mode == "sing-slurm" {
      trace := [Raise(ModeNotImplemented(mode))];
    } else {
      trace := [Raise(UnknownMode(mode))];
    }
  }

  /** `CLIRunCommand.execute`. */
  method Execute(config: Config, parsed: Parsed, workdir: string, layout: Layout, world: World)
    returns (trace: seq<Event>)
    ensures trace == RunTrace(config, parsed, workdir, layout, world)
  {
    var staged;
    trace, staged := Sync.PushProject(config, parsed, layout, world.pushFails);
    if staged.None? {
      return;
    }
    var s := staged.value;

    var env: Env := map[];
    if config.project.Some? && config.project.value.environment.Some? {
      env := config.project.value.environment.value;
    }
    if s.machine.environment.Some? && s.machine.environment.value != map[] {
      env := env + s.machine.environment.value;
    }

    var d := Dispatch(config, parsed, workdir, s, env, world);
    trace := trace + d;
    if EndsRaising(d) {
      return;
    }

    if Truthy(s.project.outDir) {
      var out := Remote(s.user, s.host, layout.remoteOutdir(s.project));
      trace := trace + [ListOut(out)];
      if world.listedFiles != 0 {
        trace := trace + [Pull(out, s.project.outDir.value, parsed.dryRun)];
        if world.pullFails {
          trace := trace + [Raise(TransportFailure)];
        }
      }
    }
  }
}
