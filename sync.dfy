/** `CLISyncCommand.execute` (lmd/cli/commands/sync.py): look the machine up, derive the
    project's remote directory, merge the exclude lists, and push the project with rsync.
    `CLIRunCommand.execute` begins with the same steps, so `run` reuses them from here. */
module Sync {
  import opened Wrappers
  import opened Config

  /** `os.path.join(a, b)` for two components. */
  function PathJoin(a: string, b: string): (r: string)
    ensures |b| > 0 && b[0] == '/' ==> r == b
    ensures !(|b| > 0 && b[0] == '/') ==>
      |a| + |b| <= |r| <= |a| + |b| + 1 && r[..|a|] == a && r[|r| - |b|..] == b
    ensures !(|b| > 0 && b[0] == '/') && a != "" ==> r[|r| - |b| - 1] == '/'
  {
    if |b| > 0 && b[0] == '/' then b
    else if a == "" || a[|a| - 1] == '/' then a + b
    else a + "/" + b
  }

  /** The project's remote directory: the machine's `root_dir` joined with the project
      name, or None when the machine has no `root_dir`. */
  function RemoteDir(m: Machine, name: string): (dir: Option<string>)
    ensures dir.Some? <==> m.rootDir.Some?
    ensures dir.Some? ==> dir.value == PathJoin(m.rootDir.value, name)
  {
    if m.rootDir.Some? then Some(PathJoin(m.rootDir.value, name)) else None
  }

  /** What the lookup steps produce: the machine's table, its user and host, and the project. */
  datatype Staged = Staged(machine: Machine, user: string, host: string, project: Project)

  /** The machine lookup (KeyError naming the available machines), the `user` and `host`
      reads, and the construction of the Project. */
  function Locate(config: Config, parsed: Parsed): (r: Result<Staged>)
    ensures parsed.machine !in config.machines ==>
      r == Err(UnknownMachine(parsed.machine, config.machines.Keys))
    ensures r.Ok? ==>
      && parsed.machine in config.machines
      && r.value.machine == config.machines[parsed.machine]
      && Some(r.value.user) == r.value.machine.user && Some(r.value.host) == r.value.machine.host
      && r.value.project == Project(parsed.name, parsed.workdir, RemoteDir(r.value.machine, parsed.name), parsed.outdir)
    ensures r.Err? ==> ClassOf(r.error) == KeyError
  {
    if parsed.machine !in config.machines then Err(UnknownMachine(parsed.machine, config.machines.Keys))
    else
      var m := config.machines[parsed.machine];
      if m.user.None? then Err(MissingKey("user"))
      else if m.host.None? then Err(MissingKey("host"))
      else Ok(Staged(m, m.user.value, m.host.value,
                     Project(parsed.name, parsed.workdir, RemoteDir(m, parsed.name), parsed.outdir)))
  }

  /** The global `rsync.exclude` list (empty without an `rsync` table, None without an
      `exclude` key) extended by the project's `rsync.exclude`. */
  function Excludes(config: Config): (r: Result<Option<seq<string>>>)
    ensures r.Err? <==>
      config.rsync.Some? && config.rsync.value.exclude.None?
      && config.project.Some? && config.project.value.rsync.Some?
    ensures r.Err? ==> r.error == ExcludeIsNone && ClassOf(r.error) == AttributeError
    ensures r.Ok? && r.value.Some? ==>
      var global := if config.rsync.Some? then config.rsync.value.exclude.GetOr([]) else [];
      var local := if config.project.Some? && config.project.value.rsync.Some?
                   then config.project.value.rsync.value.exclude.GetOr([]) else [];
      r.value.value == global + local
    ensures r == Ok(None) <==>
      config.rsync.Some? && config.rsync.value.exclude.None? && !(config.project.Some? && config.project.value.rsync.Some?)
  {
    var exclude := if config.rsync.Some? then config.rsync.value.exclude else Some([]);
    if config.project.Some? && config.project.value.rsync.Some? then
      if exclude.None? then Err(ExcludeIsNone)
      else Ok(Some(exclude.value + config.project.value.rsync.value.exclude.GetOr([])))
    else Ok(exclude)
  }

  /** The remote command chain `mkdir -p d1 && mkdir -p d2 && ... && rsync`. */
  function MkdirChain(dirs: seq<string>): string
  {
    if dirs == [] then "rsync" else "mkdir -p " + dirs[0] + " && " + MkdirChain(dirs[1..])
  }

  /** The `--rsync-path` option that makes the remote side create `dirs` before rsync runs. */
  function RsyncPath(dirs: seq<string>): string
  {
    "--rsync-path='" + MkdirChain(dirs) + "'"
  }

  /** The option built for the push creates the remote root and then the remote output
      directory, in that order, before running rsync. */
  lemma RsyncPathCreatesRootThenOut(root: string, out: string)
    ensures RsyncPath([root, out])
      == "--rsync-path='" + "mkdir -p " + root + " && " + "mkdir -p " + out + " && " + "rsync" + "'"
  {
    assert [root, out][1..] == [out] && [out][1..] == [];
    assert MkdirChain([out]) == "mkdir -p " + out + " && " + "rsync";
    assert MkdirChain([root, out]) == "mkdir -p " + root + " && " + MkdirChain([out]);
  }

  /** The push transfer: the local project root to `uri(remote_rootdir)`, creating the remote
      root and then the remote output directory first. */
  function PushOf(s: Staged, layout: Layout, exclude: Option<seq<string>>, dryRun: bool): Event
  {
    var root := layout.remoteRootdir(s.project);
    Push(s.project.rootDir, Remote(s.user, s.host, root), RsyncPath([root, layout.remoteOutdir(s.project)]),
         exclude, dryRun)
  }

  /** The events of `sync`, which are also the first events of `run`. */
  function SyncTrace(config: Config, parsed: Parsed, layout: Layout, pushFails: bool): seq<Event>
  {
    match Locate(config, parsed)
    case Err(e) => [Raise(e)]
    case Ok(s) =>
      match Excludes(config)
      case Err(e) => [Raise(e)]
      case Ok(exclude) =>
        [PushOf(s, layout, exclude, parsed.dryRun)] + (if pushFails then [Raise(TransportFailure)] else [])
  }

  /** The shared steps, in the order both commands run them; `staged` is present when they
      all succeeded and the command goes on. */
  method PushProject(config: Config, parsed: Parsed, layout: Layout, pushFails: bool)
    returns (trace: seq<Event>, staged: Option<Staged>)
    ensures trace == SyncTrace(config, parsed, layout, pushFails)
    ensures staged.Some? <==> Locate(config, parsed).Ok? && Excludes(config).Ok? && !pushFails
    ensures staged.Some? ==> staged.value == Locate(config, parsed).value
  {
    staged := None;
    if parsed.machine !in config.machines {
      trace := [Raise(UnknownMachine(parsed.machine, config.machines.Keys))];
      return;
    }
    var machine := config.machines[parsed.machine];
    if machine.user.None? {
      trace := [Raise(MissingKey("user"))];
      return;
    }
    if machine.host.None? {
      trace := [Raise(MissingKey("host"))];
      return;
    }
    var user, host := machine.user.value, machine.host.value;
    var project := Project(parsed.name, parsed.workdir, RemoteDir(machine, parsed.name), parsed.outdir);

    var exclude: Option<seq<string>>;
    if config.rsync.Some? {
      exclude := config.rsync.value.exclude;
    } else {
      exclude := Some([]);
    }
    if config.project.Some? && config.project.value.rsync.Some? {
      if exclude.None? {
        trace := [Raise(ExcludeIsNone)];
        return;
      }
      exclude := Some(exclude.value + config.project.value.rsync.value.exclude.GetOr([]));
    }

    var root, out := layout.remoteRootdir(project), layout.remoteOutdir(project);
    var options := "--rsync-path='" + "mkdir -p " + root + " && " + "mkdir -p " + out + " && " + "rsync" + "'";
    RsyncPathCreatesRootThenOut(root, out);
    trace := [Push(project.rootDir, Remote(user, host, root), options, exclude, parsed.dryRun)];
    if pushFails {
      trace := trace + [Raise(TransportFailure)];
      return;
    }
    staged := Some(Staged(machine, user, host, project));
  }

  /** `CLISyncCommand.execute`. */
  method Execute(config: Config, parsed: Parsed, layout: Layout, pushFails: bool) returns (trace: seq<Event>)
    ensures trace == SyncTrace(config, parsed, layout, pushFails)
  {
    var staged;
    trace, staged := PushProject(config, parsed, layout, pushFails);
  }

  /** An unknown machine raises KeyError, listing the configured machines, before any rsync. */
  lemma SyncUnknownMachine(config: Config, parsed: Parsed, layout: Layout, pushFails: bool)
    requires parsed.machine !in config.machines
    ensures SyncTrace(config, parsed, layout, pushFails) == [Raise(UnknownMachine(parsed.machine, config.machines.Keys))]
    ensures Silent(SyncTrace(config, parsed, layout, pushFails))
  {
  }

  /** When the lookups succeed, `sync` makes exactly one push, from the local root to the
      remote root, with the merged excludes and `dry_run` passed through; it never runs a
      command, lists or pulls. Otherwise it raises before any push. */
  lemma SyncSinglePush(config: Config, parsed: Parsed, layout: Layout, pushFails: bool)
    ensures var t := SyncTrace(config, parsed, layout, pushFails);
      Execs(t) == [] && NoPull(t)
      && (Locate(config, parsed).Ok? && Excludes(config).Ok? <==> Pushes(t) == 1)
      && (Pushes(t) == 0 ==> Silent(t) && |t| == 1)
      && (Pushes(t) == 1 ==>
            var s := Locate(config, parsed).value;
            t[0] == Push(parsed.workdir, Remote(s.user, s.host, layout.remoteRootdir(s.project)),
                         RsyncPath([layout.remoteRootdir(s.project), layout.remoteOutdir(s.project)]),
                         Excludes(config).value, parsed.dryRun)
            && (pushFails <==> EndsRaising(t)))
  {
    var t := SyncTrace(config, parsed, layout, pushFails);
    ExecsNone(t);
    if Locate(config, parsed).Ok? && Excludes(config).Ok? {
      PushesAppend([t[0]], t[1..]);
      assert [t[0]] + t[1..] == t;
      PushesNone(t[1..]);
      assert Pushes([t[0]]) == 1;
    } else {
      assert Pushes(t) == Pushes(t[1..]) + 0;
    }
  }
}
