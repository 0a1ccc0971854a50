/** The values the `run` and `sync` commands work on: the configuration they read,
    the parsed command line, the project they derive, the errors they raise, and the
    events by which they reach the outside world (rsync, the remote backends, the
    remote listing of the output directory). A command's behaviour is the trace of
    events it produces. */
module Config {
  import opened Wrappers

  // ---------------------------------------------------------------- configuration

  /** A value in an `environment` table: the configuration holds strings; the sweep loop
      stores its index as an int. */
  datatype EnvVal = Str(s: string) | Int(i: int)

  type Env = map<string, EnvVal>

  /** The keyword arguments given to `SlurmConfig(**sconf)`; opaque here. */
  type SlurmConf = map<string, string>

  /** A `docker` entry of a machine, or an entry of `docker-images`: only `name` is read. */
  datatype DockerConf = DockerConf(name: Option<string>)

  /** An `rsync` table: `exclude` may be missing. */
  datatype RsyncConf = RsyncConf(exclude: Option<seq<string>>)

  /** One entry of `machines`; every field is a key that may be missing. */
  datatype Machine = Machine(
    user: Option<string>,
    host: Option<string>,
    rootDir: Option<string>,
    defaultMode: Option<string>,
    environment: Option<Env>,
    startup: Option<string>,
    docker: Option<DockerConf>,
    slurm: Option<SlurmConf>)

  /** The `project` table. */
  datatype ProjectConf = ProjectConf(environment: Option<Env>, rsync: Option<RsyncConf>)

  /** The merged configuration: `machines` is required, the other top-level keys may be missing. */
  datatype Config = Config(
    machines: map<string, Machine>,
    rsync: Option<RsyncConf>,
    project: Option<ProjectConf>,
    dockerImages: Option<map<string, DockerConf>>,
    slurmConfigs: Option<map<string, SlurmConf>>)

  /** The parsed command line of `run` (`sync` reads only the first five fields). */
  datatype Parsed = Parsed(
    machine: string,
    name: string,
    workdir: string,
    outdir: Option<string>,
    dryRun: bool,
    mode: Option<string>,
    disown: bool,
    xForward: bool,
    image: Option<string>,
    numSequence: int,
    sweep: Option<string>,
    conf: Option<string>,
    remoteCommand: seq<string>)

  /** `Project(name, root_dir, remote_dir, out_dir)`. */
  datatype Project = Project(name: string, rootDir: string, remoteDir: Option<string>, outDir: Option<string>)

  /** `project.remote_rootdir` and `project.remote_outdir`, computed by the Project class,
      which this model takes as given. */
  datatype Layout = Layout(remoteRootdir: Project -> string, remoteOutdir: Project -> string)

  // ---------------------------------------------------------------- errors

  /** The Python exception class an error surfaces as. */
  datatype ExceptionClass =
    | KeyError | ValueError | AttributeError | TypeError | RuntimeError
    | AssertionError | NotImplementedError | TransportError

  datatype Error =
    | UnknownMachine(machine: string, available: set<string>)
    | MissingKey(key: string)
    | ExcludeIsNone
    | DockerDryRun
    | DockerConfigMissing
    | DockerImageUnresolved
    | SlurmConfNotFound(conf: string)
    | SlurmConfigMissing
    | SweepWithoutDisown
    | MalformedSweep(sweep: string)
    | EmptySweepRange(begin: nat, end: nat)
    | ModeNotImplemented(mode: string)
    | UnknownMode(mode: string)
    | TransportFailure

  function ClassOf(e: Error): ExceptionClass
  {
    match e
    case UnknownMachine(_, _) => KeyError
    case MissingKey(_) => KeyError
    case ExcludeIsNone => AttributeError        // None.extend(...)
    case DockerDryRun => ValueError
    case DockerConfigMissing => AttributeError  // None.get('name')
    case DockerImageUnresolved => RuntimeError
    case SlurmConfNotFound(_) => AttributeError // the message reads parsed.con
    case SlurmConfigMissing => TypeError        // SlurmConfig(**None)
    case SweepWithoutDisown => AssertionError
    case MalformedSweep(_) => ValueError
    case EmptySweepRange(_, _) => AssertionError
    case ModeNotImplemented(_) => NotImplementedError
    case UnknownMode(_) => KeyError
    case TransportFailure => TransportError
  }

  /** A value, or the error raised instead of it. */
  datatype Result<+T> = Ok(value: T) | Err(error: Error)

  // ---------------------------------------------------------------- the outside world

  /** `ssh_client.uri(path)`: a path on the machine `user@host`. */
  datatype Remote = Remote(user: string, host: string, path: string)

  /** The arguments of `SlurmMachine.execute` that do not vary within a sweep. */
  datatype SlurmCall = SlurmCall(
    conf: SlurmConf,
    command: seq<string>,
    workdir: string,
    startup: Option<string>,
    interactive: bool,
    numSequence: int,
    dryRun: bool)

  /** One call of a backend's `execute`, with the arguments it receives. */
  datatype Backend =
    | Ssh(command: seq<string>, workdir: string, startup: Option<string>, disown: bool,
          xForward: bool, env: Env, dryRun: bool)
    | Docker(image: string, container: string, command: seq<string>, workdir: string,
             startup: Option<string>, shell: bool, useGpus: bool, xForward: bool, env: Env)
    | Slurm(call: SlurmCall, env: Env, sweeping: bool)

  datatype Event =
    /** rsync of the local project to the remote root, with the `--rsync-path` option
        `options` that makes the remote side create directories first. */
    | Push(source: string, target: Remote, options: string, exclude: Option<seq<string>>, dryRun: bool)
    | Exec(call: Backend)
    /** `ls -l <dir> | grep -v "^total" | wc -l` over SSH. */
    | ListOut(dir: Remote)
    /** rsync of the remote output directory back to the local one. */
    | Pull(from: Remote, to: string, pullDryRun: bool)
    /** The exception that ends the command. */
    | Raise(error: Error)

  /** What the outside world answers: whether the push rsync fails, which backend call
      (counted from 0) fails, if any, the count printed by the remote listing, and whether
      the pull rsync fails. */
  datatype World = World(pushFails: bool, failingExec: Option<nat>, listedFiles: nat, pullFails: bool)

  // ---------------------------------------------------------------- reading a trace

  /** The backend calls of a trace, in order. */
  function Execs(t: seq<Event>): seq<Backend>
  {
    if t == [] then []
    else (if t[0].Exec? then [t[0].call] else []) + Execs(t[1..])
  }

  /** The number of pushes in a trace. */
  function Pushes(t: seq<Event>): nat
  {
    if t == [] then 0 else (if t[0].Push? then 1 else 0) + Pushes(t[1..])
  }

  /** The trace ends with an exception. */
  predicate EndsRaising(t: seq<Event>)
  {
    |t| > 0 && t[|t| - 1].Raise?
  }

  /** Nothing in the trace reads or writes the outside world. */
  predicate Silent(t: seq<Event>)
  {
    forall i :: 0 <= i < |t| ==> t[i].Raise?
  }

  /** No listing and no pull happen in the trace. */
  predicate NoPull(t: seq<Event>)
  {
    forall i :: 0 <= i < |t| ==> !t[i].ListOut? && !t[i].Pull?
  }

  /** The calls of a trace that starts with `e`. */
  lemma ExecsCons(e: Event, t: seq<Event>)
    ensures Execs([e] + t) == (if e.Exec? then [e.call] else []) + Execs(t)
  {
    assert ([e] + t)[1..] == t;
  }

  lemma {:induction false} ExecsAppend(s: seq<Event>, t: seq<Event>)
    ensures Execs(s + t) == Execs(s) + Execs(t)
  {
    if s != [] {
      assert (s + t)[1..] == s[1..] + t;
      ExecsAppend(s[1..], t);
    } else {
      assert s + t == t;
    }
  }

  lemma {:induction false} PushesAppend(s: seq<Event>, t: seq<Event>)
    ensures Pushes(s + t) == Pushes(s) + Pushes(t)
  {
    if s != [] {
      assert (s + t)[1..] == s[1..] + t;
      PushesAppend(s[1..], t);
    } else {
      assert s + t == t;
    }
  }

  /** A trace without Exec events has no backend calls. */
  lemma {:induction false} ExecsNone(t: seq<Event>)
    requires forall i :: 0 <= i < |t| ==> !t[i].Exec?
    ensures Execs(t) == []
  {
    if t != [] {
      ExecsNone(t[1..]);
    }
  }

  /** A trace without Push events has no push. */
  lemma {:induction false} PushesNone(t: seq<Event>)
    requires forall i :: 0 <= i < |t| ==> !t[i].Push?
    ensures Pushes(t) == 0
  {
    if t != [] {
      PushesNone(t[1..]);
    }
  }
}
