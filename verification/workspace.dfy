/** The abstract state `build`, `test` and `clean` act on: the project
    directory they run in, reduced to the entries the commands look at,
    and the external programs they start. */
module Workspace {
  import opened Cli

  /** What sits at the top-level `compile_commands.json`. */
  datatype Entry =
    | Missing
    | DbLink(profile: Profile)    // the link `build` creates, to `<profile dir>/compile_commands.json`
    | OtherFile                   // a regular file the user put there
    | OtherDir                    // a directory of that name
    | OtherLink(resolves: bool)   // some other symbolic link, leading outside `target`, live or dangling

  /** The project directory: whether `meson.build` is there, whether
      `target` is, which profile directories exist, in which of them
      meson has generated a `compile_commands.json`, and the top-level
      entry. */
  datatype Fs = Fs(
    manifest: bool,
    target: bool,
    dirs: set<Profile>,
    databases: set<Profile>,
    link: Entry)

  /** Shape every real directory has: databases live inside their profile
      directory, and profile directories inside `target`. */
  predicate Valid(fs: Fs) {
    fs.databases <= fs.dirs && (fs.dirs != {} ==> fs.target)
  }

  /** `fs::metadata("compile_commands.json").is_ok()`: the entry exists
      and, following symbolic links, leads somewhere. Carton's link leads
      nowhere once `target` is gone. */
  function Resolves(fs: Fs): (r: bool)
    ensures r ==> fs.link != Missing
    ensures Valid(fs) && !fs.target && fs.link.DbLink? ==> !r
  {
    match fs.link
    case Missing => false
    case DbLink(p) => p in fs.databases
    case OtherFile => true
    case OtherDir => true
    case OtherLink(live) => live
  }

  /** One start of an external program, with its arguments. */
  datatype Invocation = Invocation(program: string, args: seq<string>)

  /** `meson setup -Dbuildtype=<type> <dir>` */
  function Setup(p: Profile): (i: Invocation)
    ensures i.program == "meson" && i.args != [] && WorkDir(i) == ProfileDir(p)
  {
    Invocation("meson", ["setup", "-Dbuildtype=" + BuildType(p), ProfileDir(p)])
  }

  /** `ninja -C <dir>` */
  function Ninja(p: Profile): (i: Invocation)
    ensures i.program == "ninja" && i.args != [] && WorkDir(i) == ProfileDir(p)
  {
    Invocation("ninja", ["-C", ProfileDir(p)])
  }

  /** `meson test -C target/debug` */
  function MesonTest(): (i: Invocation)
    ensures i.program == "meson" && i.args != [] && WorkDir(i) == DebugDir
  {
    Invocation("meson", ["test", "-C", DebugDir])
  }

  /** The directory an invocation works in: its last argument. */
  function WorkDir(i: Invocation): string
    requires i.args != []
  {
    i.args[|i.args| - 1]
  }

  /** Every invocation in `log` works in directory `dir`. */
  predicate WorksIn(log: seq<Invocation>, dir: string) {
    forall i :: 0 <= i < |log| ==> log[i].args != [] && WorkDir(log[i]) == dir
  }

  lemma WorksInAppend(a: seq<Invocation>, b: seq<Invocation>, dir: string)
    requires WorksIn(a, dir) && WorksIn(b, dir)
    ensures WorksIn(a + b, dir)
  {
    forall i | 0 <= i < |a + b| ensures (a + b)[i].args != [] && WorkDir((a + b)[i]) == dir {
      if i < |a| { assert (a + b)[i] == a[i]; } else { assert (a + b)[i] == b[i - |a|]; }
    }
  }

  /** How a run of `meson setup` went, chosen by the environment: it may
      fail to start (or to be waited for), or exit with any status having
      created the build directory, with or without its compile-command
      database, or not. */
  datatype SetupRun = SetupUnlaunched | SetupExited(code: int, makesDir: bool, makesDb: bool)

  /** How a run of `ninja` or `meson test` went. Neither changes the
      state modelled here. */
  datatype ToolRun = Unlaunched | Exited(code: int)

  /** The environment's choices for one `build`. */
  datatype BuildEnv = BuildEnv(setup: SetupRun, ninja: ToolRun)

  /** The environment's choices for one `test`. */
  datatype TestEnv = TestEnv(build: BuildEnv, test: ToolRun)

  /** The result of a command: the state it leaves, the programs it tried
      to start in order, and how it ended. A failing command keeps the
      effects it had before failing. */
  datatype Outcome = Outcome(fs: Fs, log: seq<Invocation>, status: Status)

  /** Two runs that differ at most in exit status. */
  predicate SameSetupEffect(a: SetupRun, b: SetupRun) {
    match (a, b)
    case (SetupUnlaunched, SetupUnlaunched) => true
    case (SetupExited(_, d1, db1), SetupExited(_, d2, db2)) => d1 == d2 && db1 == db2
    case _ => false
  }

  predicate SameEffect(a: ToolRun, b: ToolRun) {
    a.Unlaunched? == b.Unlaunched?
  }

  predicate SameBuildEffects(a: BuildEnv, b: BuildEnv) {
    SameSetupEffect(a.setup, b.setup) && SameEffect(a.ninja, b.ninja)
  }
}
