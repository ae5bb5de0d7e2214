/** `carton build`, `carton test` and `carton clean` as transitions over
    the abstract project directory. Each returns the state it leaves, the
    external programs it tried to start and how it ended. */
module Commands {
  import opened Cli
  import opened Workspace

  /** The state after `meson setup` ran for profile `p`. */
  function AfterSetup(fs: Fs, p: Profile, run: SetupRun): (r: Fs)
    requires run.SetupExited?
    ensures r.manifest == fs.manifest && r.link == fs.link
    ensures p in r.dirs <==> p in fs.dirs || run.makesDir
    ensures r.target == (fs.target || run.makesDir)
    ensures p in r.databases <==> p in fs.databases || (run.makesDir && run.makesDb)
    ensures r.dirs - {p} == fs.dirs - {p} && r.databases - {p} == fs.databases - {p}
    ensures Valid(fs) ==> Valid(r)
  {
    if run.makesDir then
      fs.(target := true,
          dirs := fs.dirs + {p},
          databases := if run.makesDb then fs.databases + {p} else fs.databases)
    else fs
  }

  /** The entry can be replaced by a fresh link: nothing is there, or
      something the link-following check sees and `remove_file` can
      delete. */
  predicate Replaceable(fs: Fs) {
    fs.link == Missing || (Resolves(fs) && fs.link != OtherDir)
  }

  /** The last step of `build`: when the link-following check sees the
      entry it is removed, then a link to the profile's database is
      created. A dangling link is not seen, so the creation fails on it. */
  function Relink(fs: Fs, p: Profile): (r: (Fs, Status))
    ensures r.1.Success? <==> Replaceable(fs)
    ensures r.1.Success? ==> r.0 == fs.(link := DbLink(p))
    ensures r.1.Failure? ==> r.0 == fs
    ensures fs.link == OtherDir ==> r.1 == Failure(RemoveFailed("compile_commands.json"))
    ensures fs.link != Missing && !Resolves(fs) ==> r.1 == Failure(SymlinkFailed("compile_commands.json"))
  {
    if Resolves(fs) && fs.link == OtherDir then
      (fs, Failure(RemoveFailed("compile_commands.json")))
    else
      var cleared := if Resolves(fs) then fs.(link := Missing) else fs;
      if cleared.link != Missing then (fs, Failure(SymlinkFailed("compile_commands.json")))
      else (cleared.(link := DbLink(p)), Success)
  }

  /** The state `build` relinks in: after setup when it ran. */
  function Configured(fs: Fs, p: Profile, env: BuildEnv): Fs
    requires p in fs.dirs || env.setup.SetupExited?
  {
    if p in fs.dirs then fs else AfterSetup(fs, p, env.setup)
  }

  /** `carton build` up to the relinking: the project check, `meson setup`
      when the profile directory is missing, then `ninja`. It succeeds when
      every program it had to run was started, whatever they exited with. */
  function Compile(fs: Fs, p: Profile, env: BuildEnv): (r: Outcome)
    ensures !fs.manifest ==> r == Outcome(fs, [], Failure(NotInProject))
    ensures r.status.Success? <==> fs.manifest && (p in fs.dirs || env.setup.SetupExited?) && env.ninja.Exited?
    ensures r.status.Success? ==> r.fs == Configured(fs, p, env)
    ensures fs.manifest ==> (Setup(p) in r.log <==> p !in fs.dirs)
    ensures r.fs.link == fs.link
  {
    if !fs.manifest then Outcome(fs, [], Failure(NotInProject))
    else if p !in fs.dirs && env.setup.SetupUnlaunched? then
      Outcome(fs, [Setup(p)], Failure(SpawnFailed("meson")))
    else
      var log := (if p in fs.dirs then [] else [Setup(p)]) + [Ninja(p)];
      Outcome(Configured(fs, p, env), log, if env.ninja.Unlaunched? then Failure(SpawnFailed("ninja")) else Success)
  }

  /** `carton build`: outside a project nothing runs. Otherwise `meson
      setup` runs exactly when the profile directory is missing, `ninja`
      runs every time, and neither's exit status is looked at; only a
      program that cannot be started stops the build. On success the
      top-level link points at the built profile's database, whatever it
      pointed at before. */
  function Build(fs: Fs, p: Profile, env: BuildEnv): (r: Outcome)
    ensures !fs.manifest ==> r == Outcome(fs, [], Failure(NotInProject))
    ensures fs.manifest ==> (Setup(p) in r.log <==> p !in fs.dirs)
    ensures fs.manifest ==> (Ninja(p) in r.log <==> p in fs.dirs || env.setup.SetupExited?)
    ensures r.log == [] || r.log == [Setup(p)] || r.log == [Ninja(p)] || r.log == [Setup(p), Ninja(p)]
    ensures WorksIn(r.log, ProfileDir(p))
    ensures r.status.Success? ==> r.fs.link == DbLink(p) && r.log[|r.log| - 1] == Ninja(p)
    ensures r.status.Failure? ==> r.fs.link == fs.link
    ensures r.fs.manifest == fs.manifest
    ensures fs.dirs <= r.fs.dirs && r.fs.dirs - {p} == fs.dirs - {p}
    ensures r.fs.target == (fs.target || (p !in fs.dirs && p in r.fs.dirs))
    ensures r.fs.databases - {p} == fs.databases - {p}
    ensures Valid(fs) ==> Valid(r.fs)
  {
    WorkDirs(p);
    var compiled := Compile(fs, p, env);
    if compiled.status.Failure? then compiled
    else
      var (linked, status) := Relink(compiled.fs, p);
      Outcome(linked, compiled.log, status)
  }

  lemma WorkDirs(p: Profile)
    ensures WorkDir(Setup(p)) == ProfileDir(p) && WorkDir(Ninja(p)) == ProfileDir(p)
    ensures WorkDir(MesonTest()) == DebugDir
  {
  }

  /** When `build` succeeds: in a project, with every program it needs
      started, and with an entry it can replace once setup has run. */
  lemma BuildSucceedsIff(fs: Fs, p: Profile, env: BuildEnv)
    ensures Build(fs, p, env).status.Success? <==>
              && fs.manifest
              && (p in fs.dirs || env.setup.SetupExited?)
              && env.ninja.Exited?
              && Replaceable(Configured(fs, p, env))
  {
  }

  /** Exit statuses are never inspected: two environments that differ
      only in the statuses the programs exit with give the same build. */
  lemma BuildIgnoresExitStatus(fs: Fs, p: Profile, e1: BuildEnv, e2: BuildEnv)
    requires SameBuildEffects(e1, e2)
    ensures Build(fs, p, e1) == Build(fs, p, e2)
  {
    assert Compile(fs, p, e1) == Compile(fs, p, e2);
  }

  /** Builds of one profile in consecutive invocations, whatever each one
      ends with: the final state, every program tried, and the last
      status. */
  function Builds(fs: Fs, p: Profile, envs: seq<BuildEnv>): (r: Outcome)
    ensures r.fs.manifest == fs.manifest
    ensures fs.dirs <= r.fs.dirs
    decreases |envs|
  {
    if envs == [] then Outcome(fs, [], Success)
    else
      var first := Build(fs, p, envs[0]);
      var rest := Builds(first.fs, p, envs[1..]);
      Outcome(rest.fs, first.log + rest.log, if |envs| == 1 then first.status else rest.status)
  }

  /** Configuration happens at most once: when setup leaves the profile
      directory behind, any number of consecutive builds of that profile
      start `meson setup` at most once, and not at all when the directory
      was already there. */
  lemma {:induction false} BuildsConfigureOnce(fs: Fs, p: Profile, envs: seq<BuildEnv>)
    requires forall i :: 0 <= i < |envs| ==> envs[i].setup.SetupExited? && envs[i].setup.makesDir
    ensures multiset(Builds(fs, p, envs).log)[Setup(p)] <= 1
    ensures p in fs.dirs || !fs.manifest ==> multiset(Builds(fs, p, envs).log)[Setup(p)] == 0
    decreases |envs|
  {
    if envs != [] {
      var first := Build(fs, p, envs[0]);
      OneBuildConfiguresOnce(fs, p, envs[0]);
      BuildsConfigureOnce(first.fs, p, envs[1..]);
      assert multiset(first.log + Builds(first.fs, p, envs[1..]).log)
          == multiset(first.log) + multiset(Builds(first.fs, p, envs[1..]).log);
    }
  }

  /** A single build starts `meson setup` at most once, not at all when
      the profile directory exists, and a setup that creates the directory
      leaves it for the next build. */
  lemma OneBuildConfiguresOnce(fs: Fs, p: Profile, env: BuildEnv)
    ensures multiset(Build(fs, p, env).log)[Setup(p)] <= 1
    ensures p in fs.dirs || !fs.manifest ==> multiset(Build(fs, p, env).log)[Setup(p)] == 0
    ensures env.setup.SetupExited? && env.setup.makesDir ==>
              p in Build(fs, p, env).fs.dirs || !Build(fs, p, env).fs.manifest
  {
    var log := Build(fs, p, env).log;
    assert log == [] || log == [Setup(p)] || log == [Ninja(p)] || log == [Setup(p), Ninja(p)];
    assert Setup(p) != Ninja(p);
  }

  /** Two consecutive builds: the second runs setup exactly when the
      first left no profile directory, so it never does when the first
      one's setup created it. */
  lemma SecondBuildSkipsSetup(fs: Fs, p: Profile, e1: BuildEnv, e2: BuildEnv)
    requires fs.manifest
    requires e1.setup.SetupExited? && e1.setup.makesDir
    ensures Setup(p) !in Build(Build(fs, p, e1).fs, p, e2).log
  {
  }

  /** Switching profiles re-points the link: after a successful build of
      `p` whose database exists, a build of `q` that starts its programs
      succeeds and leaves the link at `q`, never at `p`. */
  lemma SwitchProfileRelinks(fs: Fs, p: Profile, q: Profile, e1: BuildEnv, e2: BuildEnv)
    requires Build(fs, p, e1).status.Success?
    requires p in Build(fs, p, e1).fs.databases
    requires q in Build(fs, p, e1).fs.dirs || e2.setup.SetupExited?
    requires e2.ninja.Exited?
    ensures Build(Build(fs, p, e1).fs, q, e2).status.Success?
    ensures Build(Build(fs, p, e1).fs, q, e2).fs.link == DbLink(q)
  {
  }

  /** An entry that still dangles once setup has run blocks the build:
      the link-following check does not see it, so it is not removed and
      creating the new link fails, leaving the dangling link in place.
      Such an entry is a user's dangling link, or carton's link to a
      profile whose database is gone and is not the one being rebuilt. */
  lemma DanglingLinkBlocksBuild(fs: Fs, p: Profile, env: BuildEnv)
    requires fs.manifest && (p in fs.dirs || env.setup.SetupExited?) && env.ninja.Exited?
    requires fs.link != Missing && !Resolves(Configured(fs, p, env))
    ensures Build(fs, p, env).status == Failure(SymlinkFailed("compile_commands.json"))
    ensures Build(fs, p, env).fs.link == fs.link
  {
  }

  /** `carton test`: when `target/debug` is missing it builds the debug
      profile first and stops if that fails; then it starts `meson test`
      on `target/debug`. With `target/debug` present it runs the tests
      without any project check. Nothing it starts works on the release
      directory, and the release directory is left as it was. */
  function Test(fs: Fs, env: TestEnv): (r: Outcome)
    ensures Debug in fs.dirs ==>
              r.fs == fs && r.log == [MesonTest()]
              && (r.status.Success? <==> env.test.Exited?)
    ensures Debug !in fs.dirs ==>
              var b := Build(fs, Debug, env.build);
              && (b.status.Failure? ==> r == b)
              && (b.status.Success? ==>
                    r.fs == b.fs && r.log == b.log + [MesonTest()]
                    && (r.status.Success? <==> env.test.Exited?))
    ensures Debug !in fs.dirs && !fs.manifest ==> r == Outcome(fs, [], Failure(NotInProject))
    ensures MesonTest() in r.log <==> Debug in fs.dirs || Build(fs, Debug, env.build).status.Success?
    ensures WorksIn(r.log, DebugDir)
    ensures Release in r.fs.dirs <==> Release in fs.dirs
    ensures Valid(fs) ==> Valid(r.fs)
  {
    WorkDirs(Debug);
    ProfileMapping(Debug, Release);
    assert MesonTest() != Setup(Debug) && MesonTest() != Ninja(Debug);
    if Debug !in fs.dirs then
      var b := Build(fs, Debug, env.build);
      if b.status.Failure? then b
      else
        WorksInAppend(b.log, [MesonTest()], DebugDir);
        RunTests(b.fs, b.log, env.test)
    else RunTests(fs, [], env.test)
  }

  /** `meson test -C target/debug`, after the programs in `log`: it leaves
      the state as it is and fails only when it cannot be started. */
  function RunTests(fs: Fs, log: seq<Invocation>, run: ToolRun): (r: Outcome)
    ensures r.fs == fs && r.log == log + [MesonTest()]
    ensures r.status.Success? <==> run.Exited?
  {
    Outcome(fs, log + [MesonTest()], if run.Unlaunched? then Failure(SpawnFailed("meson")) else Success)
  }

  /** `carton clean`: removes `target` with both profile directories,
      failing when it is absent, so a second clean in a row always fails.
      The link is checked only afterwards and through the link-following
      check, so a link into `target` is never removed; another file or a
      live link is. No program is started and no project check is made. */
  function Clean(fs: Fs): (r: Outcome)
    ensures r.log == []
    ensures !fs.target ==> r == Outcome(fs, [], Failure(NotFound(TargetDir)))
    ensures fs.target ==> (r.status.Success? <==> fs.link != OtherDir)
    ensures r.fs.link == (if fs.target && (fs.link == OtherFile || fs.link == OtherLink(true)) then Missing else fs.link)
    ensures !r.fs.target
    ensures Valid(fs) ==> r.fs.dirs == {} && r.fs.databases == {} && Valid(r.fs)
    ensures r.fs.manifest == fs.manifest
    ensures r.fs.link.DbLink? <==> fs.link.DbLink?
    ensures Valid(fs) && r.fs.link.DbLink? ==> r.fs.link == fs.link && !Resolves(r.fs)
    ensures fs.target && (fs.link == OtherFile || fs.link == OtherLink(true)) ==>
              r.status.Success? && r.fs.link == Missing
    ensures fs.target && fs.link == OtherDir ==> r.status == Failure(RemoveFailed("compile_commands.json"))
  {
    if !fs.target then Outcome(fs, [], Failure(NotFound(TargetDir)))
    else
      var emptied := fs.(target := false, dirs := {}, databases := {});
      if !Resolves(emptied) then Outcome(emptied, [], Success)
      else if emptied.link == OtherDir then
        Outcome(emptied, [], Failure(RemoveFailed("compile_commands.json")))
      else Outcome(emptied.(link := Missing), [], Success)
  }

  /** Testing twice builds at most once: when the first test's setup
      creates `target/debug`, the second test only runs `meson test`,
      whatever the first test's build or tests ended with. */
  lemma TestBuildsDebugOnce(fs: Fs, e1: TestEnv, e2: TestEnv)
    requires fs.manifest
    requires e1.build.setup.SetupExited? && e1.build.setup.makesDir
    ensures Test(Test(fs, e1).fs, e2).log == [MesonTest()]
  {
  }

  /** Two cleans in a row: the second always fails, because the first
      always leaves `target` absent. */
  lemma CleanTwiceFails(fs: Fs)
    ensures Clean(Clean(fs).fs).status == Failure(NotFound(TargetDir))
  {
  }

  /** Build, clean, build the other profile: the clean left the link to
      the first profile's database dangling, so the second build fails on
      it even when all its programs start. */
  lemma CleanThenOtherBuildFails(fs: Fs, p: Profile, q: Profile, e1: BuildEnv, e2: BuildEnv)
    requires Valid(fs)
    requires Build(fs, p, e1).status.Success?
    requires q != p
    requires e2.setup.SetupExited? && e2.ninja.Exited?
    ensures Clean(Build(fs, p, e1).fs).fs.link == DbLink(p)
    ensures Build(Clean(Build(fs, p, e1).fs).fs, q, e2).status == Failure(SymlinkFailed("compile_commands.json"))
  {
    DanglingLinkBlocksBuild(Clean(Build(fs, p, e1).fs).fs, q, e2);
  }
}
