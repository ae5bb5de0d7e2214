/** `build`'s relinking and `clean` as they are evidently meant to behave:
    the top-level entry is looked up without following links (as
    `fs::symlink_metadata` does), so a dangling link is removed like any
    other file. Everything else is as in `Commands`. */
module Corrected {
  import opened Cli
  import opened Workspace
  import Commands

  /** Some entry is at `compile_commands.json`, dangling link or not. */
  predicate Present(fs: Fs) {
    fs.link != Missing
  }

  /** Remove whatever entry is there, then link to the profile's
      database; only a directory in the way stops it. */
  function Relink(fs: Fs, p: Profile): (r: (Fs, Status))
    ensures r.1.Success? <==> fs.link != OtherDir
    ensures r.1.Success? ==> r.0 == fs.(link := DbLink(p))
    ensures r.1.Failure? ==> r.0 == fs && r.1 == Failure(RemoveFailed("compile_commands.json"))
  {
    if fs.link == OtherDir then (fs, Failure(RemoveFailed("compile_commands.json")))
    else
      var cleared := if Present(fs) then fs.(link := Missing) else fs;
      (cleared.(link := DbLink(p)), Success)
  }

  /** `build` with the corrected relinking. */
  function Build(fs: Fs, p: Profile, env: BuildEnv): (r: Outcome)
    ensures r.status.Success? <==>
              fs.manifest && (p in fs.dirs || env.setup.SetupExited?)
              && env.ninja.Exited? && fs.link != OtherDir
    ensures r.status.Success? ==> r.fs.link == DbLink(p)
    ensures r.log == Commands.Build(fs, p, env).log
    ensures Valid(fs) ==> Valid(r.fs)
  {
    var compiled := Commands.Compile(fs, p, env);
    if compiled.status.Failure? then compiled
    else
      var (linked, status) := Relink(compiled.fs, p);
      Outcome(linked, compiled.log, status)
  }

  /** `clean` with the link removed whenever it is present. */
  function Clean(fs: Fs): (r: Outcome)
    ensures r.log == [] && !r.fs.target
    ensures !fs.target ==> r == Outcome(fs, [], Failure(NotFound(TargetDir)))
    ensures fs.target && fs.link != OtherDir ==> r.status.Success? && r.fs.link == Missing
    ensures r.status.Success? ==> r.fs.link == Missing
    ensures Valid(fs) ==> r.fs.dirs == {} && r.fs.databases == {}
  {
    if !fs.target then Outcome(fs, [], Failure(NotFound(TargetDir)))
    else
      var emptied := fs.(target := false, dirs := {}, databases := {});
      if !Present(emptied) then Outcome(emptied, [], Success)
      else if emptied.link == OtherDir then
        Outcome(emptied, [], Failure(RemoveFailed("compile_commands.json")))
      else Outcome(emptied.(link := Missing), [], Success)
  }

  /** Where the code as written leaves a dangling link (see
      `Commands.DanglingLinkBlocksBuild`), the corrected build replaces
      it. */
  lemma BuildReplacesAnyLink(fs: Fs, p: Profile, env: BuildEnv)
    requires fs.manifest && (p in fs.dirs || env.setup.SetupExited?) && env.ninja.Exited?
    requires fs.link != Missing && !Resolves(Commands.Configured(fs, p, env))
    ensures Commands.Build(fs, p, env).status.Failure?
    ensures Build(fs, p, env).status.Success? && Build(fs, p, env).fs.link == DbLink(p)
  {
    Commands.DanglingLinkBlocksBuild(fs, p, env);
  }

  /** Build, clean, build the other profile: with the corrected commands
      the clean removes the link and the second build succeeds, where the
      code as written fails (see `Commands.CleanThenOtherBuildFails`). */
  lemma CleanThenBuildSucceeds(fs: Fs, p: Profile, q: Profile, e1: BuildEnv, e2: BuildEnv)
    requires Valid(fs)
    requires Build(fs, p, e1).status.Success?
    requires p in Build(fs, p, e1).fs.dirs
    requires e2.setup.SetupExited? && e2.ninja.Exited?
    ensures Clean(Build(fs, p, e1).fs).status.Success?
    ensures Clean(Build(fs, p, e1).fs).fs.link == Missing
    ensures Build(Clean(Build(fs, p, e1).fs).fs, q, e2).status.Success?
    ensures Build(Clean(Build(fs, p, e1).fs).fs, q, e2).fs.link == DbLink(q)
  {
  }
}
