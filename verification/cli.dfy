/** The command-line front of carton: the two templates, the two build
    profiles, the directories they live in, the errors a command can end
    with, and the resolution of `new`'s and `build`'s flags. */
module Cli {

  /** Which project skeleton `new` lays down. */
  datatype Template = Bin | Lib

  /** The build configuration `build` compiles with. */
  datatype Profile = Debug | Release

  /** Every build directory lives below this one; `clean` removes it. */
  const TargetDir: string := "target"
  const ReleaseDir: string := "target/release"
  const DebugDir: string := "target/debug"

  /** The ways a command can fail. `SpawnFailed` covers both the spawn and
      the wait of an external program; a program's exit status is never an
      error. */
  datatype Error =
    | ConflictingFlags            // both `--bin` and `--lib`
    | PathExists(path: string)    // `new` into an existing path
    | BadPath(path: string)       // `new` into a path without a final name
    | NotInProject                // `build` without `meson.build`
    | SpawnFailed(program: string)
    | RemoveFailed(path: string)
    | SymlinkFailed(path: string)
    | NotFound(path: string)      // `clean` without `target`

  /** How a command ended: the `Result<()>` that `main` returns. */
  datatype Status = Success | Failure(error: Error)

  datatype Result<T> = Ok(value: T) | Err(error: Error)

  /** `new`'s flags: `--bin` is the default, `--lib` picks the library
      skeleton, and asking for both is refused before anything is done. */
  function ResolveTemplate(bin: bool, lib: bool): (r: Result<Template>)
    ensures r.Err? <==> bin && lib
    ensures r.Err? ==> r.error == ConflictingFlags
    ensures r == Ok(Lib) <==> lib && !bin
    ensures r == Ok(Bin) <==> !lib
  {
    match (bin, lib)
    case (false, false) => Ok(Bin)
    case (true, false) => Ok(Bin)
    case (false, true) => Ok(Lib)
    case (true, true) => Err(ConflictingFlags)
  }

  /** `build`'s flag: Release exactly when `--release` is given. */
  function ResolveProfile(release: bool): (p: Profile)
    ensures p == Release <==> release
  {
    if release then Release else Debug
  }

  /** The value `meson setup` receives as `-Dbuildtype=`. */
  function BuildType(p: Profile): string {
    match p
    case Debug => "debug"
    case Release => "release"
  }

  /** The build directory of a profile, relative to the project root. */
  function ProfileDir(p: Profile): (d: string)
    ensures d == TargetDir + "/" + BuildType(p)
  {
    match p
    case Debug => DebugDir
    case Release => ReleaseDir
  }

  /** `d` is a directory strictly below `parent`. */
  predicate StrictlyBelow(d: string, parent: string) {
    |parent| + 1 < |d| && d[..|parent|] == parent && d[|parent|] == '/'
  }

  /** The two profiles have distinct build directories and distinct build
      types, and both directories sit strictly below `target`, so removing
      `target` removes both. */
  lemma ProfileMapping(p: Profile, q: Profile)
    ensures ProfileDir(p) == ProfileDir(q) <==> p == q
    ensures BuildType(p) == BuildType(q) <==> p == q
    ensures StrictlyBelow(ProfileDir(p), TargetDir)
    ensures ProfileDir(Debug) == "target/debug" && BuildType(Debug) == "debug"
    ensures ProfileDir(Release) == "target/release" && BuildType(Release) == "release"
  {
  }
}
