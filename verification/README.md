# carton, modelled in Dafny

carton is a small command-line front end for C projects built with meson
and ninja. `carton new` lays down a project skeleton from one of two
templates (an application or a library), `carton build` configures a
per-profile build directory under `target/` when it is missing, runs
`ninja` in it and points the top-level `compile_commands.json` at the
profile's compile-command database, `carton test` runs `meson test` on
the debug build, and `carton clean` removes `target/`.

This project models the command logic of `src/main.rs` as pure functions:

- `text.dfy` (module `Text`): Rust's `str::trim` and `str::replace`, which
  `save` uses to write a template body.
- `cli.dfy` (module `Cli`): templates, profiles and their directories, the
  errors a command ends with, and how `new`'s `--bin`/`--lib` flags and
  `build`'s `--release` flag are resolved.
- `scaffold.dfy` (module `Scaffold`): `save`, the project name taken from
  the final path segment (`Path::file_name`), and the file tree `new`
  writes for each template.
- `workspace.dfy` (module `Workspace`): the abstract project directory —
  whether `meson.build` exists, whether `target` exists, which profile
  directories exist, which hold a generated `compile_commands.json`, and
  what sits at the top-level `compile_commands.json` (nothing, carton's
  link to a profile's database, another file, a directory, or another
  link leading outside `target`) — plus the log of the external programs a command tried to
  start.
- `commands.dfy` (module `Commands`): `build`, `test` and `clean` as
  transitions over that state, returning the new state, the programs they
  tried to start and how they ended. The external programs are parameters: the
  environment chooses whether each starts, what it exits with, and
  whether `meson setup` creates the build directory and its database.
- `corrected.dfy` (module `Corrected`): the relinking and the clean as they
  are evidently meant to behave (see Findings).

The model follows what `src/main.rs` does, including behaviour a user
might not expect: there is no `run` command; `new` neither initialises a
git repository nor writes `.clang-format` or `.gitignore`; the exit
statuses of `meson` and `ninja` are never checked; `clean` makes no
project check and fails when `target` is absent, so a second clean
fails; and `clean` leaves a link into `target` dangling rather than
removing it.

## Model

| member | source | states |
|---|---|---|
| Cli.ResolveTemplate | src/main.rs:68-73 | Neither flag or only `--bin` gives the application template, only `--lib` the library one, and both an error |
| Cli.ResolveProfile | src/main.rs:77-81 | The release profile is chosen exactly when `--release` is given |
| Cli.BuildType | src/main.rs:159-162 | The build type passed to `meson setup`: `debug` for the debug profile, `release` for the release one |
| Cli.ProfileDir | src/main.rs:159-162 | A profile's build directory is `target/` followed by its build type |
| Cli.ProfileMapping | src/main.rs:14-16 | Debug maps to (`target/debug`, `debug`) and Release to (`target/release`, `release`); the two are distinct and both lie strictly below `target` |
| Text.Trim | src/main.rs:95 | The trimmed text is the slice of the input between leading and trailing whitespace, with non-whitespace ends |
| Text.TrimUnique | src/main.rs:95 | Any whitespace-bordered slice with non-whitespace ends is the trim, so the contract of `Trim` pins it down |
| Text.TrimIdempotent | src/main.rs:95 | Trimming twice is trimming once |
| Text.Replace | src/main.rs:95 | Rust's `str::replace` for a non-empty pattern: leftmost, non-overlapping occurrences replaced; it carries no contract of its own, and the three lemmas below state what it does |
| Text.ReplaceWithoutOccurrence | src/main.rs:95 | Text without an occurrence of the pattern is left unchanged by replacement |
| Text.ReplaceBySelf | src/main.rs:95 | Replacing the pattern by itself changes nothing |
| Text.ReplaceFillsHoles | src/main.rs:95 | Pieces free of the pattern joined by it become the same pieces joined by the replacement |
| Scaffold.Save | src/main.rs:91-97 | A body with no `<PROJECT>` in it is written exactly as its trim |
| Scaffold.SaveFillsPlaceholders | src/main.rs:95 | A written file is its trimmed body with every `<PROJECT>` replaced by the project name and every other piece verbatim |
| Scaffold.SaveTrimsBeforeSubstituting | src/main.rs:95 | Trimming happens before substitution: for every project name, a body that is `<PROJECT>` with any whitespace around it is written as the name exactly, whitespace at the name's edges included |
| Scaffold.FileName | src/main.rs:106-110 | A project name, when the path has one, is a single non-empty segment other than `.` and `..` |
| Scaffold.FileNameOfChild | src/main.rs:106-110 | The project name of `dir/name` is `name`, for every directory prefix |
| Scaffold.FileNameOfChildSlash | src/main.rs:106-110 | A trailing separator does not change the project name: `dir/name/` gives `name` |
| Scaffold.FileNameOfName | src/main.rs:106-110 | A path that is a single name is its own project name |
| Scaffold.FileNameAbsent | src/main.rs:106-110 | The empty path, `/`, `.`, `./` and `..` have no project name |
| Scaffold.FileNameOfParent | src/main.rs:106-110 | A path ending in `..` has no project name |
| Scaffold.Roles | src/main.rs:111-148 | The application skeleton has three files and the library skeleton seven, none twice; `main.c` only in the former, `lib.c` and the test source only in the latter |
| Scaffold.RelativePath | src/main.rs:111-148 | The project build file lands at the root, every other file strictly inside its folder, and the header is named after the project |
| Scaffold.Dirs | src/main.rs:130-146 | The subdirectories created are exactly the folders the skeleton's files land in, apart from the root |
| Scaffold.BodyOf | src/main.rs:114-148 | Which template body each file is saved from: the project and source build files and the source file by template, the include and test files from their own bodies |
| Scaffold.SaveAll | src/main.rs:111-148 | Saving a list of files writes exactly those files, each from its own body |
| Scaffold.Files | src/main.rs:111-148 | The application skeleton is exactly the project build file, the source build file and `main.c`; the library skeleton exactly the project and source build files, `lib.c`, the include build file, `<name>.h`, the test build file and `test.c`; each saved from its own body |
| Scaffold.PathsDistinct | src/main.rs:111-148 | The files of a skeleton land at pairwise distinct paths, so no write overwrites another |
| Scaffold.New | src/main.rs:99-152 | An existing path fails with nothing created; otherwise the directory is created, a path without a name then fails with no files, and success writes exactly the template's files and directories, every file outside the root inside a created directory |
| Scaffold.NewCommand | src/main.rs:67-74 | Both flags fail before anything is created, whatever the path; otherwise `new` runs with the resolved template |
| Commands.AfterSetup | src/main.rs:164-171 | Setup only ever adds the profile's directory (creating `target` with it), and its database exactly when it generated one; an existing database is kept, and the directory shape stays valid |
| Commands.Relink | src/main.rs:175-182 | Relinking succeeds exactly when the entry is absent or is seen by the link-following check and is not a directory; then it points at the profile; on failure nothing changes, and a dangling link makes the link creation fail |
| Workspace.Setup | src/main.rs:165-168 | The invocation `meson setup -Dbuildtype=<type> <profile dir>`: a run of `meson` working in the profile's directory |
| Workspace.Ninja | src/main.rs:173 | The invocation `ninja -C <profile dir>`: a run of `ninja` working in the profile's directory |
| Workspace.MesonTest | src/main.rs:192-194 | The invocation `meson test -C target/debug`: a run of `meson` working in `target/debug` |
| Workspace.Resolves | src/main.rs:175-176 | The link-following check (also used by `clean` at line 203) never sees a missing entry, and never sees carton's link once `target` is gone |
| Commands.Compile | src/main.rs:154-173 | Before relinking, a build succeeds exactly when in a project with every needed program started; it then leaves the state after setup and has not touched the link |
| Commands.Build | src/main.rs:154-185 | Without `meson.build` nothing runs and the error is "not in a project"; setup runs exactly when the profile directory is missing, ninja whenever setup started or was not needed; success leaves the link at the built profile; a failed build never changes the link; only the built profile's directory is added, and `target` appears only with it |
| Commands.BuildSucceedsIff | src/main.rs:154-185 | A build succeeds exactly when in a project, every needed program starts, and the entry is replaceable after setup |
| Commands.BuildIgnoresExitStatus | src/main.rs:164-173 | Environments differing only in exit statuses give the same build |
| Commands.Builds | src/main.rs:154-185 | Consecutive builds keep `meson.build` as it was and never remove a profile directory |
| Commands.BuildsConfigureOnce | src/main.rs:164-171 | When setup creates the directory, any number of consecutive builds start setup at most once, and never when the directory existed |
| Commands.OneBuildConfiguresOnce | src/main.rs:164-171 | A single build starts setup at most once, never when the profile directory exists, and a setup that creates the directory leaves it for the next build |
| Commands.SecondBuildSkipsSetup | src/main.rs:164-171 | After a build whose setup created the directory, the next build does not set up |
| Commands.SwitchProfileRelinks | src/main.rs:175-182 | After a successful build of one profile whose database exists, a build of the other profile succeeds and the link points at the latter |
| Commands.DanglingLinkBlocksBuild | src/main.rs:175-182 | An entry still dangling after setup is not removed, so the build fails creating the link and leaves the dangling link in place |
| Commands.Test | src/main.rs:187-199 | With `target/debug` present only `meson test` runs, without a project check; otherwise a debug build runs first, its failure is the test's result, and after its success `meson test` follows it in the log, on the built state, and decides the status; every program tried works in `target/debug`, and the release directory is untouched |
| Commands.RunTests | src/main.rs:192-196 | `meson test` leaves the state as it is, is appended to the log, and fails only when it cannot be started |
| Commands.TestBuildsDebugOnce | src/main.rs:187-196 | When a test's setup creates `target/debug`, the next test only runs `meson test`, whatever the first one ended with |
| Commands.Clean | src/main.rs:201-207 | Clean fails on a missing `target`; otherwise it succeeds exactly when no directory sits at `compile_commands.json`, with no project check; it removes both profile directories, removes another file or a live link leading outside `target`, leaves a missing entry missing, a user's dangling link and a directory in place (failing on the latter), and never removes carton's link into `target`, which is left dangling; it starts no program |
| Commands.CleanTwiceFails | src/main.rs:201-202 | A second clean in a row always fails with `target` not found |
| Commands.CleanThenOtherBuildFails | src/main.rs:201-206 | Build one profile, clean, build the other: the last build fails on the dangling link even when all its programs start |
| Corrected.Relink | src/main.rs:175-182 | With a non-following lookup, relinking succeeds unless a directory is in the way |
| Corrected.Build | src/main.rs:154-185 | With the corrected relinking, a build succeeds exactly when in a project, its programs start and no directory is in the way |
| Corrected.Clean | src/main.rs:201-206 | With a non-following lookup, a clean succeeds whenever `target` exists and no directory is in the way, and every successful clean leaves no entry at `compile_commands.json` |
| Corrected.BuildReplacesAnyLink | src/main.rs:175-182 | Where the code fails on a dangling link, the corrected build replaces it |
| Corrected.CleanThenBuildSucceeds | src/main.rs:201-206 | Build, clean, build another profile: with the corrected clean every step succeeds and the link ends at the last profile |

## Left out

- Workspace.Resolves: a link other than carton's is modelled as leading outside `target`, so whether it resolves does not change when `target` is removed; a user's own link into `target`, which `clean` would leave dangling just as it does carton's, is not modelled.
- Process spawning, waiting and stdio forwarding for `meson` and `ninja`: each start is an abstract logged effect whose outcome the environment chooses.
- Argument parsing by clap: only the resulting `bin`/`lib` and `release` booleans are modelled.
- `build.rs`: its lookup of `meson` and `ninja` on the `PATH` happens when carton itself is compiled, not when it runs.
- The text of the template bodies in `src/files.rs`: each body is an opaque string that may contain `<PROJECT>`.
- Scaffold.New: the `to_str` failure for a final segment that is not UTF-8 cannot arise, because paths are Dafny strings.
- Scaffold.New: failures of `create_dir_all` and `fs::write` (permissions, disk space) and the partial tree they leave are not modelled; only the existence check and the missing-name failure are.
- Commands.Build: `ninja` and `meson test` are modelled as leaving the abstract state unchanged; the artifacts they produce are not part of it.
- Commands.Clean: failures of `remove_dir_all` other than `target` being absent (permissions, `target` being a file) are not modelled.
- Text.Replace: modelled for a non-empty pattern only; the sole pattern carton uses is `<PROJECT>`.

## Findings

| source | as written | input that shows it | evidently intended | confidence | as-written member | corrected member |
|---|---|---|---|---|---|---|
| src/main.rs:201-206 | `clean` removes `target` first and then checks the link with `fs::metadata`, which follows links, so carton's own link into `target` is never removed | `build`, then `clean`, then `build --release`: the link to `target/debug/compile_commands.json` is dangling and the last build fails creating its link | remove the link whenever an entry is there (`fs::symlink_metadata`) | high, not executed | Commands.CleanThenOtherBuildFails | Corrected.CleanThenBuildSucceeds |
| src/main.rs:175-182 | `build` checks the existing entry with `fs::metadata`, so an entry that still dangles after setup is neither removed nor replaced, and the build fails creating its link; this holds for a user's dangling link, and for carton's link to a profile other than the one being built | a `compile_commands.json` link to `target/debug/compile_commands.json` after `target` was removed, then `build --release` | replace whatever entry is there | high, not executed | Commands.DanglingLinkBlocksBuild | Corrected.BuildReplacesAnyLink |

The main model (`Commands`) keeps the behaviour as written, since it
describes what carton does; `Corrected` holds the intended relinking and
clean with their properties proved.
