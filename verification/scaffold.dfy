/** `carton new`: deriving the project name from the target path, and the
    file tree written for each template. Paths of created entries are
    relative to the new project's root. */
module Scaffold {
  import opened Text
  import opened Cli

  datatype Option<T> = None | Some(value: T)

  /** The placeholder every template body may contain. */
  const Placeholder: string := "<PROJECT>"

  /** The contents `save` writes: the body is trimmed first, then every
      placeholder is replaced by the project name. */
  function Save(project: string, contents: string): (r: string)
    ensures !Occurs(contents, Placeholder) ==> r == Trim(contents)
  {
    SaveWithoutPlaceholder(project, contents);
    Replace(Trim(contents), Placeholder, project)
  }

  lemma PlaceholderHeadNotRepeated()
    ensures HeadNotRepeated(Placeholder)
  {
  }

  /** A body whose trimmed text is literal pieces separated by
      placeholders is written with every placeholder replaced by the
      project name and every piece kept verbatim. */
  lemma SaveFillsPlaceholders(project: string, contents: string, pieces: seq<string>)
    requires Trim(contents) == Join(pieces, Placeholder)
    requires forall i :: 0 <= i < |pieces| ==> !Occurs(pieces[i], Placeholder)
    ensures Save(project, contents) == Join(pieces, project)
  {
    PlaceholderHeadNotRepeated();
    ReplaceFillsHoles(pieces, Placeholder, project);
  }

  /** A body without a placeholder is written only trimmed. */
  lemma SaveWithoutPlaceholder(project: string, contents: string)
    ensures !Occurs(contents, Placeholder) ==> Replace(Trim(contents), Placeholder, project) == Trim(contents)
  {
    if !Occurs(contents, Placeholder) {
      var t := Trim(contents);
      var i := LeadingWhitespace(contents);
      if Occurs(t, Placeholder) {
        OccursInSlice(contents, i, i + |t|, Placeholder);
      }
      ReplaceWithoutOccurrence(t, Placeholder, project);
    }
  }

  /** Substitution comes after trimming: a body that is the placeholder
      alone, with any whitespace around it, is written as the project name
      exactly, whitespace at the name's edges included. */
  lemma SaveTrimsBeforeSubstituting(project: string, lead: string, trail: string)
    requires forall m :: 0 <= m < |lead| ==> IsWhitespace(lead[m])
    requires forall m :: 0 <= m < |trail| ==> IsWhitespace(trail[m])
    ensures Save(project, lead + Placeholder + trail) == project
  {
    var s := lead + Placeholder + trail;
    var i := |lead|;
    var j := |lead| + |Placeholder|;
    assert s[i..j] == Placeholder;
    assert WhitespaceOutside(s, i, j) by {
      forall m | 0 <= m < |s| && (m < i || j <= m) ensures IsWhitespace(s[m]) {
        if m < i { assert s[m] == lead[m]; } else { assert s[m] == trail[m - j]; }
      }
    }
    TrimUnique(s, i, j);
    assert Placeholder[|Placeholder|..] == [];
    assert Replace(Placeholder, Placeholder, project) == project + Replace([], Placeholder, project);
  }

  /** A single path segment that names something: non-empty, without a
      separator, and neither `.` nor `..`. */
  predicate IsName(n: string) {
    n != [] && '/' !in n && n != "." && n != ".."
  }

  /** The characters after the last `/` of `p`. */
  function LastSegment(p: string): (seg: string)
    ensures |seg| <= |p| && seg == p[|p| - |seg|..]
    ensures '/' !in seg
    ensures |seg| < |p| ==> p[|p| - |seg| - 1] == '/'
    ensures p != [] && p[|p| - 1] != '/' ==> seg != []
  {
    if p == [] || p[|p| - 1] == '/' then []
    else
      var seg := LastSegment(p[..|p| - 1]);
      assert p[..|p| - 1][|p| - 1 - |seg|..] == p[|p| - 1 - |seg|..|p| - 1];
      seg + [p[|p| - 1]]
  }

  /** Rust's `Path::file_name`: the final component of `p` when it is a
      name. Trailing separators and `.` components are skipped; a path
      that ends in `..`, is a root, or is empty has none. */
  function FileName(p: string): (r: Option<string>)
    ensures r.Some? ==> IsName(r.value)
    decreases |p|
  {
    if p == [] then None
    else if p[|p| - 1] == '/' then FileName(p[..|p| - 1])
    else
      var seg := LastSegment(p);
      var rest := p[..|p| - |seg|];
      if seg == "." then (if rest == [] then None else FileName(rest))
      else if seg == ".." then None
      else Some(seg)
  }

  lemma {:induction false} LastSegmentOfChild(dir: string, name: string)
    requires name != [] && '/' !in name
    ensures LastSegment(dir + "/" + name) == name
    decreases |name|
  {
    var p := dir + "/" + name;
    var init := name[..|name| - 1];
    var c := name[|name| - 1];
    assert c in name;
    assert p[|p| - 1] == c;
    assert p[..|p| - 1] == dir + "/" + init;
    assert LastSegment(p) == LastSegment(dir + "/" + init) + [c];
    if init == [] {
      assert (dir + "/")[|dir + "/"| - 1] == '/';
      assert dir + "/" + init == dir + "/";
    } else {
      assert forall x :: x in init ==> x in name;
      LastSegmentOfChild(dir, init);
    }
    assert name == init + [c];
  }

  /** The project name is the final segment of the path given to `new`:
      leading directories are dropped. */
  lemma FileNameOfChild(dir: string, name: string)
    requires IsName(name)
    ensures FileName(dir + "/" + name) == Some(name)
  {
    var p := dir + "/" + name;
    LastSegmentOfChild(dir, name);
    assert p[|p| - 1] in name;
    assert FileName(p) == Some(LastSegment(p));
  }

  /** A trailing separator does not change the project name. */
  lemma FileNameOfChildSlash(dir: string, name: string)
    requires IsName(name)
    ensures FileName(dir + "/" + name + "/") == Some(name)
  {
    var p := dir + "/" + name;
    assert (p + "/")[..|p + "/"| - 1] == p;
    assert FileName(p + "/") == FileName(p);
    FileNameOfChild(dir, name);
  }

  /** A path that is a single name is its own project name. */
  lemma FileNameOfName(name: string)
    requires IsName(name)
    ensures FileName(name) == Some(name)
  {
    LastSegmentNoSlash(name);
    assert name[|name| - 1] in name;
    assert FileName(name) == Some(LastSegment(name));
  }

  lemma {:induction false} LastSegmentNoSlash(name: string)
    requires '/' !in name
    ensures LastSegment(name) == name
    decreases |name|
  {
    if name != [] {
      LastSegmentNoSlash(name[..|name| - 1]);
      assert name == name[..|name| - 1] + [name[|name| - 1]];
    }
  }

  /** Paths with no final name. All but the empty one always exist, so
      `new` refuses them at its existence check; a path such as `a/..`
      that does not exist yet is created and then refused (see
      `FileNameOfParent`). */
  lemma FileNameAbsent()
    ensures FileName("") == None && FileName("/") == None
    ensures FileName(".") == None && FileName("./") == None
    ensures FileName("..") == None
  {
    assert "/"[..0] == [];
    FileNameOfDot();
    FileNameOfDotDot();
  }

  lemma FileNameOfDot()
    ensures FileName(".") == None && FileName("./") == None
  {
    var dot := ".";
    LastSegmentNoSlash(dot);
    assert dot[..|dot| - |LastSegment(dot)|] == [];
    assert FileName(dot) == None;
    var p := "./";
    assert p[|p| - 1] == '/' && p[..|p| - 1] == dot;
  }

  lemma FileNameOfDotDot()
    ensures FileName("..") == None
  {
    LastSegmentNoSlash("..");
    assert |".."| != |"."|;
  }

  /** A path ending in `..` has no final name either. */
  lemma FileNameOfParent(dir: string)
    ensures FileName(dir + "/..") == None
  {
    var p := dir + "/..";
    assert dir + "/" + ".." == p;
    LastSegmentOfChild(dir, "..");
    assert p[|p| - 1] == '.';
    assert LastSegment(p) == "..";
    assert |".."| != |"."|;
  }

  /** The static template bodies; their text is opaque here, each may
      contain the placeholder any number of times. */
  datatype Bodies = Bodies(
    projectBinBuild: string,
    projectLibBuild: string,
    includeBuild: string,
    includeTemplate: string,
    sourceBinBuild: string,
    sourceBinTemplate: string,
    sourceLibBuild: string,
    sourceLibTemplate: string,
    testBuild: string,
    testTemplate: string)

  /** What `new` did: whether it created the root directory, which
      subdirectories and files it created, and how it ended. */
  datatype NewOutcome = NewOutcome(
    createdRoot: bool,
    dirs: set<string>,
    files: map<FileRole, string>,
    status: Status)

  /** The files a skeleton can hold, by the part they play. */
  datatype FileRole =
    | ProjectBuild | SourceBuild | MainSource | LibSource
    | IncludeBuild | Header | TestBuild | TestSource

  /** The directory each file lands in: the project root for the
      project's build file, else one of the three subdirectories. */
  function Folder(f: FileRole): string {
    match f
    case ProjectBuild => ""
    case SourceBuild | MainSource | LibSource => "src"
    case IncludeBuild | Header => "include"
    case TestBuild | TestSource => "tests"
  }

  /** The file name of each file within its folder; the header is named
      after the project. */
  function Leaf(f: FileRole, project: string): string {
    match f
    case ProjectBuild | SourceBuild | IncludeBuild | TestBuild => "meson.build"
    case MainSource => "main.c"
    case LibSource => "lib.c"
    case Header => project + ".h"
    case TestSource => "test.c"
  }

  /** Where each file lands, relative to the project root: the project's
      build file at the root, every other file inside its folder, and the
      header named after the project. */
  function RelativePath(f: FileRole, project: string): (p: string)
    ensures f == ProjectBuild ==> '/' !in p
    ensures f != ProjectBuild ==> StrictlyBelow(p, Folder(f))
    ensures f == Header ==> p[|Folder(f)| + 1..] == project + ".h"
  {
    var leaf := Leaf(f, project);
    if f == ProjectBuild then leaf
    else
      var p := Folder(f) + "/" + leaf;
      assert p[..|Folder(f)|] == Folder(f) && p[|Folder(f)| + 1..] == leaf;
      p
  }

  /** The template body each file is saved from. */
  function BodyOf(f: FileRole, template: Template, b: Bodies): string {
    match f
    case ProjectBuild => if template == Bin then b.projectBinBuild else b.projectLibBuild
    case SourceBuild => if template == Bin then b.sourceBinBuild else b.sourceLibBuild
    case MainSource => b.sourceBinTemplate
    case LibSource => b.sourceLibTemplate
    case IncludeBuild => b.includeBuild
    case Header => b.includeTemplate
    case TestBuild => b.testBuild
    case TestSource => b.testTemplate
  }

  /** The files of a template, in the order `new` writes them: three for
      an application, seven for a library, none twice; `main.c` only in
      the former, `lib.c` and the tests only in the latter. */
  function Roles(template: Template): (r: seq<FileRole>)
    ensures forall i, j :: 0 <= i < j < |r| ==> r[i] != r[j]
    ensures |r| == if template == Bin then 3 else 7
    ensures MainSource in r <==> template == Bin
    ensures LibSource in r <==> template == Lib
    ensures TestSource in r <==> template == Lib
  {
    match template
    case Bin => [ProjectBuild, SourceBuild, MainSource]
    case Lib => [ProjectBuild, SourceBuild, LibSource, IncludeBuild, Header, TestBuild, TestSource]
  }

  /** Saves each of `roles` from its body. */
  function SaveAll(roles: seq<FileRole>, template: Template, project: string, b: Bodies): (m: map<FileRole, string>)
    ensures forall f :: f in m <==> f in roles
    ensures forall f :: f in m ==> m[f] == Save(project, BodyOf(f, template, b))
  {
    if roles == [] then map[]
    else SaveAll(roles[..|roles| - 1], template, project, b)[roles[|roles| - 1] := Save(project, BodyOf(roles[|roles| - 1], template, b))]
  }

  /** The files laid down for a template, each saved from its own body. */
  function Files(template: Template, project: string, b: Bodies): (m: map<FileRole, string>)
    ensures forall f :: f in m <==> f in Roles(template)
    ensures forall f :: f in m ==> m[f] == Save(project, BodyOf(f, template, b))
  {
    SaveAll(Roles(template), template, project, b)
  }

  /** The subdirectories `new` creates: exactly the folders its files
      land in, apart from the root. */
  function Dirs(template: Template): (d: set<string>)
    ensures forall f :: f in Roles(template) && f != ProjectBuild ==> Folder(f) in d
    ensures forall x :: x in d ==> exists f :: f in Roles(template) && f != ProjectBuild && Folder(f) == x
  {
    match template
    case Bin => {"src"}
    case Lib =>
      assert SourceBuild in Roles(Lib) && IncludeBuild in Roles(Lib) && TestBuild in Roles(Lib);
      {"src", "include", "tests"}
  }

  /** `carton new`: refuse an existing path without touching anything;
      otherwise create the directory, take the project name from its final
      segment (failing, with the directory left behind, when there is
      none), and write the template's files. */
  function New(pathExists: bool, path: string, template: Template, b: Bodies): (r: NewOutcome)
    ensures pathExists ==> r == NewOutcome(false, {}, map[], Failure(PathExists(path)))
    ensures !pathExists ==> r.createdRoot
    ensures !pathExists && FileName(path).None? ==>
              r.dirs == {} && r.files == map[] && r.status == Failure(BadPath(path))
    ensures r.status.Success? <==> !pathExists && FileName(path).Some?
    ensures r.status.Success? ==> r.files == Files(template, FileName(path).value, b)
    ensures r.status.Success? && template == Bin ==> r.dirs == {"src"}
    ensures r.status.Success? && template == Lib ==> r.dirs == {"src", "include", "tests"}
    ensures r.status.Success? ==> forall f :: f in r.files && f != ProjectBuild ==> Folder(f) in r.dirs
  {
    if pathExists then NewOutcome(false, {}, map[], Failure(PathExists(path)))
    else match FileName(path)
      case None => NewOutcome(true, {}, map[], Failure(BadPath(path)))
      case Some(name) => NewOutcome(true, Dirs(template), Files(template, name, b), Success)
  }

  /** The files of a skeleton land at distinct paths, so no write
      overwrites another: the application skeleton has three files and
      the library skeleton seven. */
  lemma PathsDistinct(f: FileRole, g: FileRole, project: string)
    requires IsName(project)
    ensures RelativePath(f, project) == RelativePath(g, project) <==> f == g
  {
    var p := RelativePath(f, project);
    var q := RelativePath(g, project);
    if f != g {
      PathInitial(f, project);
      PathInitial(g, project);
      if Folder(f) != Folder(g) {
        assert p[0] != q[0];
      } else {
        var n := |Folder(f)| + 1;
        LeavesDistinct(f, g, project);
        assert p[n..] != q[n..];
      }
    }
  }

  /** A path starts with its folder's first letter, or with `m` at the
      root; the four are distinct. */
  lemma PathInitial(f: FileRole, project: string)
    ensures var p := RelativePath(f, project);
            p != [] && p[0] == (if f == ProjectBuild then 'm' else Folder(f)[0])
  {
  }

  /** Two files of one folder have different names. */
  lemma LeavesDistinct(f: FileRole, g: FileRole, project: string)
    requires f != g && Folder(f) == Folder(g) && f != ProjectBuild
    ensures RelativePath(f, project)[|Folder(f)| + 1..] != RelativePath(g, project)[|Folder(f)| + 1..]
  {
    var x := Leaf(f, project);
    var y := Leaf(g, project);
    assert x[|x| - 1] != y[|y| - 1] || x[0] != y[0];
  }

  /** `main`'s handling of `new`: the flags are resolved first, and the
      conflicting pair is refused before the filesystem is consulted. */
  function NewCommand(bin: bool, lib: bool, pathExists: bool, path: string, b: Bodies): (r: NewOutcome)
    ensures bin && lib ==> !r.createdRoot && r.dirs == {} && r.files == map[]
                           && r.status == Failure(ConflictingFlags)
    ensures !(bin && lib) ==> r == New(pathExists, path, if lib then Lib else Bin, b)
  {
    match ResolveTemplate(bin, lib)
    case Err(e) => NewOutcome(false, {}, map[], Failure(e))
    case Ok(template) => New(pathExists, path, template, b)
  }
}
