/**
 * What one call of `CProject.build` does, as values: the descriptor the
 * platform hook leaves behind and the list of shell commands issued, in order.
 */
module Plan {
  import opened Wrappers
  import opened Seqs
  import opened Paths

  /** The output kinds, kept as the integers the build script uses. */
  const KindExecutable := 0
  const KindStaticLib := 1
  const KindSharedLib := 2

  /** The command issued when the kind has no link step. */
  const FailedToLink := "echo \"Failed to link\""

  /** The fields of a project descriptor that the build reads. */
  datatype Descriptor = Descriptor(
    name: string,
    cc: string,
    cflags: string,
    kind: int,
    sources: seq<string>,
    includes: seq<string>,
    defines: seq<string>,
    libs: seq<string>,
    links: seq<string>,
    objdir: string,
    targetdir: string)

  /** What a platform hook appends to the descriptor. */
  datatype Profile = Profile(sources: seq<string>, defines: seq<string>, links: seq<string>)

  datatype Platform = Windows | Linux

  datatype BuildError = PlatformNotSupported

  /** The descriptor after the hook ran, and the commands issued. */
  datatype Run = Run(after: Descriptor, commands: seq<string>)

  /** The two platform names the build recognises. */
  function ParsePlatform(name: string): Result<Platform, BuildError>
  {
    if name == "Windows" then Ok(Windows)
    else if name == "Linux" then Ok(Linux)
    else Err(PlatformNotSupported)
  }

  /** `exe` unless the platform is Linux. */
  function ExecutableExtension(p: Platform): string
  {
    if p == Linux then "out" else "exe"
  }

  /**
   * A platform hook: appends to the sources, defines and link libraries.
   * What the caller supplied stays a prefix and nothing else changes.
   */
  function Augment(d: Descriptor, p: Profile): (r: Descriptor)
    ensures d.sources <= r.sources && d.defines <= r.defines && d.links <= r.links
    ensures r.sources[|d.sources|..] == p.sources
    ensures r.defines[|d.defines|..] == p.defines
    ensures r.links[|d.links|..] == p.links
    ensures r.(sources := d.sources, defines := d.defines, links := d.links) == d
  {
    d.(sources := d.sources + p.sources, defines := d.defines + p.defines, links := d.links + p.links)
  }

  /** `get_objects` for one source: `<objdir>/<name>_<basename with extension o>`. */
  function ObjectPath(d: Descriptor, src: string): string
  {
    PathJoin(d.objdir, ChangeExtension(d.name + "_" + Basename(src), "o"))
  }

  /** `get_objects`: one object path per source. */
  function Objects(d: Descriptor): (objs: seq<string>)
    ensures |objs| == |d.sources|
  {
    ObjectsOf(d, d.sources)
  }

  /** The object paths of the listed sources, in the order listed. */
  function ObjectsOf(d: Descriptor, srcs: seq<string>): (objs: seq<string>)
    ensures |objs| == |srcs|
  {
    if srcs == [] then []
    else
      var n := |srcs| - 1;
      ObjectsOf(d, srcs[..n]) + [ObjectPath(d, srcs[n])]
  }

  /** Object `i` is the object path of source `i`. */
  lemma {:induction false} ObjectsOfAt(d: Descriptor, srcs: seq<string>, i: nat)
    requires i < |srcs|
    ensures ObjectsOf(d, srcs)[i] == ObjectPath(d, srcs[i])
  {
    var n := |srcs| - 1;
    if i < n {
      ObjectsOfAt(d, srcs[..n], i);
    }
  }

  /** `get_objects` keeps the source order: object `i` belongs to source `i`. */
  lemma ObjectsAt(d: Descriptor)
    ensures |Objects(d)| == |d.sources|
    ensures forall i :: 0 <= i < |d.sources| ==> Objects(d)[i] == ObjectPath(d, d.sources[i])
  {
    forall i | 0 <= i < |d.sources| ensures Objects(d)[i] == ObjectPath(d, d.sources[i]) {
      ObjectsOfAt(d, d.sources, i);
    }
  }

  /**
   * A source whose basename is `stem.ext` (no `.` in `ext`) gets the object
   * `<objdir>/<name>_<stem>.o`, whatever directory it is in.
   */
  lemma ObjectPathOfBasename(d: Descriptor, src: string, stem: string, ext: string)
    requires Basename(src) == stem + "." + ext
    requires '.' !in ext
    ensures ObjectPath(d, src) == PathJoin(d.objdir, d.name + "_" + stem + ".o")
  {
    var file := d.name + "_" + stem + "." + ext;
    assert d.name + "_" + Basename(src) == file;
    assert file == (d.name + "_" + stem) + "." + ext;
    LastIndexOfSeparator(d.name + "_" + stem, '.', ext);
    ChangeExtensionKeepsThroughLastDot(file, "o");
    assert file[..|d.name + "_" + stem| + 1] == d.name + "_" + stem + ".";
  }

  /**
   * Every object lands under the object directory, provided the project
   * name does not start with `/` (which would make the file name absolute).
   */
  lemma ObjectUnderObjdir(d: Descriptor, src: string)
    requires d.name == [] || d.name[0] != '/'
    ensures d.objdir <= ObjectPath(d, src)
  {
    var file := d.name + "_" + Basename(src);
    assert file[0] != '/';
    ChangeExtensionKeepsThroughLastDot(file, "o");
    var obj := ChangeExtension(file, "o");
    assert obj[0] != '/';
    PathJoinUnder(d.objdir, obj);
  }

  /** Two sources in different directories with the same file name share one object. */
  lemma SameBasenameSameObject(d: Descriptor, dir1: string, dir2: string, file: string)
    requires '/' !in file
    ensures ObjectPath(d, dir1 + "/" + file) == ObjectPath(d, dir2 + "/" + file)
  {
    BasenameOfJoined(dir1, file);
    BasenameOfJoined(dir2, file);
  }

  /**
   * Distinct basenames do not make object paths distinct: `x.c` and `x.s`
   * in any directories both compile to `<name>_x.o`.
   */
  lemma SameStemSameObject(d: Descriptor, dir1: string, dir2: string, stem: string, e1: string, e2: string)
    requires '/' !in stem && '/' !in e1 && '/' !in e2
    requires '.' !in e1 && '.' !in e2
    ensures ObjectPath(d, dir1 + "/" + stem + "." + e1) == ObjectPath(d, dir2 + "/" + stem + "." + e2)
  {
    assert '/' !in stem + "." + e1 && '/' !in stem + "." + e2;
    assert dir1 + "/" + stem + "." + e1 == dir1 + "/" + (stem + "." + e1);
    assert dir2 + "/" + stem + "." + e2 == dir2 + "/" + (stem + "." + e2);
    BasenameOfJoined(dir1, stem + "." + e1);
    BasenameOfJoined(dir2, stem + "." + e2);
    ObjectPathOfBasename(d, dir1 + "/" + stem + "." + e1, stem, e1);
    ObjectPathOfBasename(d, dir2 + "/" + stem + "." + e2, stem, e2);
  }

  /**
   * With a dot-free project name, every source whose file name has no `.`
   * (a `Makefile`, say) compiles to the same object, `<objdir>/o`: the whole
   * file name is taken for the extension and replaced.
   */
  lemma DotFreeFileNamesCollapse(d: Descriptor, src: string)
    requires '.' !in d.name && '.' !in Basename(src)
    ensures ObjectPath(d, src) == PathJoin(d.objdir, "o")
  {
    var file := d.name + "_" + Basename(src);
    assert '.' !in file;
    ChangeExtensionKeepsThroughLastDot(file, "o");
  }

  /** The `-D` defines followed by the `-I` include directories. */
  function CompileFlags(d: Descriptor): string
  {
    JoinFlag(d.defines, "-D") + JoinFlag(d.includes, "-I")
  }

  /** The compile command for one source and its object. */
  function CompileCommand(d: Descriptor, src: string, obj: string): string
  {
    d.cc + " " + d.cflags + " -c " + src + " -o " + obj + " " + CompileFlags(d)
  }

  /** The compile commands for the listed sources, in the order listed. */
  function CompileAll(d: Descriptor, srcs: seq<string>): (cmds: seq<string>)
    ensures |cmds| == |srcs|
  {
    if srcs == [] then []
    else
      var n := |srcs| - 1;
      CompileAll(d, srcs[..n]) + [CompileCommand(d, srcs[n], ObjectPath(d, srcs[n]))]
  }

  /** Command `i` compiles source `i` into its object. */
  lemma {:induction false} CompileAllAt(d: Descriptor, srcs: seq<string>, i: nat)
    requires i < |srcs|
    ensures CompileAll(d, srcs)[i] == CompileCommand(d, srcs[i], ObjectPath(d, srcs[i]))
  {
    var n := |srcs| - 1;
    if i < n {
      CompileAllAt(d, srcs[..n], i);
    }
  }

  /**
   * One pass of the compile loop: key `i` of `dict(zip(sources, get_objects()))`
   * is bound to its object path, so issuing its command extends the commands
   * for the first `i` keys to those for the first `i + 1`.
   */
  lemma CompileStep(d: Descriptor, order: seq<string>, table: map<string, string>, i: nat,
                    issued: seq<string>, prev: seq<string>)
    requires order == Dedup(d.sources)
    requires table == ZipMap(d.sources, Objects(d))
    requires i < |order|
    requires prev == issued + CompileAll(d, order[..i])
    ensures order[i] in table
    ensures prev + [CompileCommand(d, order[i], table[order[i]])] == issued + CompileAll(d, order[..i + 1])
  {
    DictHoldsObjectPath(d, order, table, i);
    CompileAllSnoc(d, order, i, issued, prev);
  }

  /** Compiling one more source appends its command. */
  lemma CompileAllSnoc(d: Descriptor, order: seq<string>, i: nat, issued: seq<string>, prev: seq<string>)
    requires i < |order|
    requires prev == issued + CompileAll(d, order[..i])
    ensures prev + [CompileCommand(d, order[i], ObjectPath(d, order[i]))] == issued + CompileAll(d, order[..i + 1])
  {
    assert order[..i + 1][..i] == order[..i];
  }

  /**
   * The dictionary `dict(zip(sources, get_objects()))` maps every key it
   * yields to that source's object path.
   */
  lemma DictHoldsObjectPath(d: Descriptor, order: seq<string>, table: map<string, string>, i: nat)
    requires order == Dedup(d.sources)
    requires table == ZipMap(d.sources, Objects(d))
    requires i < |order|
    ensures order[i] in table && table[order[i]] == ObjectPath(d, order[i])
  {
    var src := order[i];
    assert src in d.sources;
    ZipMapLastWins(d.sources, Objects(d), src);
    ObjectsOfAt(d, d.sources, LastIndexOf(d.sources, src));
  }

  /** The compile stage: the sources in the iteration order of `dict(zip(sources, objects))`. */
  function CompileStage(d: Descriptor): seq<string>
  {
    CompileAll(d, Dedup(d.sources))
  }

  /** The single link or archive command, chosen by the kind. */
  function LinkCommand(d: Descriptor, ext: string): string
  {
    var objects := JoinFlag(Objects(d), "");
    if d.kind == KindExecutable then
      d.cc + " " + objects + " -o " + PathJoin(d.targetdir, d.name + "." + ext) + " "
      + (JoinFlag(d.links, "-l") + JoinFlag(d.libs, "-L"))
    else if d.kind == KindStaticLib then
      "ar rcs " + PathJoin(d.targetdir, "lib" + d.name + ".a") + " " + objects
    else
      FailedToLink
  }

  /**
   * `CProject.build` on a given platform name: resolve the platform, run its
   * hook, compile, then link.
   */
  function BuildPlan(d: Descriptor, platform: string, linux: Profile, windows: Profile): Result<Run, BuildError>
  {
    match ParsePlatform(platform)
    case Err(e) => Err(e)
    case Ok(p) =>
      var after := Augment(d, if p == Windows then windows else linux);
      Ok(Run(after, CompileStage(after) + [LinkCommand(after, ExecutableExtension(p))]))
  }

  /**
   * `Windows` runs the Windows hook and links with extension `exe`, `Linux`
   * runs the Linux hook and links with `out`, and every other name fails
   * before any command is issued.
   */
  lemma PlatformDispatch(d: Descriptor, platform: string, linux: Profile, windows: Profile)
    ensures var r := BuildPlan(d, platform, linux, windows);
      && (r.Err? <==> platform != "Windows" && platform != "Linux")
      && (r.Err? ==> r.error == PlatformNotSupported)
      && (platform == "Windows" ==>
            r.Ok? && r.value.after == Augment(d, windows)
            && r.value.commands == CompileStage(r.value.after) + [LinkCommand(r.value.after, "exe")])
      && (platform == "Linux" ==>
            r.Ok? && r.value.after == Augment(d, linux)
            && r.value.commands == CompileStage(r.value.after) + [LinkCommand(r.value.after, "out")])
  {
  }

  /**
   * A successful build issues one compile command per distinct source of the
   * augmented descriptor, caller's and platform's alike, each source once and
   * in order of first occurrence, and then exactly one link command.
   */
  lemma {:induction false} CompileThenLink(d: Descriptor, platform: string, linux: Profile, windows: Profile)
    requires platform == "Windows" || platform == "Linux"
    ensures var run := BuildPlan(d, platform, linux, windows).value;
      var cmds := run.commands;
      var order := Dedup(run.after.sources);
      && |cmds| == |order| + 1
      && (forall i :: 0 <= i < |order| ==>
            cmds[i] == CompileCommand(run.after, order[i], ObjectPath(run.after, order[i])))
      && (forall s :: s in run.after.sources <==> s in order)
      && Distinct(order)
      && (forall i, j :: 0 <= i < j < |order| ==>
            FirstIndexOf(run.after.sources, order[i]) < FirstIndexOf(run.after.sources, order[j]))
      && cmds[|order|] == LinkCommand(run.after, ExecutableExtension(ParsePlatform(platform).value))
  {
    var run := BuildPlan(d, platform, linux, windows).value;
    var order := Dedup(run.after.sources);
    DedupDistinct(run.after.sources);
    forall i | 0 <= i < |order|
      ensures run.commands[i] == CompileCommand(run.after, order[i], ObjectPath(run.after, order[i]))
    {
      CompileAllAt(run.after, order, i);
    }
    forall i, j | 0 <= i < j < |order|
      ensures FirstIndexOf(run.after.sources, order[i]) < FirstIndexOf(run.after.sources, order[j])
    {
      DedupFirstOccurrenceOrder(run.after.sources, i, j);
    }
  }

  /**
   * The platform's sources are compiled too: every source of the caller and
   * of the hook gets a compile command before the link command.
   */
  lemma PlatformSourcesCompiled(d: Descriptor, platform: string, linux: Profile, windows: Profile, s: string)
    requires platform == "Windows" || platform == "Linux"
    requires s in d.sources + (if platform == "Windows" then windows else linux).sources
    ensures var run := BuildPlan(d, platform, linux, windows).value;
      CompileCommand(run.after, s, ObjectPath(run.after, s)) in run.commands[..|run.commands| - 1]
  {
    var run := BuildPlan(d, platform, linux, windows).value;
    PlatformDispatch(d, platform, linux, windows);
    assert s in run.after.sources;
    assert run.commands[..|run.commands| - 1] == CompileStage(run.after);
    CompileStageCovers(run.after, s);
  }

  /** Every listed source has its compile command in the compile stage. */
  lemma CompileStageCovers(d: Descriptor, s: string)
    requires s in d.sources
    ensures CompileCommand(d, s, ObjectPath(d, s)) in CompileStage(d)
  {
    var order := Dedup(d.sources);
    var i :| 0 <= i < |order| && order[i] == s;
    CompileAllAt(d, order, i);
  }

  /**
   * A compile command is the compiler, its flags, `-c <source> -o <object>`,
   * then `-D` and each define, then `-I` and each include directory.
   */
  lemma CompileCommandForm(d: Descriptor, src: string, obj: string)
    ensures CompileCommand(d, src, obj)
      == d.cc + " " + d.cflags + " -c " + src + " -o " + obj + " "
         + FlagEach(d.defines, "-D") + FlagEach(d.includes, "-I")
  {
    JoinFlagIsFlagEach(d.defines, "-D");
    JoinFlagIsFlagEach(d.includes, "-I");
  }

  /**
   * The link step by kind: kind 0 links the objects into
   * `<targetdir>/<name>.<ext>` with `-l` links then `-L` library directories,
   * kind 1 archives them into `<targetdir>/lib<name>.a`, and every other kind,
   * shared libraries included, only echoes a failure. The object list is
   * every object in source order, each preceded by two spaces.
   */
  lemma LinkCommandByKind(d: Descriptor, ext: string)
    ensures var objects := FlagEach(Objects(d), "");
      && (d.kind == KindExecutable ==>
            LinkCommand(d, ext) == d.cc + " " + objects + " -o " + PathJoin(d.targetdir, d.name + "." + ext)
                                   + " " + (FlagEach(d.links, "-l") + FlagEach(d.libs, "-L")))
      && (d.kind == KindStaticLib ==>
            LinkCommand(d, ext) == "ar rcs " + PathJoin(d.targetdir, "lib" + d.name + ".a") + " " + objects)
      && (d.kind != KindExecutable && d.kind != KindStaticLib ==> LinkCommand(d, ext) == FailedToLink)
      && (d.kind == KindSharedLib ==> LinkCommand(d, ext) == FailedToLink)
  {
    JoinFlagIsFlagEach(Objects(d), "");
    JoinFlagIsFlagEach(d.links, "-l");
    JoinFlagIsFlagEach(d.libs, "-L");
  }

  /**
   * When source `i` and source `j` are the same file, the object list of the
   * link and archive lines names its object at both places.
   */
  lemma ObjectListedTwice(d: Descriptor, i: nat, j: nat)
    requires i < j < |d.sources| && d.sources[i] == d.sources[j]
    ensures var objs := Objects(d);
      var obj := ObjectPath(d, d.sources[i]);
      FlagEach(objs, "") == FlagEach(objs[..i], "") + "  " + obj + FlagEach(objs[i + 1..j], "") + "  " + obj + FlagEach(objs[j + 1..], "")
  {
    ObjectsOfAt(d, d.sources, i);
    ObjectsOfAt(d, d.sources, j);
    FlagEachTwice(Objects(d), "", i, j);
    assert " " + "" + " " == "  ";
  }

  /**
   * A source listed twice is compiled once, by exactly one compile command,
   * yet both copies of its object appear in the link or archive line.
   */
  lemma {:induction false} DuplicateSourceCompiledOnceLinkedTwice(d: Descriptor, platform: string, linux: Profile, windows: Profile, i: nat, j: nat)
    requires platform == "Windows" || platform == "Linux"
    requires var srcs := Augment(d, if platform == "Windows" then windows else linux).sources;
      i < j < |srcs| && srcs[i] == srcs[j]
    ensures var run := BuildPlan(d, platform, linux, windows).value;
      var srcs := run.after.sources;
      var order := Dedup(srcs);
      var objs := Objects(run.after);
      var obj := ObjectPath(run.after, srcs[i]);
      && |order| < |srcs|
      && |run.commands| == |order| + 1
      && (exists k :: 0 <= k < |order| && order[k] == srcs[i] && run.commands[k] == CompileCommand(run.after, srcs[i], obj))
      && (forall k, l :: 0 <= k < |order| && 0 <= l < |order| && order[k] == srcs[i] && order[l] == srcs[i] ==> k == l)
      && |objs| == |srcs| && objs[i] == obj && objs[j] == obj
      && FlagEach(objs, "") == FlagEach(objs[..i], "") + "  " + obj + FlagEach(objs[i + 1..j], "") + "  " + obj + FlagEach(objs[j + 1..], "")
      && (run.after.kind == KindExecutable ==>
            run.commands[|order|] == run.after.cc + " " + FlagEach(objs, "") + " -o "
              + PathJoin(run.after.targetdir, run.after.name + "." + ExecutableExtension(ParsePlatform(platform).value)) + " "
              + (FlagEach(run.after.links, "-l") + FlagEach(run.after.libs, "-L")))
      && (run.after.kind == KindStaticLib ==>
            run.commands[|order|] == "ar rcs " + PathJoin(run.after.targetdir, "lib" + run.after.name + ".a") + " " + FlagEach(objs, ""))
  {
    var run := BuildPlan(d, platform, linux, windows).value;
    var srcs := run.after.sources;
    var order := Dedup(srcs);
    var objs := Objects(run.after);
    var obj := ObjectPath(run.after, srcs[i]);
    CompileThenLink(d, platform, linux, windows);
    DedupKeepsAllIffDistinct(srcs);
    ObjectsOfAt(run.after, srcs, i);
    ObjectsOfAt(run.after, srcs, j);
    assert srcs[i] in order;
    var k :| 0 <= k < |order| && order[k] == srcs[i];
    assert run.commands[k] == CompileCommand(run.after, srcs[i], obj);
    ObjectListedTwice(run.after, i, j);
    LinkCommandByKind(run.after, ExecutableExtension(ParsePlatform(platform).value));
  }

  /**
   * The platform's defines follow the caller's in every compile command,
   * and the include directories come after all defines.
   */
  lemma PlatformDefinesFollowCallerDefines(d: Descriptor, p: Profile)
    ensures CompileFlags(Augment(d, p))
      == JoinFlag(d.defines, "-D") + JoinFlag(p.defines, "-D") + JoinFlag(d.includes, "-I")
  {
    JoinFlagAppend(d.defines, p.defines, "-D");
  }

  /** Without repeated sources the compile stage compiles every source, in list order. */
  lemma CompileStageOfDistinct(d: Descriptor)
    requires Distinct(d.sources)
    ensures |CompileStage(d)| == |d.sources|
    ensures forall i :: 0 <= i < |d.sources| ==>
      CompileStage(d)[i] == CompileCommand(d, d.sources[i], ObjectPath(d, d.sources[i]))
  {
    DedupKeepsAllIffDistinct(d.sources);
    forall i | 0 <= i < |d.sources|
      ensures CompileStage(d)[i] == CompileCommand(d, d.sources[i], ObjectPath(d, d.sources[i]))
    {
      CompileAllAt(d, d.sources, i);
    }
  }
}
