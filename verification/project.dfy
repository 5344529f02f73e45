/**
 * The project descriptor class and its `build` method. Running a shell
 * command is modelled as appending the command string to `commands`; the
 * platform name is a parameter of `Build`, and the two platform hooks of the
 * concrete project are given as `Profile` values at construction.
 */
module Project {
  import opened Wrappers
  import opened Seqs
  import opened Paths
  import opened Plan

  /** How `build` ended: normally, or by raising on an unknown platform. */
  datatype Status = Done | Aborted(error: BuildError)

  class CProject {
    const NAME: string
    const CC: string
    const CFLAGS: string
    const KIND: int
    var SOURCES: seq<string>
    var INCLUDES: seq<string>
    var DEFINES: seq<string>
    var LIBS: seq<string>
    var LINKS: seq<string>
    const objdir: string
    const targetdir: string
    const dependencydir: string
    /** What `on_linux` and `on_windows` append. */
    const linux: Profile
    const windows: Profile
    /** Every shell command issued so far, oldest first. */
    var commands: seq<string>

    /** The descriptor the build reads, as a value. */
    function Snapshot(): Descriptor
      reads this`SOURCES, this`INCLUDES, this`DEFINES, this`LIBS, this`LINKS
    {
      Descriptor(NAME, CC, CFLAGS, KIND, SOURCES, INCLUDES, DEFINES, LIBS, LINKS, objdir, targetdir)
    }

    /** Scalars are stored as given; a list argument that is not a list becomes empty. */
    constructor (name: string, cc: string, cflags: string, kind: int,
                 sources: Option<seq<string>>, includes: Option<seq<string>>,
                 defines: Option<seq<string>>, libs: Option<seq<string>>,
                 links: Option<seq<string>>, linux: Profile, windows: Profile)
      ensures NAME == name && CC == cc && CFLAGS == cflags && KIND == kind
      ensures SOURCES == (if sources.Some? then sources.value else [])
      ensures INCLUDES == (if includes.Some? then includes.value else [])
      ensures DEFINES == (if defines.Some? then defines.value else [])
      ensures LIBS == (if libs.Some? then libs.value else [])
      ensures LINKS == (if links.Some? then links.value else [])
      ensures objdir == "build/bin-int" && targetdir == "build/bin" && dependencydir == "build/dependencies"
      ensures this.linux == linux && this.windows == windows
      ensures commands == []
    {
      NAME, CC, CFLAGS, KIND := name, cc, cflags, kind;
      SOURCES := if sources.Some? then sources.value else [];
      INCLUDES := if includes.Some? then includes.value else [];
      DEFINES := if defines.Some? then defines.value else [];
      LIBS := if libs.Some? then libs.value else [];
      LINKS := if links.Some? then links.value else [];
      objdir := "build/bin-int";
      targetdir := "build/bin";
      dependencydir := "build/dependencies";
      this.linux, this.windows := linux, windows;
      commands := [];
    }

    /** `on_linux`: appends the Linux sources, defines and link libraries. */
    method OnLinux()
      modifies this
      ensures Snapshot() == Augment(old(Snapshot()), linux)
      ensures commands == old(commands)
    {
      SOURCES := SOURCES + linux.sources;
      DEFINES := DEFINES + linux.defines;
      LINKS := LINKS + linux.links;
    }

    /** `on_windows`: appends the Windows sources, defines and link libraries. */
    method OnWindows()
      modifies this
      ensures Snapshot() == Augment(old(Snapshot()), windows)
      ensures commands == old(commands)
    {
      SOURCES := SOURCES + windows.sources;
      DEFINES := DEFINES + windows.defines;
      LINKS := LINKS + windows.links;
    }

    /**
     * The compilation stage of `build`: one compile command per entry of
     * `dict(zip(SOURCES, get_objects()))`, i.e. per distinct source in order
     * of first occurrence, with the dictionary's object path.
     */
    method CompileSources()
      modifies this`commands
      ensures commands == old(commands) + CompileStage(Snapshot())
    {
      var d := Snapshot();
      var objects := Objects(d);
      var order := Dedup(SOURCES);
      var table := ZipMap(SOURCES, objects);
      var i := 0;
      while i < |order|
        invariant 0 <= i <= |order|
        invariant commands == old(commands) + CompileAll(d, order[..i])
      {
        var src := order[i];
        CompileStep(d, order, table, i, old(commands), commands);
        commands := commands + [CompileCommand(d, src, table[src])];
        i := i + 1;
      }
      assert order[..i] == order;
    }

    /**
     * The linking stage of `build`: exactly one command, chosen by `KIND`, over
     * every object of `get_objects()` in source order.
     */
    method Link(executableExtension: string)
      modifies this`commands
      ensures commands == old(commands) + [LinkCommand(Snapshot(), executableExtension)]
    {
      var objects := JoinFlag(Objects(Snapshot()), "");
      var prompt := FailedToLink;
      if KIND == KindExecutable {
        var target := PathJoin(targetdir, NAME + "." + executableExtension);
        var rflags := JoinFlag(LINKS, "-l") + JoinFlag(LIBS, "-L");
        prompt := CC + " " + objects + " -o " + target + " " + rflags;
      } else if KIND == KindStaticLib {
        var target := PathJoin(targetdir, "lib" + NAME + ".a");
        prompt := "ar rcs " + target + " " + objects;
      }
      commands := commands + [prompt];
    }

    /**
     * `build`: on `Windows` or `Linux` the matching hook runs, then one compile
     * command per distinct source and one link command are issued, in that
     * order; on any other platform nothing changes and the build aborts.
     * The last postcondition states that this is exactly `BuildPlan`.
     */
    method Build(platform: string) returns (status: Status)
      modifies this
      ensures platform != "Windows" && platform != "Linux" ==>
        status == Aborted(PlatformNotSupported) && Snapshot() == old(Snapshot()) && commands == old(commands)
      ensures platform == "Windows" ==>
        status == Done && Snapshot() == Augment(old(Snapshot()), windows)
        && commands == old(commands) + (CompileStage(Snapshot()) + [LinkCommand(Snapshot(), "exe")])
      ensures platform == "Linux" ==>
        status == Done && Snapshot() == Augment(old(Snapshot()), linux)
        && commands == old(commands) + (CompileStage(Snapshot()) + [LinkCommand(Snapshot(), "out")])
      ensures match BuildPlan(old(Snapshot()), platform, linux, windows)
        case Err(e) => status == Aborted(e) && commands == old(commands)
        case Ok(run) => status == Done && Snapshot() == run.after && commands == old(commands) + run.commands
    {
      var executableExtension := "exe";
      if platform == "Windows" {
        OnWindows();
      } else if platform == "Linux" {
        executableExtension := "out";
        OnLinux();
      } else {
        return Aborted(PlatformNotSupported);
      }
      ghost var mid := commands;
      CompileSources();
      Link(executableExtension);
      status := Done;
      ghost var stage, link := CompileStage(Snapshot()), LinkCommand(Snapshot(), executableExtension);
      assert mid + stage + [link] == mid + (stage + [link]);
    }
  }
}
