# build.py command planning, in Dafny

`build.py` is the single-file build system of an OpenGL/GLFW template. A
`CProject` descriptor holds a name, a compiler, compiler flags, an output
kind (executable, static library, shared library) and five lists: sources,
include directories, defines, library directories and link libraries. Its
`build` method picks the platform hook (`on_windows` or `on_linux`), which
appends platform-specific sources, defines and link libraries, and then
issues shell commands: one compile command per distinct source, followed
by exactly one link, archive or "Failed to link" command chosen by the kind.

This project models that command planning and proves what it does:

- `wrappers.dfy`: `Option` and `Result`.
- `seqs.dfy`: last and first occurrence in a sequence. It also has the
  insertion-ordered dictionary that `dict(zip(keys, values))` builds: its keys
  come in order of first occurrence (`Dedup`) and the last value wins
  (`ZipMap`).
- `paths.dfy`: Python's `str.split` and `str.join`, `Helper.change_extension`,
  `Helper.join_flag` with an independent reference reading (`FlagEach`),
  `os.path.basename`, and `os.path.join` with `/` as separator.
- `bootstrap.dfy`: the creation of the three output directories when a
  descriptor is constructed, over a file system reduced to a set of
  directories and a set of files.
- `plan.dfy`: the descriptor as a value (`Descriptor`), and `build` as a pure
  function (`BuildPlan`) that gives the descriptor after the hook and the
  list of commands issued. Every lemma about the build is stated over it.
- `project.dfy`: the `CProject` class with its list fields, its hooks and a
  `Build` method. `Build` updates the fields in place and appends each issued
  command to a `commands` log. It is proved to do exactly what `BuildPlan`
  describes.

Running a shell command is modelled as appending its text to `commands`.
The platform name that `platform.system()` would return is a parameter of
`Build`. The two abstract hooks are represented by two `Profile` values
given at construction: the sources, defines and link libraries each hook
appends.

## Model

| member | source | states |
|---|---|---|
| Seqs.Dedup | build.py:97 | the keys of `dict(zip(...))`: no more entries than the input, and exactly the same elements |
| Seqs.DedupDistinct | build.py:97 | a dictionary yields each key once |
| Seqs.DedupFirstOccurrenceOrder | build.py:97 | the keys come in order of first occurrence in the source list |
| Seqs.DedupKeepsAllIffDistinct | build.py:97 | the keys are the whole list exactly when no source repeats; otherwise there are fewer of them |
| Seqs.ZipMap | build.py:97 | the dictionary's keys are exactly the listed sources |
| Seqs.ZipMapLastWins | build.py:97 | for a repeated key the dictionary holds the value paired with its last occurrence |
| Paths.SplitPieces | build.py:17 | `split` gives at least one piece, no piece contains the separator, and there is one piece exactly when the separator does not occur |
| Paths.JoinSplit | build.py:17-19 | joining the pieces of a split with the same separator gives the original string back |
| Paths.ChangeExtensionKeepsThroughLastDot | build.py:16-20 | `change_extension` keeps the path up to and including its last `.` and puts the new extension after it; a path without `.` becomes the extension itself |
| Paths.ChangeExtensionAfterDot | build.py:16-20 | a path that ends in `.` followed by a dot-free extension is unchanged by changing to that extension |
| Paths.ChangeExtensionIdempotent | build.py:16-20 | changing to a dot-free extension twice is the same as once |
| Paths.JoinFlagIsFlagEach | build.py:22-24 | `join_flag` is the empty string for an empty list, and otherwise puts `" flag "` before each item, in order |
| Paths.FlagEachAppend | build.py:22-24 | the reference reading of flag joining distributes over list concatenation |
| Paths.FlagEachAt | build.py:22-24 | cutting the list at item `i` cuts the joined flags at `" flag " + item` |
| Paths.FlagEachTwice | build.py:22-24 | cutting the list at items `i < j` cuts the joined flags at both items, each preceded by `" flag "` |
| Paths.JoinFlagAppend | build.py:22-24 | joining the flags of `a + b` is joining those of `a` followed by those of `b` |
| Paths.JoinFlagExamples | build.py:22-24 | `[]` gives `""`, `-D` over `A`, `B` gives `" -D A -D B"`, and an empty flag gives two spaces before each item |
| Paths.Basename | build.py:72 | the basename has no `/` and is a suffix of the path |
| Paths.BasenameOfPlainName | build.py:72 | a name without `/` is its own basename |
| Paths.BasenameOfJoined | build.py:72 | the basename of `dir/file` is `file` |
| Paths.PathJoinUnder | build.py:72 | joining a relative second part keeps the first part as a prefix, followed by the second part directly or after one `/` |
| Paths.PathJoinBasename | build.py:72 | the basename of `join(dir, file)` is `file` for a non-empty file name without `/`, whatever `dir` is |
| Bootstrap.Bootstrap | build.py:61-69 | each output directory exists afterwards unless a file occupies its path; files are untouched; only the three output paths are added; consistency is kept |
| Bootstrap.BootstrapIdempotent | build.py:61-69 | constructing a descriptor over an initialised tree changes nothing more |
| Project.CProject.constructor | build.py:40-63 | the scalars are stored as given, a list argument that is not a list becomes empty, the output directories are `build/bin-int`, `build/bin` and `build/dependencies`, and nothing has been issued yet |
| Plan.Augment | build.py:148-188 | a hook appends its sources, defines and links after what the caller set, and changes nothing else |
| Project.CProject.OnLinux | build.py:148-165 | the descriptor becomes the Linux augmentation of the old one; no command is issued |
| Project.CProject.OnWindows | build.py:167-188 | the descriptor becomes the Windows augmentation of the old one; no command is issued |
| Plan.ObjectsAt | build.py:71-72 | `get_objects` gives one object per source, in source order, and object `i` is the object path of source `i` |
| Plan.ObjectUnderObjdir | build.py:72 | every object path starts with the object directory, unless the project name starts with `/` |
| Plan.ObjectPathOfBasename | build.py:72 | a source with basename `stem.ext` gets `<objdir>/<name>_<stem>.o`, whatever its directory |
| Plan.SameBasenameSameObject | build.py:72 | two sources with the same file name in different directories share one object path |
| Plan.SameStemSameObject | build.py:72 | `x.c` and `x.s` in any directories share one object path |
| Plan.DotFreeFileNamesCollapse | build.py:72 | with a project name without `.`, every source whose file name has no `.` gets the object path `<objdir>/o` |
| Plan.CompileStep | build.py:97-99 | the dictionary holds an object for key `i`, and issuing that key's compile command extends the first `i` compile commands to the first `i + 1` |
| Plan.CompileAllAt | build.py:97-99 | command `i` of the compile loop compiles key `i` into its object path |
| Plan.CompileCommandForm | build.py:96-99 | a compile command is the compiler, its flags, `-c <src> -o <obj>`, then `-D` before each define and `-I` before each include |
| Plan.PlatformDefinesFollowCallerDefines | build.py:96 | the platform's defines follow the caller's, and the includes follow all defines |
| Plan.CompileStageOfDistinct | build.py:95-99 | without repeated sources every source is compiled, in list order |
| Project.CProject.CompileSources | build.py:95-99 | the compile loop appends exactly the compile stage of the current descriptor to the command log |
| Plan.LinkCommandByKind | build.py:101-112 | kind 0 links every object into `<targetdir>/<name>.<ext>` with `-l` links then `-L` library directories; kind 1 archives into `<targetdir>/lib<name>.a`; any other kind, shared library included, only echoes "Failed to link" |
| Project.CProject.Link | build.py:101-113 | the link stage appends exactly one command, the link command of the current descriptor |
| Plan.PlatformDispatch | build.py:82-91 | `Windows` runs the Windows hook and links with `exe`; `Linux` runs the Linux hook and links with `out`; any other name fails with "platform not supported" before issuing anything |
| Plan.CompileThenLink | build.py:82-113 | a successful build issues one compile command per distinct source, each once and in order of first occurrence, covering every source, and then exactly one link command |
| Plan.PlatformSourcesCompiled | build.py:86-99 | every source of the caller and of the platform hook is compiled before the link command |
| Plan.ObjectListedTwice | build.py:102 | when sources `i < j` are the same file, the joined object list names that file's object at position `i` and again at position `j` |
| Plan.DuplicateSourceCompiledOnceLinkedTwice | build.py:95-110 | a source listed twice makes the dictionary shorter than the list and has exactly one key position, hence exactly one compile command; its object sits at both positions of the object list; for kind 0 and kind 1 the link or archive command holds that object list, so the object is named twice there |
| Project.CProject.Build | build.py:82-115 | on an unknown platform nothing changes and the build aborts; on `Windows` or `Linux` the descriptor gets that hook's lists, and the log gains the compile stage and then the link command with extension `exe` or `out`; in every case the outcome, the new descriptor and the appended commands are those of `BuildPlan` |

## Left out

- Running commands: `os.system` is modelled as appending to a log. Exit statuses are ignored by the source as well.
- `print` calls: they write progress lines only.
- `Helper.rwildcard` walks the file system. The sources it finds are part of a caller's list, which the model takes as given.
- `Helper.get_platform` calls `platform.system()`. Its result is a parameter of `Build`.
- `Helper.path` builds a `pathlib.Path` and converts it back to a string. It is modelled by the same `/` join as `os.path.join`. Path normalisation (collapsing `//` and `.` pieces) and Windows separators are not modelled.
- Project.CProject.constructor: the directory creation runs on a file system that the class does not hold. It is modelled separately by `Bootstrap.Bootstrap`. The constructor's contract does not speak of the file system.
- Bootstrap.Bootstrap: `os.mkdir` raising when a parent directory is missing, or on a permission error, is not modelled. A missing directory is simply created.
- Project.CProject.constructor: list arguments are stored by reference (build.py:55-59), and the hooks extend them in place with `+=` (build.py:149, 161-162, 168, 179, 184). The model copies each list into a field holding a value. Aliasing between two arguments, or between an argument and the caller's list, is not modelled, so a hook's append is never seen through another name.
- Project.CProject.constructor: a list argument is `Option`. `None` stands for any value that is not a list, because the model has no dynamic typing.
- `KIND` is an `int`. The parameter is annotated `str` (build.py:44), but the kind constants (build.py:36-38) and the only caller (build.py:124) use ints. A string kind never equals 0 or 1, so it echoes "Failed to link". The model gives the same outcome for any int other than 0 and 1.
- The concrete `OpenGLTemplate` subclass is not modelled: its fixed file lists, its constructor's appends and the `__main__` block. Its two hooks are represented by `Profile` values. `src/main.c` is not part of this model.
- Subclass hooks that do more than append sources, defines and link libraries are not modelled. A hook is assumed to only append to those three lists, as both hooks of the template do.

## Object paths

Unique basenames do not make object paths unique. The object path is derived
from the basename with its extension replaced, so two sources with the same
stem and different extensions, for example `a/x.c` and `b/x.s`, share one
object path, and the second compile overwrites the first object. This is
proved as `Plan.SameStemSameObject`. A file name without `.` has its whole
name replaced by the extension, so with a dot-free project name every such
source compiles to `<objdir>/o` (`Plan.DotFreeFileNamesCollapse`). The model
follows the code and does not correct either case.
