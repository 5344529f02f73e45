/**
 * String helpers of the build script: Python's `str.split` and `str.join`,
 * extension rewriting, flag-list joining, and `/`-separated basename and
 * path joining.
 */
module Paths {
  import opened Seqs

  /** Python's `s.split(sep)` for a one-character separator. */
  function Split(s: string, sep: char): (parts: seq<string>)
    ensures |parts| >= 1
  {
    if s == [] then [[]]
    else
      var rest := Split(s[1..], sep);
      if s[0] == sep then [[]] + rest
      else [[s[0]] + rest[0]] + rest[1..]
  }

  /**
   * No piece of a split holds the separator, and there is a single piece
   * exactly when the separator does not occur.
   */
  lemma {:induction false} SplitPieces(s: string, sep: char)
    ensures var parts := Split(s, sep);
      && (forall i :: 0 <= i < |parts| ==> sep !in parts[i])
      && (|parts| == 1 <==> sep !in s)
  {
    if s != [] {
      SplitPieces(s[1..], sep);
      var rest := Split(s[1..], sep);
      var parts := Split(s, sep);
      if s[0] != sep {
        assert parts[0] == [s[0]] + rest[0];
        forall i | 1 <= i < |parts| ensures sep !in parts[i] {
          assert parts[i] == rest[i];
        }
      } else {
        forall i | 1 <= i < |parts| ensures sep !in parts[i] {
          assert parts[i] == rest[i - 1];
        }
      }
      assert s == [s[0]] + s[1..];
    }
  }

  /** Python's `sep.join(parts)`. */
  function Join(parts: seq<string>, sep: string): (s: string)
  {
    if |parts| == 0 then ""
    else if |parts| == 1 then parts[0]
    else parts[0] + sep + Join(parts[1..], sep)
  }

  /** Joining the pieces of a split with the separator gives the string back. */
  lemma {:induction false} JoinSplit(s: string, sep: char)
    ensures Join(Split(s, sep), [sep]) == s
  {
    if s != [] {
      var rest := Split(s[1..], sep);
      JoinSplit(s[1..], sep);
      if s[0] != sep && |rest| > 1 {
        assert rest == [rest[0]] + rest[1..];
      }
    }
  }

  /** `Helper.change_extension`: split on `.`, overwrite the last piece, join again. */
  function ChangeExtension(path: string, ext: string): string
  {
    var items := Split(path, '.');
    Join(items[..|items| - 1] + [ext], ".")
  }

  /** Joining one more piece appends the separator and the piece. */
  lemma {:induction false} JoinSnoc(parts: seq<string>, x: string, sep: string)
    requires |parts| >= 1
    ensures Join(parts + [x], sep) == Join(parts, sep) + sep + x
  {
    if |parts| > 1 {
      JoinSnoc(parts[1..], x, sep);
      assert (parts + [x])[1..] == parts[1..] + [x];
    }
  }

  /** Joining several pieces is joining all but the last, the separator, and the last. */
  lemma {:induction false} JoinLast(parts: seq<string>, sep: string)
    requires |parts| >= 2
    ensures Join(parts, sep) == Join(parts[..|parts| - 1], sep) + sep + parts[|parts| - 1]
  {
    var n := |parts|;
    if n > 2 {
      JoinLast(parts[1..], sep);
      assert parts[..n - 1][1..] == parts[1..][..n - 2];
    }
  }

  /**
   * `ChangeExtension(p, e)` keeps `p` up to and including its last `.`, so
   * dots in directory names stay as they are, and puts `e` after it; a path
   * without any `.` becomes `e` itself.
   */
  lemma ChangeExtensionKeepsThroughLastDot(path: string, ext: string)
    ensures ChangeExtension(path, ext) == path[..LastIndexOf(path, '.') + 1] + ext
    ensures '.' !in path ==> ChangeExtension(path, ext) == ext
  {
    if '.' in path {
      ChangeExtensionOfDotted(path, ext);
    } else {
      var items := Split(path, '.');
      SplitPieces(path, '.');
      assert items[..0] + [ext] == [ext];
    }
  }

  /** A path holding `.` is cut after its last `.` and the extension put there. */
  lemma ChangeExtensionOfDotted(path: string, ext: string)
    requires '.' in path
    ensures ChangeExtension(path, ext) == path[..LastIndexOf(path, '.') + 1] + ext
  {
    JoinSplit(path, '.');
    SplitPieces(path, '.');
    JoinReplaceLast(Split(path, '.'), ext, '.');
  }

  /**
   * Joining with `c` after replacing the last of several pieces, the last one
   * free of `c`, keeps the joined string up to its last `c`.
   */
  lemma JoinReplaceLast(parts: seq<string>, ext: string, c: char)
    requires |parts| >= 2 && c !in parts[|parts| - 1]
    ensures var s := Join(parts, [c]);
      Join(parts[..|parts| - 1] + [ext], [c]) == s[..LastIndexOf(s, c) + 1] + ext
  {
    var n := |parts|;
    var front := Join(parts[..n - 1], [c]);
    CutAfterLast(front, parts[n - 1], ext, c);
    JoinSnoc(parts[..n - 1], ext, [c]);
    JoinLast(parts, [c]);
  }

  /** In `front + [c] + last` with no `c` in `last`, the text through the last `c` is `front + [c]`. */
  lemma CutAfterLast(front: string, last: string, ext: string, c: char)
    requires c !in last
    ensures var s := front + [c] + last;
      s[..LastIndexOf(s, c) + 1] + ext == front + [c] + ext
  {
    LastIndexOfSeparator(front, c, last);
    assert (front + [c] + last)[..|front| + 1] == front + [c];
  }

  /** Rewriting to an extension without a `.` a second time changes nothing. */
  lemma ChangeExtensionIdempotent(path: string, ext: string)
    requires '.' !in ext
    ensures ChangeExtension(ChangeExtension(path, ext), ext) == ChangeExtension(path, ext)
  {
    if '.' in path {
      var k := LastIndexOf(path, '.');
      LastIndexOfIsLast(path, '.');
      ChangeExtensionOfDotted(path, ext);
      ChangeExtensionAfterDot(path[..k + 1], ext);
    } else {
      ChangeExtensionKeepsThroughLastDot(path, ext);
      ChangeExtensionKeepsThroughLastDot(ext, ext);
    }
  }

  /** A path that ends in `.` and then a dot-free extension keeps it under that extension. */
  lemma ChangeExtensionAfterDot(head: string, ext: string)
    requires |head| > 0 && head[|head| - 1] == '.' && '.' !in ext
    ensures ChangeExtension(head + ext, ext) == head + ext
  {
    LastDotKept(head, ext);
    assert (head + ext)[|head| - 1] == '.';
    ChangeExtensionOfDotted(head + ext, ext);
    assert (head + ext)[..|head|] == head;
  }

  /** A `.` that ends `head` is the last one once a dot-free extension follows it. */
  lemma LastDotKept(head: string, ext: string)
    requires |head| > 0 && head[|head| - 1] == '.' && '.' !in ext
    ensures LastIndexOf(head + ext, '.') == |head| - 1
  {
    LastIndexOfUnique(head, '.', |head| - 1);
    LastIndexOfAppend(head, ext, '.');
  }

  /** `Helper.join_flag`: `" flag ".join([""] + items)`. */
  function JoinFlag(items: seq<string>, flag: string): string
  {
    Join([""] + items, " " + flag + " ")
  }

  /** Reference reading of flag joining: each item is preceded by `" " + flag + " "`. */
  function FlagEach(items: seq<string>, flag: string): string
  {
    PrefixEach(items, " " + flag + " ")
  }

  /** Each item preceded by `sep`, concatenated in order. */
  function PrefixEach(items: seq<string>, sep: string): string
  {
    if items == [] then "" else sep + items[0] + PrefixEach(items[1..], sep)
  }

  /**
   * `JoinFlag` emits nothing for an empty list and otherwise `" " + flag + " " + t`
   * for each item `t` in order; with an empty flag each item gets two spaces.
   */
  lemma JoinFlagIsFlagEach(items: seq<string>, flag: string)
    ensures JoinFlag(items, flag) == FlagEach(items, flag)
    ensures items == [] ==> JoinFlag(items, flag) == ""
  {
    JoinAfterHead("", items, " " + flag + " ");
  }

  /** Joining `[head] + items` with `sep` is `head` followed by each item prefixed with `sep`. */
  lemma {:induction false} JoinAfterHead(head: string, items: seq<string>, sep: string)
    ensures Join([head] + items, sep) == head + PrefixEach(items, sep)
    decreases items
  {
    if items != [] {
      JoinAfterHead(items[0], items[1..], sep);
      assert ([head] + items)[1..] == [items[0]] + items[1..];
      assert head + (sep + items[0] + PrefixEach(items[1..], sep))
          == head + sep + (items[0] + PrefixEach(items[1..], sep));
    }
  }

  /** Prefixing each item distributes over list concatenation. */
  lemma {:induction false} PrefixEachAppend(a: seq<string>, b: seq<string>, sep: string)
    ensures PrefixEach(a + b, sep) == PrefixEach(a, sep) + PrefixEach(b, sep)
  {
    if a == [] {
      assert a + b == b;
    } else {
      PrefixEachAppend(a[1..], b, sep);
      assert (a + b)[1..] == a[1..] + b;
      var x, y, z := sep + a[0], PrefixEach(a[1..], sep), PrefixEach(b, sep);
      assert x + (y + z) == x + y + z;
    }
  }

  /** Flag joining distributes over list concatenation. */
  lemma FlagEachAppend(a: seq<string>, b: seq<string>, flag: string)
    ensures FlagEach(a + b, flag) == FlagEach(a, flag) + FlagEach(b, flag)
  {
    PrefixEachAppend(a, b, " " + flag + " ");
  }

  /** The flags of a list, cut around its item `i`. */
  lemma FlagEachAt(items: seq<string>, flag: string, i: nat)
    requires i < |items|
    ensures FlagEach(items, flag) == FlagEach(items[..i], flag) + (" " + flag + " " + items[i]) + FlagEach(items[i + 1..], flag)
  {
    assert items == items[..i] + items[i..];
    FlagEachAppend(items[..i], items[i..], flag);
    assert items[i..][1..] == items[i + 1..];
    var x, y, z := FlagEach(items[..i], flag), " " + flag + " " + items[i], FlagEach(items[i + 1..], flag);
    assert x + (y + z) == x + y + z;
  }

  /** The flags of a list, cut around its items `i` and `j`: each occurs in place. */
  lemma FlagEachTwice(items: seq<string>, flag: string, i: nat, j: nat)
    requires i < j < |items|
    ensures var sep := " " + flag + " ";
      FlagEach(items, flag)
      == FlagEach(items[..i], flag) + sep + items[i] + FlagEach(items[i + 1..j], flag) + sep + items[j] + FlagEach(items[j + 1..], flag)
  {
    var sep, rest := " " + flag + " ", items[i + 1..];
    FlagEachAt(items, flag, i);
    FlagEachAt(rest, flag, j - i - 1);
    assert rest[..j - i - 1] == items[i + 1..j];
    assert rest[j - i..] == items[j + 1..];
    var a, x := FlagEach(items[..i], flag), items[i];
    var c, y, f := FlagEach(items[i + 1..j], flag), items[j], FlagEach(items[j + 1..], flag);
    assert a + (sep + x) + (c + (sep + y) + f) == a + sep + x + c + sep + y + f;
  }

  /** Joining the flags of two lists one after the other is joining their concatenation. */
  lemma JoinFlagAppend(a: seq<string>, b: seq<string>, flag: string)
    ensures JoinFlag(a + b, flag) == JoinFlag(a, flag) + JoinFlag(b, flag)
  {
    JoinFlagIsFlagEach(a + b, flag);
    JoinFlagIsFlagEach(a, flag);
    JoinFlagIsFlagEach(b, flag);
    FlagEachAppend(a, b, flag);
  }

  /** The two flag-joining examples: `-D` over `A`, `B`, and an empty flag. */
  lemma JoinFlagExamples()
    ensures JoinFlag([], "-D") == ""
    ensures JoinFlag(["A", "B"], "-D") == " -D A -D B"
    ensures JoinFlag(["a.o", "b.o"], "") == "  a.o  b.o"
  {
    JoinFlagIsFlagEach(["A", "B"], "-D");
    assert " " + "-D" + " " == " -D ";
    assert ["A", "B"][1..] == ["B"];
    assert PrefixEach(["B"], " -D ") == " -D B";
    JoinFlagIsFlagEach(["a.o", "b.o"], "");
    assert " " + "" + " " == "  ";
    assert ["a.o", "b.o"][1..] == ["b.o"];
    assert PrefixEach(["b.o"], "  ") == "  b.o";
  }

  /** `os.path.basename`: what follows the last `/`. */
  function Basename(p: string): (b: string)
    ensures '/' !in b
    ensures |b| <= |p| && b == p[|p| - |b|..]
  {
    LastIndexOfIsLast(p, '/');
    p[LastIndexOf(p, '/') + 1..]
  }

  /** A path without `/` is its own basename. */
  lemma BasenameOfPlainName(file: string)
    requires '/' !in file
    ensures Basename(file) == file
  {
  }

  /** The basename of `dir/file` is `file` when `file` has no `/`. */
  lemma BasenameOfJoined(dir: string, file: string)
    requires '/' !in file
    ensures Basename(dir + "/" + file) == file
  {
    LastIndexOfSeparator(dir, '/', file);
    assert (dir + "/" + file)[|dir| + 1..] == file;
  }

  /** `os.path.join(a, b)` with `/` as separator. */
  function PathJoin(a: string, b: string): (p: string)
    ensures |b| > 0 && b[0] == '/' ==> p == b
    ensures (|b| == 0 || b[0] != '/') ==> p == a + (if a == "" || a[|a| - 1] == '/' then "" else "/") + b
  {
    if |b| > 0 && b[0] == '/' then b
    else if a == "" || a[|a| - 1] == '/' then a + b
    else a + "/" + b
  }

  /** A relative second part lands under the first: `a`, then at most one `/`, then `b`. */
  lemma PathJoinUnder(a: string, b: string)
    requires b == [] || b[0] != '/'
    ensures a <= PathJoin(a, b)
    ensures PathJoin(a, b)[|a|..] == b || PathJoin(a, b)[|a|..] == "/" + b
  {
  }

  /** Joining a file name without `/` onto any directory keeps it as the basename. */
  lemma PathJoinBasename(a: string, b: string)
    requires b != [] && '/' !in b
    ensures Basename(PathJoin(a, b)) == b
  {
    assert b[0] != '/';
    if a == "" {
      BasenameOfPlainName(b);
    } else if a[|a| - 1] == '/' {
      BasenameAfterSlash(a, b);
    } else {
      BasenameOfJoined(a, b);
    }
  }

  /** The basename of `a + b`, where `a` ends in `/` and `b` has none, is `b`. */
  lemma BasenameAfterSlash(a: string, b: string)
    requires |a| > 0 && a[|a| - 1] == '/' && '/' !in b
    ensures Basename(a + b) == b
  {
    LastIndexOfUnique(a, '/', |a| - 1);
    LastIndexOfAppend(a, b, '/');
    assert (a + b)[|a|..] == b;
  }
}
