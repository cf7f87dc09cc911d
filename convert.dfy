/**
 * `tools/convert.py`: the script that rewrites the `#include "..."` lines of
 * the Flite C sources to paths relative to the source root, and wraps the
 * platform files Arduino cannot build in `#ifndef ARDUINO` ... `#endif`.
 *
 * File system access is left out: a file is its text or its list of lines
 * (as `readlines` returns them), and what the script writes is returned.
 * Python exceptions become `Err` values.
 */
module Convert {
  import opened Common

  /** The Python exceptions the modelled code can raise. */
  datatype PyError =
    | ValueError        // str.rindex found nothing
    | IndexError        // lines[0] of an empty file
    | KeyError(key: string)

  datatype Result<T> = Ok(value: T) | Err(error: PyError)

  // ---------------------------------------------------------------- str helpers

  /** `s.startswith(prefix)`. */
  predicate StartsWith(s: string, prefix: string)
  {
    |prefix| <= |s| && s[..|prefix|] == prefix
  }

  /** `s.find(sub)`: the first index at which `sub` occurs. */
  function Find(s: string, sub: string): (r: Option<nat>)
    ensures r.Some? ==> r.value + |sub| <= |s| && s[r.value..r.value + |sub|] == sub
    ensures r.Some? ==> forall i :: 0 <= i < r.value ==> !StartsWith(s[i..], sub)
    ensures r.None? ==> forall i :: 0 <= i <= |s| ==> !StartsWith(s[i..], sub)
    decreases |s|
  {
    if StartsWith(s, sub) then Some(0)
    else if s == [] then None
    else
      var tail := s[1..];
      var rest := Find(tail, sub);
      assert forall i :: 1 <= i <= |s| ==> s[i..] == tail[i - 1..];
      if rest.None? then None
      else
        assert s[rest.value + 1..][..|sub|] == tail[rest.value..][..|sub|];
        Some(rest.value + 1)
  }

  /** `s.replace(target, replacement, 1)`: replace the first occurrence only. */
  function ReplaceFirst(s: string, target: string, replacement: string): string
  {
    match Find(s, target)
    case None => s
    case Some(i) => s[..i] + replacement + s[i + |target|..]
  }

  /** `s.rindex(c)` for a one-character `c`, `None` where Python raises. */
  function RFind(s: string, c: char): (r: Option<nat>)
    ensures r.None? <==> c !in s
    ensures r.Some? ==> r.value < |s| && s[r.value] == c && c !in s[r.value + 1..]
  {
    if s == [] then None
    else if s[|s| - 1] == c then Some(|s| - 1)
    else
      var init := s[..|s| - 1];
      var r := RFind(init, c);
      assert s == init + [s[|s| - 1]];
      if r.None? then None
      else
        assert s[r.value + 1..] == init[r.value + 1..] + [s[|s| - 1]];
        r
  }

  /** `s.replace(c, "")`: every `c` removed, the rest kept in order. */
  function RemoveAll(s: string, c: char): (r: string)
    ensures c !in r
    ensures forall x :: x in r <==> x in s && x != c
    ensures |r| <= |s|
  {
    if s == [] then []
    else (if s[0] == c then [] else [s[0]]) + RemoveAll(s[1..], c)
  }

  /** `s[n:]`: empty when `s` is shorter than `n`. */
  function Drop(s: string, n: nat): string
  {
    if |s| <= n then [] else s[n..]
  }

  /** Python's `str.isspace` for one character. */
  predicate IsSpace(c: char)
  {
    var n := c as int;
    n == 0x20 || 0x09 <= n <= 0x0d || 0x1c <= n <= 0x1f || n == 0x85 || n == 0xa0 ||
    n == 0x1680 || 0x2000 <= n <= 0x200a || n == 0x2028 || n == 0x2029 ||
    n == 0x202f || n == 0x205f || n == 0x3000
  }

  /** `s.lstrip()`. */
  function LStrip(s: string): (r: string)
    ensures |r| <= |s| && r == s[|s| - |r|..]
    ensures r != [] ==> !IsSpace(r[0])
    ensures forall i :: 0 <= i < |s| - |r| ==> IsSpace(s[i])
  {
    if s != [] && IsSpace(s[0]) then LStrip(s[1..]) else s
  }

  /** `s.rstrip()`. */
  function RStrip(s: string): (r: string)
    ensures |r| <= |s| && r == s[..|r|]
    ensures r != [] ==> !IsSpace(r[|r| - 1])
    ensures forall i :: |r| <= i < |s| ==> IsSpace(s[i])
  {
    if s != [] && IsSpace(s[|s| - 1]) then RStrip(s[..|s| - 1]) else s
  }

  /** `s.strip()`. */
  function Strip(s: string): (r: string)
    ensures r != [] ==> !IsSpace(r[0]) && !IsSpace(r[|r| - 1])
    ensures |r| <= |s|
  {
    RStrip(LStrip(s))
  }

  // ---------------------------------------------------------------- FileEntry

  /** A C source or header found under the source root. */
  datatype FileEntry = FileEntry(fullPath: string, path: string, fileType: string, name: string)

  /** `FileEntry.path`: the path with the root, else a leading "./", removed. */
  function RelativePath(root: string, path: string): (p: string)
    ensures StartsWith(path, root) ==> p == path[|root|..]
    ensures !StartsWith(path, root) && StartsWith(path, "./") ==> p == path[2..]
    ensures !StartsWith(path, root) && !StartsWith(path, "./") ==> p == path
  {
    if StartsWith(path, root) then ReplaceFirst(path, root, "")
    else if StartsWith(path, "./") then path[2..]
    else path
  }

  /** `FileEntry.name`: what follows the last '/', or the whole path. */
  function BaseName(path: string): (name: string)
    ensures '/' !in name
    ensures |name| <= |path| && name == path[|path| - |name|..]
    ensures '/' !in path ==> name == path
    ensures '/' in path ==> |name| < |path| && path[|path| - |name| - 1] == '/'
  {
    if '/' in path then path[RFind(path, '/').value + 1..] else path
  }

  /** `FileEntry.type`: what follows the last '.', `None` where `rindex` raises. */
  function FileType(path: string): (t: Option<string>)
    ensures t.None? <==> '.' !in path
    ensures t.Some? ==> '.' !in t.value && |t.value| < |path|
    ensures t.Some? ==> path[|path| - |t.value| - 1] == '.' && path[|path| - |t.value|..] == t.value
  {
    match RFind(path, '.')
    case None => None
    case Some(k) =>
      var t := path[k + 1..];
      assert |path| - |t| == k + 1;
      Some(t)
  }

  /**
   * `FileEntry(root, path)`. It raises `ValueError` when the path has no '.',
   * since the type is what follows the last '.'.
   */
  function NewFileEntry(root: string, path: string): (r: Result<FileEntry>)
    ensures r.Err? <==> '.' !in path
    ensures r.Err? ==> r.error == ValueError
    ensures r.Ok? ==> r.value == FileEntry(path, RelativePath(root, path), FileType(path).value, BaseName(path))
  {
    match FileType(path)
    case None => Err(ValueError)
    case Some(t) => Ok(FileEntry(path, RelativePath(root, path), t, BaseName(path)))
  }

  /** `FileEntry.__repr__`. */
  function Repr(e: FileEntry): (r: string)
    ensures |r| == |e.fileType| + |e.path| + |e.fullPath| + 7
    ensures r[0] == '{' && r[|r| - 2..] == "}\n"
    ensures r[1..|e.fileType| + 1] == e.fileType
  {
    "{" + e.fileType + ", " + e.path + ", " + e.fullPath + "}" + "\n"
  }

  /** Finding a character at the first position it occurs. */
  lemma {:induction false} FindChar(s: string, c: char, k: nat)
    requires k < |s| && s[k] == c && c !in s[..k]
    ensures Find(s, [c]) == Some(k)
  {
    if k > 0 {
      assert s[0] == s[..k][0];
      assert !StartsWith(s, [c]);
      assert s[1..][..k - 1] == s[..k][1..];
      FindChar(s[1..], c, k - 1);
    }
  }

  /** The representation leads with the type: its first ',' ends the type field. */
  lemma ReprLeadsWithType(e: FileEntry)
    requires ',' !in e.fileType
    ensures var s := Repr(e);
            Find(s, ",") == Some(|e.fileType| + 1) && s[1..|e.fileType| + 1] == e.fileType
    ensures Repr(e)[0] == '{' && Repr(e)[|Repr(e)| - 2..] == "}\n"
  {
    var s := Repr(e);
    assert s[..|e.fileType| + 1] == "{" + e.fileType;
    FindChar(s, ',', |e.fileType| + 1);
  }

  /** `Repository.getName(path)`: raises where `FileEntry` does. */
  function GetName(root: string, path: string): (r: Result<string>)
    ensures r.Err? <==> '.' !in path
    ensures r.Ok? ==> r.value == BaseName(path)
  {
    match NewFileEntry(root, path)
    case Err(e) => Err(e)
    case Ok(entry) => Ok(entry.name)
  }

  /** `Repository.getFileEntry(name)`: `KeyError` for a name not in the dictionary. */
  function GetFileEntry(dictionary: map<string, FileEntry>, name: string): (r: Result<FileEntry>)
    ensures r.Ok? <==> name in dictionary
    ensures r.Ok? ==> r.value == dictionary[name]
    ensures r.Err? ==> r.error == KeyError(name)
  {
    if name in dictionary then Ok(dictionary[name]) else Err(KeyError(name))
  }

  // ---------------------------------------------------------------- dictionary

  /** The class-level dictionary after indexing some files, and the exception that stopped it. */
  datatype Indexed = Indexed(dictionary: map<string, FileEntry>, error: Option<PyError>)

  /** One pass of the `__setupDictionary` loop: store the file's entry under its name. */
  function IndexOne(d: map<string, FileEntry>, root: string, file: string): (r: Result<map<string, FileEntry>>)
    ensures r.Err? <==> '.' !in file
    ensures r.Err? ==> r.error == ValueError
    ensures r.Ok? ==> r.value == d[BaseName(file) := NewFileEntry(root, file).value]
  {
    match NewFileEntry(root, file)
    case Err(e) => Err(e)
    case Ok(entry) => Ok(d[entry.name := entry])
  }

  /**
   * `__setupDictionary(files)` starting from `d`: each file's entry is stored
   * under its name, later files overwriting earlier ones; a file without '.'
   * raises and leaves the entries stored so far.
   */
  function IndexFiles(d: map<string, FileEntry>, root: string, files: seq<string>): (r: Indexed)
    ensures r.error.Some? ==> r.error.value == ValueError
    ensures d.Keys <= r.dictionary.Keys
    decreases |files|
  {
    if files == [] then Indexed(d, None)
    else
      var prior := IndexFiles(d, root, files[..|files| - 1]);
      if prior.error.Some? then prior
      else match IndexOne(prior.dictionary, root, files[|files| - 1])
        case Err(e) => Indexed(prior.dictionary, Some(e))
        case Ok(next) => Indexed(next, None)
  }

  /** Every stored entry is either one of `d`'s, untouched, or filed under its own name. */
  lemma {:induction false} IndexKeyedByName(d: map<string, FileEntry>, root: string, files: seq<string>)
    ensures var dict := IndexFiles(d, root, files).dictionary;
            forall k :: k in dict ==> (k in d && dict[k] == d[k]) || dict[k].name == k
  {
    if files != [] {
      var init := files[..|files| - 1];
      var last := files[|files| - 1];
      IndexKeyedByName(d, root, init);
      var prior := IndexFiles(d, root, init);
      if prior.error.None? && '.' in last {
        var entry := NewFileEntry(root, last).value;
        assert IndexFiles(d, root, files).dictionary == prior.dictionary[BaseName(last) := entry];
        assert entry.name == BaseName(last);
      }
    }
  }

  /** Every path has a '.', so `FileEntry` raises for none of them. */
  predicate AllDotted(files: seq<string>)
  {
    forall i :: 0 <= i < |files| ==> '.' in files[i]
  }

  lemma AllDottedSplit(files: seq<string>)
    requires files != []
    ensures AllDotted(files) <==> AllDotted(files[..|files| - 1]) && '.' in files[|files| - 1]
  {
    var init := files[..|files| - 1];
    assert forall i :: 0 <= i < |init| ==> init[i] == files[i];
  }

  /** Indexing fails exactly when some file has no '.' in its path. */
  lemma {:induction false} IndexFailsIff(d: map<string, FileEntry>, root: string, files: seq<string>)
    ensures IndexFiles(d, root, files).error.None? <==> AllDotted(files)
    decreases |files|
  {
    if files != [] {
      var init := files[..|files| - 1];
      IndexFailsIff(d, root, init);
      AllDottedSplit(files);
    }
  }

  /** The entry stored under a name comes from the last file with that name. */
  lemma {:induction false} IndexLastWins(d: map<string, FileEntry>, root: string, files: seq<string>, i: nat)
    requires IndexFiles(d, root, files).error.None?
    requires i < |files|
    requires forall j :: i < j < |files| ==> BaseName(files[j]) != BaseName(files[i])
    ensures BaseName(files[i]) in IndexFiles(d, root, files).dictionary
    ensures NewFileEntry(root, files[i]) == Ok(IndexFiles(d, root, files).dictionary[BaseName(files[i])])
  {
    var init := files[..|files| - 1];
    var last := files[|files| - 1];
    var prior := IndexFiles(d, root, init);
    var dict := IndexFiles(d, root, files).dictionary;
    assert prior.error.None?;
    var step := IndexOne(prior.dictionary, root, last);
    assert step.Ok? && dict == step.value;
    var entry := NewFileEntry(root, last);
    assert entry.Ok? && dict == prior.dictionary[BaseName(last) := entry.value];
    if i < |files| - 1 {
      assert init[i] == files[i];
      assert forall j :: i < j < |init| ==> init[j] == files[j];
      IndexLastWins(d, root, init, i);
      assert BaseName(last) != BaseName(files[i]);
    }
  }

  // ---------------------------------------------------------------- includes

  const Quote: char := '"'
  const IncludePrefix: string := "#include "

  /** The include target `__replaceInclude` extracts: quotes removed, the first 9 characters dropped, stripped. */
  function IncludeText(line: string): string
  {
    Strip(Drop(RemoveAll(line, Quote), 9))
  }

  /** `#include "path"` followed by a newline. */
  function IncludeLine(path: string): string
  {
    IncludePrefix + [Quote] + path + [Quote] + "\n"
  }

  /**
   * `__replaceInclude(line)`: a line with a double quote whose include
   * target names a dictionary entry becomes an include of that entry's
   * relative path; any other line is returned as is. The target's name is
   * taken with `getName`, which raises when the target has no '.'.
   */
  function ReplaceInclude(root: string, dictionary: map<string, FileEntry>, line: string): (r: Result<string>)
    ensures Quote !in line ==> r == Ok(line)
    ensures Quote in line ==> (r.Err? <==> '.' !in IncludeText(line))
    ensures r.Ok? && r.value != line ==>
              var name := BaseName(IncludeText(line));
              name != "" && name in dictionary && r.value == IncludeLine(dictionary[name].path)
    ensures Quote in line && '.' in IncludeText(line) && BaseName(IncludeText(line)) in dictionary &&
            BaseName(IncludeText(line)) != "" ==>
              r == Ok(IncludeLine(dictionary[BaseName(IncludeText(line))].path))
  {
    if Quote !in line then Ok(line)
    else
      match GetName(root, IncludeText(line))
      case Err(e) => Err(e)
      case Ok(name) =>
        if name != "" && name in dictionary then
          match GetFileEntry(dictionary, name)
          case Ok(entry) => Ok(IncludeLine(entry.path))
          case Err(_) => Ok(line)
        else Ok(line)
  }

  /** What `updateFile` writes for one line: only `#include ` lines are rewritten. */
  function RewriteLine(root: string, dictionary: map<string, FileEntry>, line: string): Result<string>
  {
    if StartsWith(line, IncludePrefix) then ReplaceInclude(root, dictionary, line) else Ok(line)
  }

  /** The lines written before the loop stopped, and the exception that stopped it. */
  datatype Run = Run(written: seq<string>, error: Option<PyError>)

  /**
   * A loop that writes the value of each result in order and stops at the
   * first exception.
   */
  function RunOf(results: seq<Result<string>>): (run: Run)
    ensures |run.written| <= |results|
    ensures run.error.None? ==> |run.written| == |results|
  {
    if results == [] then Run([], None)
    else match results[0]
      case Err(e) => Run([], Some(e))
      case Ok(out) =>
        var rest := RunOf(results[1..]);
        Run([out] + rest.written, rest.error)
  }

  /**
   * The run writes each result's value at its position and, when it stops
   * early, stops exactly at an exception.
   */
  lemma {:induction false} RunOfWrites(results: seq<Result<string>>)
    ensures var run := RunOf(results);
            run.error.Some? ==> |run.written| < |results| && results[|run.written|] == Err(run.error.value)
    ensures var run := RunOf(results);
            forall i :: 0 <= i < |run.written| ==> results[i] == Ok(run.written[i])
  {
    if results != [] && results[0].Ok? {
      var tail := results[1..];
      RunOfWrites(tail);
      var run, rest := RunOf(results), RunOf(tail);
      assert run.written == [results[0].value] + rest.written && run.error == rest.error;
      forall i | 1 <= i < |run.written|
        ensures results[i] == Ok(run.written[i])
      {
        assert results[i] == tail[i - 1] && run.written[i] == rest.written[i - 1];
      }
    }
  }

  /** Only the run `RunOfWrites` describes is the run of the results. */
  lemma {:induction false} RunOfUnique(results: seq<Result<string>>, written: seq<string>, error: Option<PyError>)
    requires |written| <= |results|
    requires forall i :: 0 <= i < |written| ==> results[i] == Ok(written[i])
    requires error.None? ==> |written| == |results|
    requires error.Some? ==> |written| < |results| && results[|written|] == Err(error.value)
    ensures RunOf(results) == Run(written, error)
  {
    if results != [] && written != [] {
      var tail, rest := results[1..], written[1..];
      forall i | 0 <= i < |rest|
        ensures tail[i] == Ok(rest[i])
      {
        assert tail[i] == results[i + 1] && rest[i] == written[i + 1];
      }
      if error.Some? {
        assert tail[|rest|] == results[|written|];
      }
      RunOfUnique(tail, rest, error);
      assert [written[0]] + rest == written;
    }
  }

  /** The rewrite of each line, in order. */
  function Rewrites(root: string, dictionary: map<string, FileEntry>, lines: seq<string>): seq<Result<string>>
  {
    seq(|lines|, i requires 0 <= i < |lines| => RewriteLine(root, dictionary, lines[i]))
  }

  /** The `updateFile` loop over `lines` as a function. */
  function RewriteRun(root: string, dictionary: map<string, FileEntry>, lines: seq<string>): (run: Run)
    ensures |run.written| <= |lines|
    ensures run.error.None? ==> |run.written| == |lines|
  {
    RunOf(Rewrites(root, dictionary, lines))
  }

  /**
   * `updateFile` writes each line's rewrite at that line's position and, when
   * it stops early, stops exactly at a line whose rewrite raises.
   */
  lemma RewriteRunWrites(root: string, dictionary: map<string, FileEntry>, lines: seq<string>)
    ensures var run := RewriteRun(root, dictionary, lines);
            run.error.Some? ==>
              |run.written| < |lines| && RewriteLine(root, dictionary, lines[|run.written|]) == Err(run.error.value)
    ensures var run := RewriteRun(root, dictionary, lines);
            forall i :: 0 <= i < |run.written| ==> RewriteLine(root, dictionary, lines[i]) == Ok(run.written[i])
  {
    RunOfWrites(Rewrites(root, dictionary, lines));
  }

  /**
   * `RewriteRun` is the only run that writes the rewrite of each line in
   * order and stops exactly at the first line whose rewrite raises.
   */
  lemma RewriteRunUnique(root: string, dictionary: map<string, FileEntry>, lines: seq<string>,
                         written: seq<string>, error: Option<PyError>)
    requires |written| <= |lines|
    requires forall i :: 0 <= i < |written| ==> RewriteLine(root, dictionary, lines[i]) == Ok(written[i])
    requires error.None? ==> |written| == |lines|
    requires error.Some? ==> |written| < |lines| && RewriteLine(root, dictionary, lines[|written|]) == Err(error.value)
    ensures RewriteRun(root, dictionary, lines) == Run(written, error)
  {
    RunOfUnique(Rewrites(root, dictionary, lines), written, error);
  }

  /** Lines that are not `#include ` lines are written verbatim, in place. */
  lemma UpdatePassesThrough(root: string, dictionary: map<string, FileEntry>, lines: seq<string>, i: nat)
    requires i < |RewriteRun(root, dictionary, lines).written|
    requires !StartsWith(lines[i], IncludePrefix)
    ensures RewriteRun(root, dictionary, lines).written[i] == lines[i]
  {
    RewriteRunWrites(root, dictionary, lines);
  }

  // ---------------------------------------------------------------- excludeFile

  const Guard: string := "#ifndef ARDUINO"
  const Endif: string := "#endif"

  /** Length of the first line of `text`, its '\n' included. */
  function FirstLineLength(text: string): (k: nat)
    ensures text != [] ==> 1 <= k <= |text|
    ensures text == [] ==> k == 0
  {
    if text == [] then 0
    else if text[0] == '\n' then 1
    else 1 + FirstLineLength(text[1..])
  }

  /** `readlines()` on a file holding `text`: lines keep their '\n'. */
  function ReadLines(text: string): (lines: seq<string>)
    ensures forall i :: 0 <= i < |lines| ==> lines[i] != []
    decreases |text|
  {
    if text == [] then []
    else
      var k := FirstLineLength(text);
      [text[..k]] + ReadLines(text[k..])
  }

  /** The text a list of lines makes when written one after another. */
  function Concat(lines: seq<string>): string
  {
    if lines == [] then [] else lines[0] + Concat(lines[1..])
  }

  lemma {:induction false} FirstLineOfTerminated(a: string, b: string)
    requires a != [] && a[|a| - 1] == '\n'
    ensures FirstLineLength(a + b) == FirstLineLength(a)
  {
    if a[0] != '\n' {
      assert (a + b)[1..] == a[1..] + b;
      FirstLineOfTerminated(a[1..], b);
    }
  }

  lemma {:induction false} FirstLineIsWhole(a: string, b: string)
    requires a != [] && a[|a| - 1] == '\n' && '\n' !in a[..|a| - 1]
    ensures FirstLineLength(a + b) == |a|
  {
    FirstLineOfTerminated(a, b);
    if a[0] != '\n' {
      assert a[1..][..|a| - 2] == a[..|a| - 1][1..];
      FirstLineIsWhole(a[1..], []);
      assert a[1..] + [] == a[1..];
    }
  }

  lemma {:induction false} NoNewlineOneLine(t: string)
    requires t != [] && '\n' !in t
    ensures FirstLineLength(t) == |t|
    ensures ReadLines(t) == [t]
  {
    if |t| > 1 {
      assert '\n' !in t[1..];
      NoNewlineOneLine(t[1..]);
    }
    assert t[..|t|] == t;
    assert t[|t|..] == [];
  }

  /** Reading is compatible with concatenation after a complete line. */
  lemma {:induction false} ReadLinesAppend(a: string, b: string)
    requires a == [] || a[|a| - 1] == '\n'
    ensures ReadLines(a + b) == ReadLines(a) + ReadLines(b)
    decreases |a|
  {
    if a != [] {
      var k := FirstLineLength(a);
      var ab := a + b;
      FirstLineOfTerminated(a, b);
      assert ab[..k] == a[..k];
      assert ab[k..] == a[k..] + b;
      assert k < |a| ==> a[k..][|a| - k - 1] == a[|a| - 1];
      ReadLinesAppend(a[k..], b);
      assert ReadLines(ab) == [ab[..k]] + ReadLines(ab[k..]);
      assert ReadLines(a) == [a[..k]] + ReadLines(a[k..]);
    } else {
      assert a + b == b;
    }
  }

  /** Writing the lines read from a text gives back that text. */
  lemma {:induction false} ConcatReadLines(text: string)
    ensures Concat(ReadLines(text)) == text
    decreases |text|
  {
    if text != [] {
      var k := FirstLineLength(text);
      ConcatReadLines(text[k..]);
      assert text == text[..k] + text[k..];
    }
  }

  lemma {:induction false} ConcatAppend(a: seq<string>, b: seq<string>)
    ensures Concat(a + b) == Concat(a) + Concat(b)
  {
    if a != [] {
      assert (a + b)[1..] == a[1..] + b;
      ConcatAppend(a[1..], b);
    } else {
      assert a + b == b;
    }
  }

  lemma ConcatOne(line: string)
    ensures Concat([line]) == line
  {
    assert [line][1..] == [];
  }

  /** The guard line alone reads back as one line. */
  lemma GuardLineAlone()
    ensures ReadLines(Guard + "\n") == [Guard + "\n"]
  {
    var g := Guard + "\n";
    assert g[..|g| - 1] == Guard;
    FirstLineIsWhole(g, []);
    assert g + [] == g;
    assert g[..|g|] == g;
    assert g[|g|..] == [];
  }

  /** What `excludeFile` does to a file. */
  datatype ExcludeOutcome =
    | Untouched                        // already guarded: the file is not opened for writing
    | Rewritten(writes: seq<string>)   // the strings written, in order
    | Failed(error: PyError)

  /** The file text after `excludeFile`, for a file that held `text`. */
  function ExcludedText(text: string): (r: Result<string>)
    ensures text == [] ==> r == Err(IndexError)
  {
    var lines := ReadLines(text);
    if lines == [] then Err(IndexError)
    else if StartsWith(lines[0], Guard) then Ok(text)
    else Ok(Concat([Guard + "\n"] + lines + [Endif]))
  }

  /** The guard line of a wrapped file is read back as its first line. */
  lemma GuardedFirstLine(rest: string)
    ensures ReadLines(Guard + "\n" + rest)[0] == Guard + "\n"
  {
    var g := Guard + "\n";
    FirstLineIsWhole(g, rest);
    assert (g + rest)[..|g|] == g;
  }

  /** Excluding an excluded file leaves it as it is. */
  lemma ExcludeIdempotent(text: string)
    requires ExcludedText(text).Ok?
    ensures ExcludedText(ExcludedText(text).value) == ExcludedText(text)
  {
    var lines := ReadLines(text);
    if !StartsWith(lines[0], Guard) {
      ConcatReadLines(text);
      var out := Concat([Guard + "\n"] + lines + [Endif]);
      assert ([Guard + "\n"] + lines + [Endif])[1..] == lines + [Endif];
      assert out == Guard + "\n" + Concat(lines + [Endif]);
      GuardedFirstLine(Concat(lines + [Endif]));
      assert ReadLines(out)[0] == Guard + "\n";
      assert StartsWith(ReadLines(out)[0], Guard);
    }
  }

  /** `text` with a final '\n' added when its last line lacks one. */
  function Terminated(text: string): (t: string)
    ensures t == [] || t[|t| - 1] == '\n'
    ensures |text| <= |t| && t[..|text|] == text
  {
    if text == [] || text[|text| - 1] == '\n' then text else text + "\n"
  }

  /** `excludeFile` with the closing directive always on a line of its own. */
  function ExcludedTextFixed(text: string): (r: Result<string>)
    ensures text == [] ==> r == Err(IndexError)
  {
    var lines := ReadLines(text);
    if lines == [] then Err(IndexError)
    else if StartsWith(lines[0], Guard) then Ok(text)
    else Ok(Guard + "\n" + Terminated(text) + Endif)
  }

  /**
   * A wrapped file reads back as the guard line, the original lines (the last
   * one newline-terminated) and then `#endif` as a line of its own.
   */
  lemma ExcludedTextFixedWraps(text: string)
    requires text != [] && !StartsWith(ReadLines(text)[0], Guard)
    ensures ExcludedTextFixed(text) == Ok(Guard + "\n" + (Terminated(text) + Endif))
  {
    var g, t := Guard + "\n", Terminated(text);
    assert g + t + Endif == g + (t + Endif);
  }

  lemma {:induction false} ExcludeFixedLines(text: string)
    requires text != [] && !StartsWith(ReadLines(text)[0], Guard)
    ensures ExcludedTextFixed(text).Ok?
    ensures ReadLines(ExcludedTextFixed(text).value) == [Guard + "\n"] + ReadLines(Terminated(text)) + [Endif]
  {
    ExcludedTextFixedWraps(text);
    var t := Terminated(text);
    GuardLineAlone();
    ReadLinesAppend(Guard + "\n", t + Endif);
    NoNewlineOneLine(Endif);
    ReadLinesAppend(t, Endif);
  }

  /** The fixed exclusion is idempotent too. */
  lemma ExcludeFixedIdempotent(text: string)
    requires ExcludedTextFixed(text).Ok?
    ensures ExcludedTextFixed(ExcludedTextFixed(text).value) == ExcludedTextFixed(text)
  {
    if !StartsWith(ReadLines(text)[0], Guard) {
      GuardedFirstLine(Terminated(text) + Endif);
      assert Guard + "\n" + Terminated(text) + Endif == Guard + "\n" + (Terminated(text) + Endif);
    }
  }

  /**
   * As written, a file whose only line lacks '\n' has `#endif` glued onto
   * that line, so no line of the result is the closing directive.
   */
  lemma {:induction false} EndifGluedToLastLine(line: string)
    requires line != [] && '\n' !in line && !StartsWith(line, Guard)
    ensures ExcludedText(line) == Ok(Guard + "\n" + line + Endif)
    ensures ReadLines(Guard + "\n" + line + Endif) == [Guard + "\n", line + Endif]
    ensures Endif !in ReadLines(ExcludedText(line).value)
  {
    var g := Guard + "\n";
    NoNewlineOneLine(line);
    ConcatAppend([g] + [line], [Endif]);
    ConcatAppend([g], [line]);
    ConcatOne(g);
    ConcatOne(line);
    ConcatOne(Endif);
    var glued := line + Endif;
    assert '\n' !in glued;
    NoNewlineOneLine(glued);
    GuardLineAlone();
    ReadLinesAppend(g, glued);
    assert g + glued == g + line + Endif;
    assert |glued| > |Endif|;
  }

  /** The smallest file that shows it: `int x;` comes back as the guard line and `int x;#endif`. */
  lemma EndifGluedExample()
    ensures ExcludedText("int x;") == Ok(Guard + "\n" + "int x;" + Endif)
    ensures ReadLines(Guard + "\n" + "int x;" + Endif) == [Guard + "\n", "int x;" + Endif]
  {
    var line := "int x;";
    assert |line| < |Guard|;
    EndifGluedToLastLine(line);
  }

  // ---------------------------------------------------------------- Repository

  /** `Repository`: its source root and the (class-level) dictionary of files by name. */
  class Repository {
    const root: string
    var dictionary: map<string, FileEntry>

    /** The working-directory part of `__init__`: `root` is the directory it settles in. */
    constructor (root: string)
      ensures this.root == root && dictionary == map[]
    {
      this.root := root;
      dictionary := map[];
    }

    /** `__setupDictionary(files)`. */
    method SetupDictionary(files: seq<string>) returns (error: Option<PyError>)
      modifies this`dictionary
      ensures Indexed(dictionary, error) == IndexFiles(old(dictionary), root, files)
    {
      ghost var d0 := dictionary;
      var i := 0;
      while i < |files|
        invariant 0 <= i <= |files|
        invariant IndexFiles(d0, root, files[..i]) == Indexed(dictionary, None)
      {
        assert files[..i + 1][..i] == files[..i];
        match NewFileEntry(root, files[i]) {
          case Err(e) =>
            IndexStopsAtError(d0, root, files, i);
            return Some(e);
          case Ok(entry) =>
            dictionary := dictionary[entry.name := entry];
        }
        i := i + 1;
      }
      assert files[..i] == files;
      error := None;
    }

    /**
     * `updateFile(path, isTest)` on a file holding `lines`: each line is
     * rewritten by `RewriteLine` and written out unless `isTest`; an exception
     * stops the loop after the lines already written.
     */
    method UpdateFile(lines: seq<string>, isTest: bool) returns (written: seq<string>, error: Option<PyError>)
      ensures error == RewriteRun(root, dictionary, lines).error
      ensures written == if isTest then [] else RewriteRun(root, dictionary, lines).written
    {
      ghost var outs: seq<string> := [];
      written, error := [], None;
      var i := 0;
      while i < |lines|
        invariant 0 <= i <= |lines| && |outs| == i
        invariant written == if isTest then [] else outs
        invariant forall j :: 0 <= j < i ==> RewriteLine(root, dictionary, lines[j]) == Ok(outs[j])
      {
        var out := lines[i];
        if StartsWith(lines[i], IncludePrefix) {
          var r := ReplaceInclude(root, dictionary, lines[i]);
          if r.Err? {
            RewriteRunUnique(root, dictionary, lines, outs, Some(r.error));
            return written, Some(r.error);
          }
          out := r.value;
        }
        outs := outs + [out];
        if !isTest {
          written := written + [out];
        }
        i := i + 1;
      }
      RewriteRunUnique(root, dictionary, lines, outs, None);
    }

    /**
     * `excludeFile(path)` on a file holding `lines`: unless the first line is
     * already the guard, the file is rewritten as the guard line, every line,
     * and `#endif` (with no newline after it). An empty file raises.
     */
    method ExcludeFile(ghost text: string, lines: seq<string>) returns (outcome: ExcludeOutcome)
      requires lines == ReadLines(text)
      ensures lines == [] ==> outcome == Failed(IndexError)
      ensures lines != [] && StartsWith(lines[0], Guard) ==> outcome == Untouched
      ensures lines != [] && !StartsWith(lines[0], Guard) ==>
                outcome.Rewritten? && outcome.writes == [Guard + "\n"] + lines + [Endif]
      ensures outcome.Rewritten? ==> ExcludedText(text) == Ok(Concat(outcome.writes))
      ensures outcome == Untouched ==> ExcludedText(text) == Ok(text)
      ensures outcome.Failed? ==> ExcludedText(text) == Err(outcome.error)
    {
      if lines == [] {
        return Failed(IndexError);
      }
      if StartsWith(lines[0], Guard) {
        return Untouched;
      }
      var writes := [Guard + "\n"];
      var i := 0;
      while i < |lines|
        invariant 0 <= i <= |lines|
        invariant writes == [Guard + "\n"] + lines[..i]
      {
        writes := writes + [lines[i]];
        i := i + 1;
      }
      assert lines[..i] == lines;
      writes := writes + [Endif];
      outcome := Rewritten(writes);
    }
  }

  /** The dictionary loop stops at the first file without '.'. */
  lemma {:induction false} IndexStopsAtError(d: map<string, FileEntry>, root: string, files: seq<string>, i: nat)
    requires i < |files| && IndexFiles(d, root, files[..i]).error.None?
    requires '.' !in files[i]
    ensures IndexFiles(d, root, files) == Indexed(IndexFiles(d, root, files[..i]).dictionary, Some(ValueError))
    decreases |files| - i
  {
    var init := files[..|files| - 1];
    if i + 1 < |files| {
      assert init[..i] == files[..i];
      assert init[i] == files[i];
      IndexStopsAtError(d, root, init, i);
    } else {
      assert init == files[..i];
    }
  }
}
