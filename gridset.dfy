/**
 * `modify_gridset`: the extracted `.xml` files of the demo gridset get the
 * placeholder `%FILEPATHTOREPLACE%` replaced by the path of the installed
 * clipboard tool, through `re.sub`; the result is archived under the user's
 * application folder and a `.bat` shortcut opening that folder is written.
 *
 * Paths are joined as Windows' `ntpath.join` joins relative parts. The
 * replacement string of `re.sub` is a template; `ExpandTemplate` gives its
 * meaning, and the path is escaped so that the template stands for the path
 * itself.
 */
module Gridset {
  import opened Common
  import opened Text

  const Placeholder: string := "%FILEPATHTOREPLACE%"

  // ---------------------------------------------------------------------------
  // Windows path joining

  /** A path that is a drive and nothing else, such as `C:`. */
  predicate DriveOnly(p: string) {
    |p| == 2 && p[1] == ':'
  }

  /** `ntpath.join` puts a backslash after `base`: it is not empty, not a bare drive, and ends with no separator. */
  predicate NeedsSeparator(base: string) {
    base != "" && !DriveOnly(base) && base[|base| - 1] != '\\' && base[|base| - 1] != '/'
  }

  /** The separator `ntpath.join` puts after `base`. */
  function Sep(base: string): string {
    if NeedsSeparator(base) then "\\" else ""
  }

  /** `ntpath.join(base, part)` for a relative `part` without a drive. */
  function Join(base: string, part: string): string {
    base + Sep(base) + part
  }

  /** `ntpath.join(base, *parts)`: the parts joined one after the other. */
  function JoinAll(base: string, parts: seq<string>): string
    decreases |parts|
  {
    if |parts| == 0 then base else JoinAll(Join(base, parts[0]), parts[1..])
  }

  /**
   * A relative name of three or more characters: it starts with no
   * separator, names no drive, and does not end with a separator.
   */
  predicate PlainName(part: string) {
    && |part| >= 3
    && part[0] != '\\' && part[0] != '/' && part[1] != ':'
    && part[|part| - 1] != '\\' && part[|part| - 1] != '/'
  }

  /**
   * Joining plain names puts one backslash between each two of them, and
   * after `base` the separator it needs; the result takes a separator in turn.
   */
  lemma {:induction false} JoinAllPlain(base: string, parts: seq<string>)
    requires |parts| > 0
    requires forall i :: 0 <= i < |parts| ==> PlainName(parts[i])
    ensures JoinAll(base, parts) == base + Sep(base) + Joined(parts, "\\")
    ensures NeedsSeparator(JoinAll(base, parts))
    decreases |parts|
  {
    var next := Join(base, parts[0]);
    assert PlainName(parts[0]);
    assert next[|next| - 1] == parts[0][|parts[0]| - 1];
    assert NeedsSeparator(next);
    if |parts| > 1 {
      JoinAllPlain(next, parts[1..]);
      assert Joined(parts, "\\") == parts[0] + "\\" + Joined(parts[1..], "\\");
    }
  }

  const ExeParts: seq<string> := ["Programs", "Ace Centre", "TranslateAndTTS", "translatepb.exe"]
  const OutputDirParts: seq<string> := ["TranslateAndTTS", "Example AAC Helper Pages"]
  const GridsetName: string := "AAC Helper Tool Demo.gridset"

  /**
   * `os.path.join(LOCALAPPDATA or '', 'Programs', 'Ace Centre', 'TranslateAndTTS', 'translatepb.exe')`:
   * the four names separated by backslashes, after the variable and the
   * separator it needs (none when it is unset).
   */
  function ExePath(localAppData: string): (r: string)
    ensures r == localAppData + Sep(localAppData) + Joined(ExeParts, "\\")
    ensures localAppData == "" ==> r == Joined(ExeParts, "\\")
  {
    JoinAllPlain(localAppData, ExeParts);
    JoinAll(localAppData, ExeParts)
  }

  /** `new_gridset_dir`: `TranslateAndTTS\Example AAC Helper Pages` under the given folder. */
  function OutputDir(localAppPath: string): (r: string)
    ensures r == localAppPath + Sep(localAppPath) + Joined(OutputDirParts, "\\")
    ensures NeedsSeparator(r)
  {
    JoinAllPlain(localAppPath, OutputDirParts);
    JoinAll(localAppPath, OutputDirParts)
  }

  /** `new_gridset_path`: the gridset file directly inside `new_gridset_dir`. */
  function OutputPath(localAppPath: string): (r: string)
    ensures r == OutputDir(localAppPath) + "\\" + GridsetName
  {
    Join(OutputDir(localAppPath), GridsetName)
  }

  /** The text of the `.bat` shortcut: `start`, an empty window title, then the quoted directory. */
  function BatContent(gridsetDir: string): (r: string)
    ensures |r| == |gridsetDir| + 11
    ensures r[..10] == "start \"\" \"" && r[|r| - 1] == '"'
    ensures r[10..|r| - 1] == gridsetDir
  {
    "start \"\" \"" + gridsetDir + "\""
  }

  // ---------------------------------------------------------------------------
  // The re.sub replacement template

  /** `full_path_to_exe.replace('\\', '\\\\')`. */
  function EscapeBackslashes(p: string): string {
    ReplaceAll(p, "\\", "\\\\")
  }

  /** Each backslash doubled, character by character. */
  function Doubled(p: string): (r: string)
    ensures |r| >= |p|
    decreases |p|
  {
    if p == [] then [] else (if p[0] == '\\' then "\\\\" else [p[0]]) + Doubled(p[1..])
  }

  predicate AsciiLetter(c: char) {
    'a' <= c <= 'z' || 'A' <= c <= 'Z'
  }

  predicate Digit(c: char) {
    '0' <= c <= '9'
  }

  /**
   * What a backslash followed by `c` stands for in a template: the escapes
   * `\\`, `\a`, `\b`, `\f`, `\n`, `\r`, `\t`, `\v`; a group reference or an
   * unknown letter escape is an error here (`None`); any other character
   * keeps its backslash.
   */
  function EscapePiece(c: char): Option<string> {
    if c == '\\' then Some("\\")
    else if c == 'a' then Some([7 as char])
    else if c == 'b' then Some([8 as char])
    else if c == 'f' then Some([12 as char])
    else if c == 'n' then Some("\n")
    else if c == 'r' then Some("\r")
    else if c == 't' then Some("\t")
    else if c == 'v' then Some([11 as char])
    else if AsciiLetter(c) || Digit(c) then None
    else Some(['\\', c])
  }

  /** The text a replacement template stands for, or `None` when `re` rejects it. */
  function ExpandTemplate(t: string): (r: Option<string>)
    decreases |t|
  {
    if t == [] then Some([])
    else if t[0] != '\\' then
      var rest :- ExpandTemplate(t[1..]);
      Some([t[0]] + rest)
    else if |t| == 1 then None
    else
      var piece :- EscapePiece(t[1]);
      var rest :- ExpandTemplate(t[2..]);
      Some(piece + rest)
  }

  /** `re.sub(pat, repl, data)` for a pattern without metacharacters. */
  function SubLiteral(pat: string, repl: string, data: string): (r: Option<string>)
    ensures r.Some? <==> ExpandTemplate(repl).Some?
    ensures r.Some? ==> r.value == ReplaceAll(data, pat, ExpandTemplate(repl).value)
  {
    var rep :- ExpandTemplate(repl);
    Some(ReplaceAll(data, pat, rep))
  }

  /** `str.replace` of a single character doubles it in place. */
  lemma {:induction false} EscapeIsDoubling(p: string)
    ensures EscapeBackslashes(p) == Doubled(p)
    decreases |p|
  {
    if p != [] {
      EscapeIsDoubling(p[1..]);
      if p[0] == '\\' {
        assert p[..1] == "\\";
      } else {
        assert p[..1] != "\\";
      }
    }
  }

  /** Expanding a doubled string as a template gives the string back. */
  lemma {:induction false} ExpandDoubled(p: string)
    ensures ExpandTemplate(Doubled(p)) == Some(p)
    decreases |p|
  {
    if p != [] {
      ExpandDoubled(p[1..]);
      var d := Doubled(p);
      if p[0] == '\\' {
        assert d[0] == '\\' && d[1] == '\\' && d[2..] == Doubled(p[1..]);
      } else {
        assert d[0] == p[0] && d[1..] == Doubled(p[1..]);
      }
      assert p == [p[0]] + p[1..];
    }
  }

  /** The escaped path, read back as a template, is the path itself. */
  lemma EscapeRoundTrip(p: string)
    ensures ExpandTemplate(EscapeBackslashes(p)) == Some(p)
  {
    EscapeIsDoubling(p);
    ExpandDoubled(p);
  }

  /** `new_data = re.sub('%FILEPATHTOREPLACE%', full_path_to_exe_escaped, filedata)`. */
  function RewriteXml(data: string, exe: string): (r: Option<string>)
    ensures r == Some(ReplaceAll(data, Placeholder, exe))
  {
    EscapeRoundTrip(exe);
    SubLiteral(Placeholder, EscapeBackslashes(exe), data)
  }

  /** Every placeholder between chunks free of `%` becomes the path verbatim, and nothing else changes. */
  lemma RewriteFillsPlaceholders(chunks: seq<string>, exe: string)
    requires forall i :: 0 <= i < |chunks| ==> '%' !in chunks[i]
    ensures RewriteXml(Joined(chunks, Placeholder), exe) == Some(Joined(chunks, exe))
  {
    ReplaceAllJoined(chunks, Placeholder, exe);
  }

  /** A file without the placeholder is written back unchanged. */
  lemma RewriteWithoutPlaceholder(data: string, exe: string)
    requires !Occurs(data, Placeholder)
    ensures RewriteXml(data, exe) == Some(data)
  {
    ReplaceAllAbsent(data, Placeholder, exe);
  }

  // ---------------------------------------------------------------------------
  // The walk over the extracted files

  /** One extracted file: its name and its text. */
  datatype Extracted = Extracted(name: string, data: string)

  /** What the walk leaves of one file: an `.xml` file with its placeholders filled. */
  function Rewritten(f: Extracted, exe: string): (r: Extracted)
    ensures r.name == f.name
    ensures !EndsWith(f.name, ".xml") ==> r == f
    ensures EndsWith(f.name, ".xml") ==> r.data == ReplaceAll(f.data, Placeholder, exe)
  {
    if EndsWith(f.name, ".xml") then f.(data := ReplaceAll(f.data, Placeholder, exe)) else f
  }

  /** The `os.walk` loop of `modify_gridset` over the extracted files, rewriting each `.xml` file in place. */
  method RewriteExtracted(files: array<Extracted>, localAppData: string)
    modifies files
    ensures forall i :: 0 <= i < files.Length ==> files[i] == Rewritten(old(files[i]), ExePath(localAppData))
  {
    var exe := ExePath(localAppData);
    RewriteFiles(files, exe);
  }

  /** The loop body applied to every file: each `.xml` file gets `exe` in place of its placeholders. */
  method RewriteFiles(files: array<Extracted>, exe: string)
    modifies files
    ensures forall i :: 0 <= i < files.Length ==> files[i] == Rewritten(old(files[i]), exe)
  {
    var i := 0;
    while i < files.Length
      invariant 0 <= i <= files.Length
      invariant forall k :: 0 <= k < i ==> files[k] == Rewritten(old(files[k]), exe)
      invariant forall k :: i <= k < files.Length ==> files[k] == old(files[k])
    {
      var f := files[i];
      if EndsWith(f.name, ".xml") {
        var newData := RewriteXml(f.data, exe);
        files[i] := f.(data := newData.value);
      }
      i := i + 1;
    }
  }
}
