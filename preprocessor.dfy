/**
 * The directive preprocessor that runs over a form description before it
 * is loaded: every line is trimmed, everything from a '#' onwards is a
 * comment, and a comment of the form #include "name" is replaced by the
 * preprocessed content of the named file.
 *
 * Files are a map from a name to its content; a name that is absent names
 * no file, a name mapped to None names a file that cannot be opened.  The
 * process-wide list of included files is one IncludeList object shared by
 * every preprocessor.  Nested inclusion is bounded by a fuel argument.
 */
module Preprocess {
  import opened Strings

  const Comment: char := '#'
  const Newline: char := '\n'
  const Include: string := "#include"
  const Quote: char := '"'

  type FileSystem = map<string, Option<string>>

  /** For every included file, the place it was included from. */
  type Includes = map<string, string>

  /** The lines of a text, as a line reader yields them. */
  function Lines(data: string): seq<string> {
    Split(data, Newline)
  }

  /** What an include is attributed to: the file name of the text being
      processed, or the text itself when it has no file name. */
  function Origin(fileName: string, data: string): string {
    if fileName != [] then fileName else data
  }

  /** The place an include comes from: origin[line]. */
  function IncludeKey(origin: string, linePos: int): string {
    origin + "[" + NumberText(linePos) + "]"
  }

  /** The file name in an include directive: the text between the first
      and the second quote after the keyword, or nothing when either quote
      is missing. */
  function IncludeFileName(line: string): string {
    if |line| <= |Include| then []
    else
      var rest := line[|Include|..];
      match IndexOf(rest, Quote)
      case None => []
      case Some(a) => NameUpToQuote(rest[a + 1..])
  }

  /** The text after an opening quote up to the closing one, or nothing
      when the closing quote is missing. */
  function NameUpToQuote(s: string): string {
    match IndexOf(s, Quote)
    case None => []
    case Some(b) => s[..b]
  }

  // ---------------------------------------------------------------------
  // Specification of a whole run
  // ---------------------------------------------------------------------

  /** The output of a text and the include list after it. */
  function ProcessedText(fs: FileSystem, fileName: string, data: string, inc: Includes, fuel: nat)
    : (string, Includes)
    decreases fuel, 3, 0
  {
    if data == [] then ([], inc)
    else ProcessedLines(fs, Origin(fileName, data), Lines(data), 1, inc, fuel)
  }

  /** Lines processed one after the other, each followed by a newline;
      linePos is the number of the first of them. */
  function ProcessedLines(fs: FileSystem, origin: string, lines: seq<string>, linePos: int,
                          inc: Includes, fuel: nat): (string, Includes)
    decreases fuel, 2, |lines|
  {
    if lines == [] then ([], inc)
    else
      var first := ProcessedLine(fs, origin, lines[0], linePos, inc, fuel);
      var rest := ProcessedLines(fs, origin, lines[1..], linePos + 1, first.1, fuel);
      (first.0 + [Newline] + rest.0, rest.1)
  }

  /** One line: trimmed and cut at its first '#'; when the cut starts with
      the include keyword, the expansion of the include follows the text
      before it. */
  function ProcessedLine(fs: FileSystem, origin: string, line: string, linePos: int,
                         inc: Includes, fuel: nat): (string, Includes)
    decreases fuel, 1, 0
  {
    var t := Trim(line);
    match IndexOf(t, Comment)
    case None => (t, inc)
    case Some(i) =>
      if StartsWith(t[i..], Include) then
        var expanded := Included(fs, IncludeFileName(t[i..]), origin, linePos, inc, fuel);
        (t[..i] + expanded.0, expanded.1)
      else (t[..i], inc)
  }

  /** A non-empty name of a file that can be read. */
  predicate Readable(fs: FileSystem, name: string) {
    name != [] && name in fs && fs[name].Some?
  }

  /** The list says name was included from the place key. */
  predicate AlreadyIncluded(inc: Includes, name: string, key: string) {
    name in inc && inc[name] == key
  }

  /** The expansion of an include of name from line linePos of origin. */
  function Included(fs: FileSystem, name: string, origin: string, linePos: int,
                    inc: Includes, fuel: nat): (string, Includes)
    decreases fuel, 0, 0
  {
    if !Readable(fs, name) then ([], inc)
    else
      var key := IncludeKey(origin, linePos);
      if AlreadyIncluded(inc, name, key) then ([], inc)
      else if fuel == 0 then ([], inc[name := key])
      else
        var nested := ProcessedText(fs, name, fs[name].value, inc[name := key], fuel - 1);
        (nested.0 + [Newline], nested.1)
  }

  // ---------------------------------------------------------------------
  // The preprocessor
  // ---------------------------------------------------------------------

  /** The list of included files every preprocessor shares. */
  class IncludeList {
    var entries: Includes

    constructor()
      ensures entries == map[]
    {
      entries := map[];
    }
  }

  class PreProcessor {
    const files: FileSystem
    const includes: IncludeList
    var fileName: string
    var data: string

    constructor(files: FileSystem, includes: IncludeList)
      ensures this.files == files && this.includes == includes
      ensures fileName == [] && data == []
    {
      this.files := files;
      this.includes := includes;
      fileName := [];
      data := [];
    }

    /** Empties the list of included files. */
    method ClearIncludeList()
      modifies includes
      ensures includes.entries == map[]
    {
      includes.entries := map[];
    }

    /** Processes the content of an opened file. */
    method ProcessFile(name: string, content: string, fuel: nat) returns (r: string)
      modifies this, includes
      ensures fileName == name && data == content
      ensures (r, includes.entries) == ProcessedText(files, name, content, old(includes.entries), fuel)
      decreases fuel, 4
    {
      data := content;
      fileName := name;
      r := Process(fuel);
    }

    /** Processes a text; the file name is kept from before. */
    method ProcessText(text: string, fuel: nat) returns (r: string)
      modifies this, includes
      ensures fileName == old(fileName) && data == text
      ensures (r, includes.entries) == ProcessedText(files, fileName, text, old(includes.entries), fuel)
    {
      data := text;
      r := Process(fuel);
    }

    /** Processes data line by line. */
    method Process(fuel: nat) returns (r: string)
      modifies includes
      ensures (r, includes.entries) == ProcessedText(files, fileName, data, old(includes.entries), fuel)
      decreases fuel, 3
    {
      if data == [] {
        return [];
      }
      var origin := Origin(fileName, data);
      var lines := Lines(data);
      ghost var all := ProcessedLines(files, origin, lines, 1, includes.entries, fuel);
      r := [];
      LinesFrom(files, origin, lines, 0, [], includes.entries, all, fuel);
      for k := 0 to |lines|
        invariant all == Remaining(files, origin, lines, k, r, includes.entries, fuel)
      {
        ghost var before := includes.entries;
        var text := ProcessLine(lines[k], k + 1, fuel);
        LineStep(files, origin, lines, k, r, before, text, includes.entries, fuel);
        r := r + text + [Newline];
      }
      NothingRemains(files, origin, lines, r, includes.entries, fuel);
    }

    /** One line, trimmed, cut at its first '#' and with an include expanded. */
    method ProcessLine(line: string, linePos: int, fuel: nat) returns (text: string)
      modifies includes
      ensures (text, includes.entries) ==
        ProcessedLine(files, Origin(fileName, data), line, linePos, old(includes.entries), fuel)
      decreases fuel, 2
    {
      var t := Trim(line);
      text := [];
      var i := 0;
      while i < |t|
        invariant 0 <= i <= |t|
        invariant text == t[..i] && Comment !in t[..i]
        invariant includes.entries == old(includes.entries)
      {
        if t[i] == Comment {
          IndexOfAt(t, Comment, i);
          LineCut(files, Origin(fileName, data), line, linePos, includes.entries, fuel, i);
          if StartsWith(t[i..], Include) {
            var name := FindIncludeFileName(t[i..]);
            var expanded := ProcessInclude(name, linePos, fuel);
            if expanded != [] {
              text := text + expanded;
            } else {
              assert text == t[..i] + expanded;
            }
          }
          return;
        }
        PrefixStep(t, i);
        text := text + [t[i]];
        i := i + 1;
      }
      assert t[..i] == t;
      LineWhole(files, Origin(fileName, data), line, linePos, includes.entries, fuel);
    }

    /** The expansion of an include of name from line linePos. */
    method ProcessInclude(name: string, linePos: int, fuel: nat) returns (r: string)
      modifies includes
      ensures (r, includes.entries) ==
        Included(files, name, Origin(fileName, data), linePos, old(includes.entries), fuel)
      decreases fuel, 1
    {
      if name == [] {
        return [];
      }
      if name !in files {
        return [];
      }
      if files[name].None? {
        return [];
      }
      var key := Origin(fileName, data) + "[" + NumberText(linePos) + "]";
      if name in includes.entries && includes.entries[name] == key {
        return [];
      }
      includes.entries := includes.entries[name := key];
      if fuel == 0 {
        return [];
      }
      var nested := new PreProcessor(files, includes);
      var text := nested.ProcessFile(name, files[name].value, fuel - 1);
      r := text + [Newline];
    }

    /** Scans an include directive for the quoted file name. */
    method FindIncludeFileName(line: string) returns (name: string)
      requires StartsWith(line, Include)
      ensures name == IncludeFileName(line)
    {
      var startReading := false;
      ghost var openAt := 0;
      name := [];
      var i := |Include|;
      while i < |line|
        invariant |Include| <= i <= |line|
        invariant !startReading ==> name == [] && Quote !in line[|Include|..i]
        invariant startReading ==>
          |Include| <= openAt < i && line[openAt] == Quote && Quote !in line[|Include|..openAt] &&
          name == line[openAt + 1..i] && Quote !in name
      {
        if line[i] == Quote {
          startReading := !startReading;
          if !startReading {
            // The closing quote ends the scan; at the end of the line the
            // loop would end anyway.
            QuotedName(line, openAt, i);
            return;
          }
          openAt := i;
          i := i + 1;
          continue;
        }
        if startReading {
          assert line[openAt + 1..i + 1] == name + [line[i]];
          name := name + [line[i]];
        } else {
          assert line[|Include|..i + 1] == line[|Include|..i] + [line[i]];
        }
        i := i + 1;
      }
      if startReading {
        Unclosed(line, openAt);
        name := [];
      } else {
        NoQuote(line);
      }
    }
  }

  /** A form set from text: a fresh preprocessor, which has no file name,
      empties the shared list of included files and processes the text. */
  method ReloadText(files: FileSystem, includes: IncludeList, text: string, fuel: nat)
    returns (r: string)
    modifies includes
    ensures (r, includes.entries) == ProcessedText(files, [], text, map[], fuel)
  {
    var p := new PreProcessor(files, includes);
    p.ClearIncludeList();
    r := p.ProcessText(text, fuel);
  }

  // ---------------------------------------------------------------------
  // The line loop
  // ---------------------------------------------------------------------

  /** The output so far followed by what the lines from k on produce. */
  function Remaining(fs: FileSystem, origin: string, lines: seq<string>, k: nat,
                     done: string, inc: Includes, fuel: nat): (string, Includes)
    requires k <= |lines|
  {
    var rest := ProcessedLines(fs, origin, lines[k..], k + 1, inc, fuel);
    (done + rest.0, rest.1)
  }

  lemma LinesFrom(fs: FileSystem, origin: string, lines: seq<string>, k: nat, done: string,
                  inc: Includes, all: (string, Includes), fuel: nat)
    requires k == 0 && done == [] && all == ProcessedLines(fs, origin, lines, 1, inc, fuel)
    ensures all == Remaining(fs, origin, lines, k, done, inc, fuel)
  {
    assert lines[0..] == lines;
    assert [] + all.0 == all.0;
  }

  lemma LineStep(fs: FileSystem, origin: string, lines: seq<string>, k: nat, done: string,
                 inc: Includes, text: string, inc': Includes, fuel: nat)
    requires k < |lines|
    requires (text, inc') == ProcessedLine(fs, origin, lines[k], k + 1, inc, fuel)
    ensures Remaining(fs, origin, lines, k, done, inc, fuel) ==
      Remaining(fs, origin, lines, k + 1, done + text + [Newline], inc', fuel)
  {
    var rest := ProcessedLines(fs, origin, lines[k + 1..], k + 2, inc', fuel);
    LinesAt(fs, origin, lines, k, inc, text, inc', fuel);
    AppendLine(done, text, rest.0);
  }

  lemma AppendLine(done: string, text: string, rest: string)
    ensures done + (text + [Newline] + rest) == (done + text + [Newline]) + rest
  {
  }

  /** The lines from k on: line k, a newline, then the lines after it. */
  lemma LinesAt(fs: FileSystem, origin: string, lines: seq<string>, k: nat, inc: Includes,
                text: string, inc': Includes, fuel: nat)
    requires k < |lines|
    requires (text, inc') == ProcessedLine(fs, origin, lines[k], k + 1, inc, fuel)
    ensures var rest := ProcessedLines(fs, origin, lines[k + 1..], k + 2, inc', fuel);
      ProcessedLines(fs, origin, lines[k..], k + 1, inc, fuel) == (text + [Newline] + rest.0, rest.1)
  {
    assert lines[k..][0] == lines[k];
    assert lines[k..][1..] == lines[k + 1..];
  }

  lemma NothingRemains(fs: FileSystem, origin: string, lines: seq<string>, done: string,
                       inc: Includes, fuel: nat)
    ensures Remaining(fs, origin, lines, |lines|, done, inc, fuel) == (done, inc)
  {
    assert lines[|lines|..] == [];
    assert done + [] == done;
  }

  /** A line cut at its first '#', at position i of the trimmed line. */
  lemma LineCut(fs: FileSystem, origin: string, line: string, linePos: int, inc: Includes,
                fuel: nat, i: nat)
    requires IndexOf(Trim(line), Comment) == Some(i)
    ensures var t := Trim(line);
      ProcessedLine(fs, origin, line, linePos, inc, fuel) ==
        if StartsWith(t[i..], Include) then
          var e := Included(fs, IncludeFileName(t[i..]), origin, linePos, inc, fuel);
          (t[..i] + e.0, e.1)
        else (t[..i], inc)
  {
  }

  /** A line without '#' is only trimmed. */
  lemma LineWhole(fs: FileSystem, origin: string, line: string, linePos: int, inc: Includes,
                  fuel: nat)
    requires Comment !in Trim(line)
    ensures ProcessedLine(fs, origin, line, linePos, inc, fuel) == (Trim(line), inc)
  {
  }

  // ---------------------------------------------------------------------
  // The include directive
  // ---------------------------------------------------------------------

  lemma QuotedName(line: string, openAt: nat, closeAt: nat)
    requires |Include| <= openAt < closeAt < |line|
    requires line[openAt] == Quote && line[closeAt] == Quote
    requires Quote !in line[|Include|..openAt] && Quote !in line[openAt + 1..closeAt]
    ensures IncludeFileName(line) == line[openAt + 1..closeAt]
  {
    OpeningQuote(line, openAt);
    var after := line[openAt + 1..];
    assert after[..closeAt - openAt - 1] == line[openAt + 1..closeAt];
    IndexOfAt(after, Quote, closeAt - openAt - 1);
  }

  lemma Unclosed(line: string, openAt: nat)
    requires |Include| <= openAt < |line|
    requires line[openAt] == Quote
    requires Quote !in line[|Include|..openAt] && Quote !in line[openAt + 1..]
    ensures IncludeFileName(line) == []
  {
    OpeningQuote(line, openAt);
  }

  /** The name is read from after the first quote past the keyword. */
  lemma OpeningQuote(line: string, openAt: nat)
    requires |Include| <= openAt < |line|
    requires line[openAt] == Quote && Quote !in line[|Include|..openAt]
    ensures IncludeFileName(line) == NameUpToQuote(line[openAt + 1..])
  {
    var rest := line[|Include|..];
    var a := openAt - |Include|;
    assert rest[..a] == line[|Include|..openAt];
    IndexOfAt(rest, Quote, a);
    assert rest[a + 1..] == line[openAt + 1..];
  }

  lemma NoQuote(line: string)
    requires |Include| <= |line|
    ensures Quote !in line[|Include|..] ==> IncludeFileName(line) == []
  {
  }

  /** An include directive whose name is quoted: stray text before the
      opening quote and after the closing one does not matter. */
  lemma QuotedNameFound(pre: string, name: string, post: string)
    requires Quote !in pre && Quote !in name
    ensures IncludeFileName(Include + pre + [Quote] + name + [Quote] + post) == name
  {
    var line := Include + pre + [Quote] + name + [Quote] + post;
    var openAt := |Include| + |pre|;
    var closeAt := openAt + 1 + |name|;
    assert line[openAt] == Quote && line[closeAt] == Quote;
    assert line[|Include|..openAt] == pre;
    assert line[openAt + 1..closeAt] == name;
    QuotedName(line, openAt, closeAt);
  }

  /** An include directive whose closing quote is missing names no file. */
  lemma MissingCloseQuote(pre: string, name: string)
    requires Quote !in pre && Quote !in name
    ensures IncludeFileName(Include + pre + [Quote] + name) == []
  {
    var line := Include + pre + [Quote] + name;
    var openAt := |Include| + |pre|;
    assert line[openAt] == Quote;
    assert line[|Include|..openAt] == pre;
    assert line[openAt + 1..] == name;
    Unclosed(line, openAt);
  }

  /** An include directive without any quote names no file. */
  lemma NoQuoteNoName(rest: string)
    requires Quote !in rest
    ensures IncludeFileName(Include + rest) == []
  {
    assert (Include + rest)[|Include|..] == rest;
    NoQuote(Include + rest);
  }

  // ---------------------------------------------------------------------
  // Includes
  // ---------------------------------------------------------------------

  /** Include keys from different lines of the same origin differ. */
  lemma {:induction false} DifferentLineKeys(origin: string, p: int, q: int)
    requires p != q
    ensures IncludeKey(origin, p) != IncludeKey(origin, q)
  {
    var a, b := NumberText(p), NumberText(q);
    var n := |origin| + 1;
    assert IncludeKey(origin, p)[n..|IncludeKey(origin, p)| - 1] == a;
    assert IncludeKey(origin, q)[n..|IncludeKey(origin, q)| - 1] == b;
    if (p < 0) != (q < 0) {
      assert IncludeKey(origin, p)[n] == a[0] && IncludeKey(origin, q)[n] == b[0];
      assert a[0] != b[0];
    } else if IncludeKey(origin, p) == IncludeKey(origin, q) {
      assert a == b;
      if p < 0 {
        assert NatText(-p) == a[1..] == b[1..] == NatText(-q);
        NatTextInjective(-p, -q);
      } else {
        NatTextInjective(p, q);
      }
    }
  }

  /** Processing never removes an entry from the list of included files,
      and after an include of a readable file the list has an entry for it. */
  lemma {:induction false} IncludedKeeps(fs: FileSystem, name: string, origin: string, linePos: int,
                                         inc: Includes, fuel: nat)
    ensures var r := Included(fs, name, origin, linePos, inc, fuel).1;
      inc.Keys <= r.Keys && (Readable(fs, name) ==> name in r)
    decreases fuel, 0, 0
  {
    if Readable(fs, name) && !AlreadyIncluded(inc, name, IncludeKey(origin, linePos)) && fuel > 0 {
      var inc' := inc[name := IncludeKey(origin, linePos)];
      TextKeeps(fs, name, fs[name].value, inc', fuel - 1);
    }
  }

  lemma {:induction false} TextKeeps(fs: FileSystem, fileName: string, data: string, inc: Includes,
                                     fuel: nat)
    ensures inc.Keys <= ProcessedText(fs, fileName, data, inc, fuel).1.Keys
    decreases fuel, 3, 0
  {
    if data != [] {
      LinesKeep(fs, Origin(fileName, data), Lines(data), 1, inc, fuel);
    }
  }

  lemma {:induction false} LinesKeep(fs: FileSystem, origin: string, lines: seq<string>, linePos: int,
                                     inc: Includes, fuel: nat)
    ensures inc.Keys <= ProcessedLines(fs, origin, lines, linePos, inc, fuel).1.Keys
    decreases fuel, 2, |lines|
  {
    if lines != [] {
      var first := ProcessedLine(fs, origin, lines[0], linePos, inc, fuel);
      LineKeeps(fs, origin, lines[0], linePos, inc, fuel);
      LinesKeep(fs, origin, lines[1..], linePos + 1, first.1, fuel);
    }
  }

  lemma {:induction false} LineKeeps(fs: FileSystem, origin: string, line: string, linePos: int,
                                     inc: Includes, fuel: nat)
    ensures inc.Keys <= ProcessedLine(fs, origin, line, linePos, inc, fuel).1.Keys
    decreases fuel, 1, 0
  {
    var t := Trim(line);
    match IndexOf(t, Comment) {
      case None =>
      case Some(i) =>
        if StartsWith(t[i..], Include) {
          IncludedKeeps(fs, IncludeFileName(t[i..]), origin, linePos, inc, fuel);
        }
    }
  }

  /** A file included from one line and then from another line of the same
      origin is expanded again. */
  lemma IncludedFromAnotherLine(fs: FileSystem, name: string, origin: string, p: int, q: int,
                                inc: Includes, fuel: nat)
    requires Readable(fs, name) && fuel > 0
    requires AlreadyIncluded(inc, name, IncludeKey(origin, p)) && p != q
    ensures Included(fs, name, origin, q, inc, fuel).0 != []
  {
    DifferentLineKeys(origin, p, q);
  }

  // ---------------------------------------------------------------------
  // Lines
  // ---------------------------------------------------------------------

  /** Each line trimmed and followed by a newline. */
  function PlainLines(lines: seq<string>): string
    decreases |lines|
  {
    if lines == [] then [] else Trim(lines[0]) + [Newline] + PlainLines(lines[1..])
  }

  /** A line is cut at its first '#' unless an include starts there. */
  lemma CommentDropped(fs: FileSystem, origin: string, line: string, pre: string, post: string,
                       linePos: int, inc: Includes, fuel: nat)
    requires Trim(line) == pre + [Comment] + post && Comment !in pre
    requires !StartsWith([Comment] + post, Include)
    ensures ProcessedLine(fs, origin, line, linePos, inc, fuel) == (pre, inc)
  {
    CommentAt(Trim(line), pre, post);
  }

  /** An include directive after the text of a line is replaced by its
      expansion. */
  lemma IncludeExpanded(fs: FileSystem, origin: string, line: string, pre: string, post: string,
                        linePos: int, inc: Includes, fuel: nat)
    requires Trim(line) == pre + [Comment] + post && Comment !in pre
    requires StartsWith([Comment] + post, Include)
    ensures var e := Included(fs, IncludeFileName([Comment] + post), origin, linePos, inc, fuel);
      ProcessedLine(fs, origin, line, linePos, inc, fuel) == (pre + e.0, e.1)
  {
    CommentAt(Trim(line), pre, post);
  }

  /** Where the first '#' of t is, and what comes before and after it. */
  lemma CommentAt(t: string, pre: string, post: string)
    requires t == pre + [Comment] + post && Comment !in pre
    ensures IndexOf(t, Comment) == Some(|pre|)
    ensures t[..|pre|] == pre && t[|pre|..] == [Comment] + post
  {
    assert t[..|pre|] == pre && t[|pre|..] == [Comment] + post;
    IndexOfAt(t, Comment, |pre|);
  }

  lemma {:induction false} PlainLinesOutput(fs: FileSystem, origin: string, lines: seq<string>,
                                            linePos: int, inc: Includes, fuel: nat)
    requires forall i :: 0 <= i < |lines| ==> Comment !in lines[i]
    ensures ProcessedLines(fs, origin, lines, linePos, inc, fuel) == (PlainLines(lines), inc)
    decreases |lines|
  {
    if lines != [] {
      TrimLacks(lines[0], Comment);
      PlainLinesOutput(fs, origin, lines[1..], linePos + 1, inc, fuel);
    }
  }

  /** A text without '#' comes out as its lines, trimmed and each followed
      by a newline, and the list of included files is untouched. */
  lemma PlainText(fs: FileSystem, fileName: string, data: string, inc: Includes, fuel: nat)
    requires Comment !in data
    ensures ProcessedText(fs, fileName, data, inc, fuel) == (PlainLines(Lines(data)), inc)
  {
    if data != [] {
      var st := SplitState(data, Newline);
      SplitStateLacks(data, Newline, Comment);
      PlainLinesOutput(fs, Origin(fileName, data), Lines(data), 1, inc, fuel);
    }
  }

  lemma {:induction false} LinesOutputEndsLine(fs: FileSystem, origin: string, lines: seq<string>,
                                               linePos: int, inc: Includes, fuel: nat)
    ensures var r := ProcessedLines(fs, origin, lines, linePos, inc, fuel).0;
      (r == []) == (lines == []) && (r != [] ==> r[|r| - 1] == Newline)
    decreases |lines|
  {
    if lines != [] {
      var first := ProcessedLine(fs, origin, lines[0], linePos, inc, fuel);
      var rest := ProcessedLines(fs, origin, lines[1..], linePos + 1, first.1, fuel);
      var r := first.0 + [Newline] + rest.0;
      assert ProcessedLines(fs, origin, lines, linePos, inc, fuel).0 == r;
      LinesOutputEndsLine(fs, origin, lines[1..], linePos + 1, first.1, fuel);
      if rest.0 != [] {
        assert r[|r| - 1] == rest.0[|rest.0| - 1];
      }
    }
  }

  /** The output is empty exactly for empty data, and otherwise ends with a
      newline: the last line is terminated too. */
  lemma OutputEndsLine(fs: FileSystem, fileName: string, data: string, inc: Includes, fuel: nat)
    ensures var r := ProcessedText(fs, fileName, data, inc, fuel).0;
      (r == []) == (data == []) && (r != [] ==> r[|r| - 1] == Newline)
  {
    if data != [] {
      SomeLines(data);
      LinesOutputEndsLine(fs, Origin(fileName, data), Lines(data), 1, inc, fuel);
    }
  }

  /** Text that is not empty has a line. */
  lemma SomeLines(data: string)
    requires data != []
    ensures Lines(data) != []
  {
    var st := SplitState(data, Newline);
    assert st.closed != [] || st.open != [];
  }

  // ---------------------------------------------------------------------
  // A file that includes itself
  // ---------------------------------------------------------------------

  /** The one-line file #include"name" that includes itself. */
  function SelfInclusion(name: string): string {
    Include + [Quote] + name + [Quote]
  }

  /** That file is one line, trimmed already, whose comment starts at once
      with an include of name. */
  lemma SelfInclusionLine(name: string)
    requires name != [] && NoSpace(name) && Quote !in name
    ensures var content := SelfInclusion(name);
      && Lines(content) == [content] && Trim(content) == content
      && IndexOf(content, Comment) == Some(0) && StartsWith(content[0..], Include)
      && IncludeFileName(content[0..]) == name && content[..0] == []
  {
    var content := SelfInclusion(name);
    SelfInclusionNoSpace(name);
    SelfInclusionOneLine(content);
    TrimNoSpace(content);
    SelfInclusionComment(name, content);
    SelfInclusionName(name, content);
  }

  lemma SelfInclusionNoSpace(name: string)
    requires NoSpace(name)
    ensures NoSpace(SelfInclusion(name))
  {
    var content := SelfInclusion(name);
    forall i | 0 <= i < |content| ensures !IsSpace(content[i]) {
      if i >= |Include| + 1 && i < |content| - 1 {
        assert content[i] == name[i - |Include| - 1];
      }
    }
  }

  lemma SelfInclusionOneLine(content: string)
    requires content != [] && NoSpace(content)
    ensures Lines(content) == [content]
  {
    assert IsSpace(Newline);
    SplitWithoutSep(content, Newline);
  }

  lemma SelfInclusionComment(name: string, content: string)
    requires content == SelfInclusion(name)
    ensures IndexOf(content, Comment) == Some(0) && StartsWith(content[0..], Include)
    ensures content[..0] == []
  {
    IndexOfAt(content, Comment, 0);
    assert content[0..] == content;
  }

  lemma SelfInclusionName(name: string, content: string)
    requires content == SelfInclusion(name) && Quote !in name
    ensures IncludeFileName(content[0..]) == name
  {
    assert content[0..] == content == Include + [] + [Quote] + name + [Quote] + [];
    QuotedNameFound([], name, []);
  }

  /** Processing that file is its own include from line 1, then a newline. */
  lemma SelfInclusionText(fs: FileSystem, name: string, inc: Includes, fuel: nat)
    requires name != [] && NoSpace(name) && Quote !in name
    ensures var e := Included(fs, name, name, 1, inc, fuel);
      ProcessedText(fs, name, SelfInclusion(name), inc, fuel) == (e.0 + [Newline], e.1)
  {
    var content := SelfInclusion(name);
    SelfInclusionLine(name);
    LineCut(fs, name, content, 1, inc, fuel, 0);
    var e := Included(fs, name, name, 1, inc, fuel);
    assert [] + e.0 == e.0;
    SingleLine(fs, name, content, 1, inc, e.0, e.1, fuel);
  }

  /** A text of one line is that line followed by a newline. */
  lemma SingleLine(fs: FileSystem, origin: string, line: string, linePos: int, inc: Includes,
                   text: string, inc': Includes, fuel: nat)
    requires (text, inc') == ProcessedLine(fs, origin, line, linePos, inc, fuel)
    ensures ProcessedLines(fs, origin, [line], linePos, inc, fuel) == (text + [Newline], inc')
  {
    assert [line][0] == line && [line][1..] == [];
    assert text + [Newline] + [] == text + [Newline];
  }

  /** A file that includes itself, included from anywhere else, is expanded
      twice and then stopped by the list of included files, however much
      fuel there is: the second nested include comes from the same place,
      line 1 of the file, as the first. */
  lemma SelfInclusionStops(name: string, origin: string, linePos: int, inc: Includes, fuel: nat)
    requires name != [] && NoSpace(name) && Quote !in name
    requires IncludeKey(origin, linePos) != IncludeKey(name, 1)
    requires !AlreadyIncluded(inc, name, IncludeKey(origin, linePos))
    requires fuel >= 2
    ensures var fs := map[name := Some(SelfInclusion(name))];
      Included(fs, name, origin, linePos, inc, fuel) ==
        ([Newline, Newline, Newline, Newline], inc[name := IncludeKey(name, 1)])
  {
    var fs := map[name := Some(SelfInclusion(name))];
    var k0, k1 := IncludeKey(origin, linePos), IncludeKey(name, 1);
    var inc1, inc2 := inc[name := k0], inc[name := k1];
    assert inc1[name := k1] == inc2;
    assert SelfInclusion(name) == fs[name].value;
    SelfInclusionText(fs, name, inc2, fuel - 2);
    assert Included(fs, name, name, 1, inc2, fuel - 2) == ([], inc2);
    assert [] + [Newline] == [Newline];
    SelfInclusionText(fs, name, inc1, fuel - 1);
    assert Included(fs, name, name, 1, inc1, fuel - 1) == ([Newline] + [Newline], inc2);
    assert [Newline] + [Newline] + [Newline] == [Newline, Newline, Newline];
    assert [Newline, Newline, Newline] + [Newline] == [Newline, Newline, Newline, Newline];
  }
}
