/** Exporting one note (src/utils/export.ts): the download's file name,
    extension and MIME type, the content for each format, and the last two
    passes of the plain-text conversion. */
module Export {
  import opened Types
  import opened Strings

  // ------------------------------------------------------------ file name

  /** The characters a file name may not contain: `\ / : * ? " < > |`. */
  predicate Forbidden(c: char)
  {
    c == '\\' || c == '/' || c == ':' || c == '*' || c == '?' || c == '"' || c == '<' || c == '>' || c == '|'
  }

  predicate Clean(s: string)
  {
    forall i :: 0 <= i < |s| ==> !Forbidden(s[i])
  }

  /** `title.replace(/[\\/:*?"<>|]/g, '_')`: each forbidden character
      becomes `_`, every other character stays where it was. */
  function Sanitize(title: string): (r: string)
    ensures |r| == |title|
    ensures forall i :: 0 <= i < |title| ==> r[i] == if Forbidden(title[i]) then '_' else title[i]
  {
    if title == [] then []
    else [if Forbidden(title[0]) then '_' else title[0]] + Sanitize(title[1..])
  }

  /** A sanitised name holds no forbidden character. */
  lemma SanitizeIsClean(title: string)
    ensures Clean(Sanitize(title))
  {
    var r := Sanitize(title);
    forall i | 0 <= i < |r| ensures !Forbidden(r[i]) {
      assert r[i] == if Forbidden(title[i]) then '_' else title[i];
    }
  }

  /** A clean name passes through untouched, so sanitising twice is
      sanitising once. */
  lemma SanitizeFixesClean(title: string)
    ensures Clean(title) ==> Sanitize(title) == title
    ensures Sanitize(Sanitize(title)) == Sanitize(title)
  {
    SanitizeIsClean(title);
  }

  const UntitledName := "未命名笔记"

  /** `sanitised || '未命名笔记'`. */
  function FileName(title: string): string
  {
    var r := Sanitize(title);
    if r == "" then UntitledName else r
  }

  /** The name is never empty and never holds a forbidden character; an
      empty title gets the fallback name, any other title its sanitised
      form (sanitising never empties a title). */
  lemma FileNameCases(title: string)
    ensures FileName(title) != "" && Clean(FileName(title))
    ensures title == "" ==> FileName(title) == UntitledName
    ensures title != "" ==> FileName(title) == Sanitize(title)
  {
    SanitizeIsClean(title);
  }

  // ----------------------------------------------------- format choices

  datatype Format = Md | Txt

  function Extension(f: Format): string
  {
    match f
    case Md => "md"
    case Txt => "txt"
  }

  function MimeType(f: Format): string
  {
    match f
    case Md => "text/markdown;charset=utf-8"
    case Txt => "text/plain;charset=utf-8"
  }

  /** `${filename}.${extension}`. */
  function DownloadName(title: string, f: Format): string
  {
    FileName(title) + "." + Extension(f)
  }

  /** The download name splits back into the file name and the format's
      extension at its last dot, and names of different formats differ. */
  lemma DownloadNameParts(title: string, f: Format, g: Format)
    ensures var d := DownloadName(title, f); var e := Extension(f);
      && |d| == |FileName(title)| + 1 + |e|
      && d[..|FileName(title)|] == FileName(title)
      && d[|FileName(title)|] == '.'
      && d[|d| - |e|..] == e
      && (forall k :: |d| - |e| <= k < |d| ==> d[k] != '.')
    ensures f != g ==> DownloadName(title, f) != DownloadName(title, g)
  {
    var d, e := DownloadName(title, f), Extension(f);
    assert d[|d| - |e|..] == e;
    if f != g {
      var d2 := DownloadName(title, g);
      assert |d| != |d2|;
    }
  }

  // ------------------------------------------------- newline collapsing

  predicate TripleNewlineAt(s: string, i: int)
  {
    0 <= i && i + 2 < |s| && s[i] == '\n' && s[i + 1] == '\n' && s[i + 2] == '\n'
  }

  /** No run of three or more newlines anywhere. */
  predicate NoTripleNewline(s: string)
  {
    forall i :: 0 <= i < |s| ==> !TripleNewlineAt(s, i)
  }

  /** The text after the newlines `s` starts with. */
  function DropNewlines(s: string): (r: string)
    ensures |r| <= |s|
    ensures r == [] || r[0] != '\n'
  {
    if s != [] && s[0] == '\n' then DropNewlines(s[1..]) else s
  }

  /** What `DropNewlines` drops is exactly the leading run of newlines. */
  lemma {:induction false} DropNewlinesIsSuffix(s: string)
    ensures var r := DropNewlines(s);
      && r == s[|s| - |r|..]
      && forall k :: 0 <= k < |s| - |r| ==> s[k] == '\n'
    decreases |s|
  {
    if s != [] && s[0] == '\n' {
      DropNewlinesIsSuffix(s[1..]);
    }
  }

  /** `.replace(/\n{3,}/g, '\n\n')`: every maximal run of three or more
      newlines becomes exactly two (CollapseRun, CollapseAppend). */
  function CollapseBlankLines(s: string): (r: string)
    ensures |r| <= |s|
    decreases |s|
  {
    if s == [] then []
    else if TripleNewlineAt(s, 0) then
      var rest := DropNewlines(s);
      DropNewlinesIsSuffix(s);
      "\n\n" + CollapseBlankLines(rest)
    else
      [s[0]] + CollapseBlankLines(s[1..])
  }

  /** Collapsing keeps the first two characters. */
  lemma {:induction false} CollapseKeepsFirstTwo(s: string)
    ensures |CollapseBlankLines(s)| >= Min2(|s|)
    ensures forall i :: 0 <= i < Min2(|s|) ==> CollapseBlankLines(s)[i] == s[i]
    decreases |s|
  {
    if s != [] && !TripleNewlineAt(s, 0) {
      CollapseKeepsFirstTwo(s[1..]);
    }
  }

  /** Collapsed text holds no triple newline. */
  lemma {:induction false} CollapseIsTripleFree(s: string)
    ensures NoTripleNewline(CollapseBlankLines(s))
    decreases |s|
  {
    if s == [] {
    } else if TripleNewlineAt(s, 0) {
      var rest := DropNewlines(s);
      var tail := CollapseBlankLines(rest);
      CollapseIsTripleFree(rest);
      CollapseKeepsFirstTwo(rest);
      var r := "\n\n" + tail;
      assert CollapseBlankLines(s) == r;
      forall i | 0 <= i < |r| ensures !TripleNewlineAt(r, i) {
        if i >= 2 {
          if TripleNewlineAt(r, i) {
            assert TripleNewlineAt(tail, i - 2);
          }
        } else if |rest| > 0 {
          assert tail[0] == rest[0];
        }
      }
    } else {
      var tail := CollapseBlankLines(s[1..]);
      CollapseIsTripleFree(s[1..]);
      CollapseKeepsFirstTwo(s[1..]);
      var r := [s[0]] + tail;
      assert CollapseBlankLines(s) == r;
      forall i | 0 <= i < |r| ensures !TripleNewlineAt(r, i) {
        if i >= 1 {
          if TripleNewlineAt(r, i) {
            assert TripleNewlineAt(tail, i - 1);
          }
        }
      }
    }
  }

  function Min2(n: int): int
  {
    if n < 2 then n else 2
  }

  /** Text without a triple newline is left as it is. */
  lemma {:induction false} CollapseKeepsTripleFree(s: string)
    requires NoTripleNewline(s)
    ensures CollapseBlankLines(s) == s
    decreases |s|
  {
    if s != [] {
      assert !TripleNewlineAt(s, 0);
      assert NoTripleNewline(s[1..]) by {
        forall i | 0 <= i < |s[1..]| ensures !TripleNewlineAt(s[1..], i) {
          assert !TripleNewlineAt(s, i + 1);
        }
      }
      CollapseKeepsTripleFree(s[1..]);
      assert [s[0]] + s[1..] == s;
    }
  }

  /** Collapsing twice is collapsing once. */
  lemma CollapseIdempotent(s: string)
    ensures CollapseBlankLines(CollapseBlankLines(s)) == CollapseBlankLines(s)
  {
    CollapseIsTripleFree(s);
    CollapseKeepsTripleFree(CollapseBlankLines(s));
  }

  /** `k` newlines. */
  function Newlines(k: nat): (r: string)
    ensures |r| == k && forall i :: 0 <= i < k ==> r[i] == '\n'
  {
    seq(k, _ => '\n')
  }

  lemma {:induction false} DropNewlinesOfRun(k: nat, y: string)
    requires y == [] || y[0] != '\n'
    ensures DropNewlines(Newlines(k) + y) == y
    decreases k
  {
    if k > 0 {
      assert (Newlines(k) + y)[1..] == Newlines(k - 1) + y;
      DropNewlinesOfRun(k - 1, y);
    } else {
      assert Newlines(k) + y == y;
    }
  }

  /** A run of three or more newlines in front of text becomes exactly
      one blank line (two newlines). */
  lemma CollapseRun(k: nat, y: string)
    requires k >= 3 && (y == [] || y[0] != '\n')
    ensures CollapseBlankLines(Newlines(k) + y) == "\n\n" + CollapseBlankLines(y)
  {
    var s := Newlines(k) + y;
    assert TripleNewlineAt(s, 0);
    DropNewlinesOfRun(k, y);
  }

  lemma {:induction false} DropNewlinesAppend(x: string, z: string)
    requires x != [] && x[|x| - 1] != '\n'
    ensures DropNewlines(x + z) == DropNewlines(x) + z
    ensures DropNewlines(x) != [] && DropNewlines(x)[|DropNewlines(x)| - 1] == x[|x| - 1]
    decreases |x|
  {
    var xz := x + z;
    assert xz[0] == x[0];
    if x[0] == '\n' {
      assert |x| >= 2;
      assert xz[1..] == x[1..] + z;
      assert DropNewlines(xz) == DropNewlines(x[1..] + z);
      assert DropNewlines(x) == DropNewlines(x[1..]);
      assert x[1..][|x[1..]| - 1] == x[|x| - 1];
      DropNewlinesAppend(x[1..], z);
    } else {
      assert DropNewlines(xz) == xz;
      assert DropNewlines(x) == x;
    }
  }

  lemma AppendAssoc(a: string, b: string, c: string)
    ensures a + (b + c) == (a + b) + c
  {
  }

  lemma CollapseUnfoldRun(s: string)
    requires TripleNewlineAt(s, 0)
    ensures CollapseBlankLines(s) == "\n\n" + CollapseBlankLines(DropNewlines(s))
  {
  }

  lemma CollapseAppendRun(x: string, z: string)
    requires x != [] && x[|x| - 1] != '\n' && TripleNewlineAt(x, 0)
    requires var d := DropNewlines(x);
      CollapseBlankLines(d + z) == CollapseBlankLines(d) + CollapseBlankLines(z)
    ensures CollapseBlankLines(x + z) == CollapseBlankLines(x) + CollapseBlankLines(z)
  {
    var xz := x + z;
    assert xz[0] == x[0] && xz[1] == x[1] && xz[2] == x[2];
    DropNewlinesAppend(x, z);
    CollapseUnfoldRun(xz);
    CollapseUnfoldRun(x);
    AppendAssoc("\n\n", CollapseBlankLines(DropNewlines(x)), CollapseBlankLines(z));
  }

  lemma NoRunAtFrontOfAppend(x: string, z: string)
    requires x != [] && x[|x| - 1] != '\n' && !TripleNewlineAt(x, 0)
    ensures !TripleNewlineAt(x + z, 0) && (x + z)[0] == x[0] && (x + z)[1..] == x[1..] + z
  {
    var xz := x + z;
    if |x| >= 3 {
      assert xz[0] == x[0] && xz[1] == x[1] && xz[2] == x[2];
    } else {
      assert xz[|x| - 1] == x[|x| - 1];
    }
    assert xz[1..] == x[1..] + z;
  }

  lemma CollapseUnfoldChar(s: string)
    requires s != [] && !TripleNewlineAt(s, 0)
    ensures CollapseBlankLines(s) == [s[0]] + CollapseBlankLines(s[1..])
  {
  }

  lemma CollapseAppendChar(x: string, z: string)
    requires x != [] && x[|x| - 1] != '\n' && !TripleNewlineAt(x, 0)
    requires CollapseBlankLines(x[1..] + z) == CollapseBlankLines(x[1..]) + CollapseBlankLines(z)
    ensures CollapseBlankLines(x + z) == CollapseBlankLines(x) + CollapseBlankLines(z)
  {
    NoRunAtFrontOfAppend(x, z);
    CollapseUnfoldChar(x + z);
    CollapseUnfoldChar(x);
    AppendAssoc([x[0]], CollapseBlankLines(x[1..]), CollapseBlankLines(z));
  }

  /** Text that ends in a character other than a newline collapses
      independently of what follows it: collapsing works run by run. */
  lemma {:induction false} CollapseAppend(x: string, z: string)
    requires x == [] || x[|x| - 1] != '\n'
    ensures CollapseBlankLines(x + z) == CollapseBlankLines(x) + CollapseBlankLines(z)
    decreases |x|
  {
    if x == [] {
      assert x + z == z;
    } else if TripleNewlineAt(x, 0) {
      DropNewlinesAppend(x, z);
      CollapseAppend(DropNewlines(x), z);
      CollapseAppendRun(x, z);
    } else {
      assert x[1..] == [] || x[1..][|x[1..]| - 1] == x[|x| - 1];
      CollapseAppend(x[1..], z);
      CollapseAppendChar(x, z);
    }
  }

  /** Three newlines between two paragraphs become two. */
  lemma CollapseExample()
    ensures CollapseBlankLines("a\n\n\nb") == "a\n\nb"
  {
    var s := "a\n\n\nb";
    assert !TripleNewlineAt(s, 0);
    assert s[1..] == Newlines(3) + "b";
    CollapseRun(3, "b");
    assert CollapseBlankLines("b") == "b" by {
      assert !TripleNewlineAt("b", 0);
      assert "b"[1..] == [];
    }
  }

  /** `s` with its newlines left out. */
  function Words(s: string): (r: string)
    ensures |r| <= |s|
  {
    if s == [] then [] else (if s[0] == '\n' then [] else [s[0]]) + Words(s[1..])
  }

  lemma {:induction false} WordsAppend(a: string, b: string)
    ensures Words(a + b) == Words(a) + Words(b)
    decreases |a|
  {
    if a == [] {
      assert a + b == b;
    } else {
      assert (a + b)[1..] == a[1..] + b;
      WordsAppend(a[1..], b);
    }
  }

  lemma {:induction false} WordsOfDropNewlines(s: string)
    ensures Words(DropNewlines(s)) == Words(s)
    decreases |s|
  {
    if s != [] && s[0] == '\n' {
      WordsOfDropNewlines(s[1..]);
    }
  }

  /** Collapsing removes only newlines: every other character survives, in
      order. */
  lemma {:induction false} CollapseKeepsWords(s: string)
    ensures Words(CollapseBlankLines(s)) == Words(s)
    decreases |s|
  {
    if s == [] {
    } else if TripleNewlineAt(s, 0) {
      var rest := DropNewlines(s);
      CollapseKeepsWords(rest);
      WordsOfDropNewlines(s);
      var tail := CollapseBlankLines(rest);
      WordsAppend("\n\n", tail);
      assert Words("\n\n") == [];
    } else {
      CollapseKeepsWords(s[1..]);
      var tail := CollapseBlankLines(s[1..]);
      WordsAppend([s[0]], tail);
      WordsAppend([s[0]], s[1..]);
      assert [s[0]] + s[1..] == s;
    }
  }

  /** A slice of triple-free text is triple-free. */
  lemma SliceKeepsTripleFree(s: string, i: int, j: int)
    requires NoTripleNewline(s) && 0 <= i <= j <= |s|
    ensures NoTripleNewline(s[i..j])
  {
    forall k | 0 <= k < j - i ensures !TripleNewlineAt(s[i..j], k) {
      assert !TripleNewlineAt(s, i + k);
    }
  }

  /** Trimming takes a slice, so it keeps text triple-free. */
  lemma TrimKeepsTripleFree(c: string)
    requires NoTripleNewline(c)
    ensures NoTripleNewline(Trim(c))
  {
    var r := Trim(c);
    var i := |c| - |TrimStart(c)|;
    SliceKeepsTripleFree(c, i, i + |r|);
  }

  /** The last two passes of `stripMarkdown`: collapse, then trim. */
  function FinishPlainText(t: string): (r: string)
    ensures NoTripleNewline(r)
    ensures r == [] || (!IsWhitespace(r[0]) && !IsWhitespace(r[|r| - 1]))
  {
    var c := CollapseBlankLines(t);
    CollapseIsTripleFree(t);
    TrimKeepsTripleFree(c);
    Trim(c)
  }

  /** Finishing is idempotent: finished text passes through unchanged. */
  lemma FinishPlainTextIdempotent(t: string)
    ensures FinishPlainText(FinishPlainText(t)) == FinishPlainText(t)
  {
    var r := FinishPlainText(t);
    CollapseKeepsTripleFree(r);
    assert TrimStart(r) == r;
    assert TrimEnd(r) == r;
  }

  // ----------------------------------------------------------- the export

  /** What `exportNote` hands to the download: name, type and content. */
  datatype Download = Download(fileName: string, mimeType: string, content: string)

  /** `exportNote(note, format)`. `marked` stands for `note.content` after
      the regex passes of `stripMarkdown` that come before the collapse;
      it is used only for the plain-text format. */
  function ExportNote(note: Note, f: Format, marked: string): Download
  {
    match f
    case Md => Download(DownloadName(note.title, Md), MimeType(Md), note.content)
    case Txt => Download(DownloadName(note.title, Txt), MimeType(Txt), FinishPlainText(marked))
  }

  /** Markdown exports the note's content verbatim; plain text exports a
      finished text (no triple newline, no outer whitespace); both are
      named after the note's title with the format's extension. */
  lemma ExportNoteContent(note: Note, f: Format, marked: string)
    ensures var d := ExportNote(note, f, marked);
      && d.fileName == FileName(note.title) + "." + Extension(f)
      && (f == Md ==> d.content == note.content && d.mimeType == "text/markdown;charset=utf-8")
      && (f == Txt ==>
            && d.mimeType == "text/plain;charset=utf-8"
            && NoTripleNewline(d.content)
            && (d.content == [] || (!IsWhitespace(d.content[0]) && !IsWhitespace(d.content[|d.content| - 1]))))
  {
  }
}
