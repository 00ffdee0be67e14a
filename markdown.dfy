/**
 * The line-oriented markdown parser of the notebook-to-PDF converter
 * (`NotebookToPdfConverter.parse_markdown`).  The text is split at newlines
 * and read one line at a time; each stripped line becomes at most one
 * `(kind, content, style)` element, except that a ``` fence gathers the raw
 * lines up to the next fence into a single code element.
 */
module Markdown {
  import opened Strings
  import Seqs

  /** One `(element_type, content, style_name)` tuple of the output. */
  datatype Element = Element(kind: string, content: string, style: string)

  const Title := "CustomTitle"
  const H2 := "CustomH2"
  const H3 := "CustomH3"
  const Bullet := "CustomBullet"
  const Body := "CustomBody"
  const Code := "CustomCode"

  /** The bullet character U+2022 followed by a space. */
  const BulletMark := "\U{2022} "

  /** The reportlab tag that opens inline code. */
  const FontOpen := "<font face=\"Courier\" color=\"#c7254e\">"

  function Paragraph(content: string, style: string): Element {
    Element("paragraph", content, style)
  }

  const Spacer := Element("spacer", "", "")

  /** `str.isdigit` on one character, limited to the ASCII digits. */
  predicate IsDigit(c: char) {
    '0' <= c <= '9'
  }

  /** A numbered-list line: one digit, then `. ` or `) `, then more text. */
  predicate IsNumbered(line: string) {
    |line| > 2 && IsDigit(line[0]) && (line[1..3] == ". " || line[1..3] == ") ")
  }

  /** A stripped line that opens or closes a code block. */
  predicate IsFence(line: string) {
    StartsWith(line, "```")
  }

  /**
   * The inline-formatting chain applied to body text, replace by replace.
   * Each closing-tag replace runs after every occurrence of its pattern is
   * already gone, so it never matches (see `FormatCollapses`).
   */
  function Format(line: string): string {
    InlineCode(Italic(Bold(line)))
  }

  /** Bold: `**` becomes `<b>`, then `**` becomes `</b>`. */
  function Bold(s: string): string {
    Replace(Replace(s, "**", "<b>"), "**", "</b>")
  }

  /** Italic: `*` becomes `<i>`, then `*` becomes `</i>`. */
  function Italic(s: string): string {
    Replace(Replace(s, "*", "<i>"), "*", "</i>")
  }

  /** Inline code: a backtick becomes the font tag, then a backtick becomes `</font>`. */
  function InlineCode(s: string): string {
    Replace(Replace(s, "`", FontOpen), "`", "</font>")
  }

  /** What one stripped line is: nothing, the start of a code block, or one element. */
  datatype LineKind = Blank | Fence | Single(e: Element)

  /** The if/elif chain of the loop body, in the order the branches are tried. */
  function Classify(line: string): LineKind {
    if line == "" then Blank
    else if StartsWith(line, "# ") then Single(Paragraph(line[2..], Title))
    else if StartsWith(line, "## ") then Single(Paragraph(line[3..], H2))
    else if StartsWith(line, "### ") then Single(Paragraph(line[4..], H3))
    else if StartsWith(line, "#### ") then Single(Paragraph(line[5..], H3))
    else if StartsWith(line, "- ") || StartsWith(line, "* ") then Single(Paragraph(BulletMark + line[2..], Bullet))
    else if IsNumbered(line) then Single(Paragraph(line, Bullet))
    else if StartsWith(line, "```") then Fence
    else if line == "---" || line == "***" || line == "___" then Single(Spacer)
    else Single(Paragraph(Format(line), Body))
  }

  /** What a raw line is once stripped. */
  function KindOf(raw: string): LineKind {
    Classify(Strip(raw))
  }

  /** The kind of every line of a cell. */
  function Kinds(lines: seq<string>): (r: seq<LineKind>)
    ensures |r| == |lines|
  {
    Seqs.MapSeq(KindOf, lines)
  }

  /** The kind of line `i` is its stripped form, classified. */
  lemma KindsAt(lines: seq<string>, i: nat)
    requires i < |lines|
    ensures Kinds(lines)[i] == Classify(Strip(lines[i]))
  {
    Seqs.MapSeqAt(KindOf, lines, i);
  }

  /** The loop body's fence test and the classifier agree: a stripped line opens a block exactly when it starts with three backticks. */
  lemma FenceKind(line: string)
    ensures Classify(line) == Fence <==> IsFence(line)
  {
    if IsFence(line) {
      assert line[0] == '`';
    }
  }

  /** Line `i` opens or closes a code block exactly when its stripped form starts with three backticks. */
  lemma KindFence(lines: seq<string>, i: nat)
    requires i < |lines|
    ensures Kinds(lines)[i] == Fence <==> IsFence(Strip(lines[i]))
  {
    KindsAt(lines, i);
    FenceKind(Strip(lines[i]));
  }

  /** The index of the first fence at or after `j`, or the end when none follows. */
  function FenceEnd(kinds: seq<LineKind>, j: nat): (e: nat)
    requires j <= |kinds|
    ensures j <= e <= |kinds|
    ensures e < |kinds| ==> kinds[e] == Fence
    ensures forall k :: j <= k < e ==> kinds[k] != Fence
    decreases |kinds| - j
  {
    if j == |kinds| || kinds[j] == Fence then j else FenceEnd(kinds, j + 1)
  }

  /** The first fence at or after `j` is at `e` when none comes before it. */
  lemma {:induction false} FenceEndIs(kinds: seq<LineKind>, j: nat, e: nat)
    requires j <= e <= |kinds|
    requires e == |kinds| || kinds[e] == Fence
    requires forall k :: j <= k < e ==> kinds[k] != Fence
    ensures FenceEnd(kinds, j) == e
    decreases e - j
  {
    if j < e {
      FenceEndIs(kinds, j + 1, e);
    }
  }

  /** The code element for the collected raw lines, only when there are any. */
  function CodeBlock(raw: seq<string>): seq<Element> {
    if |raw| > 0 then [Element("code", Join(raw, "\n"), Code)] else []
  }

  /**
   * The elements produced from line `i` on, given every line and its kind.
   * A code block keeps its raw lines; after it the scan resumes past the
   * closing fence, or has run off the end when the fence is unclosed.
   */
  function ParseFrom(lines: seq<string>, kinds: seq<LineKind>, i: nat): seq<Element>
    requires |kinds| == |lines|
    decreases |lines| - i, 1
  {
    if i >= |lines| then []
    else match kinds[i]
      case Blank => ParseFrom(lines, kinds, i + 1)
      case Single(e) => [e] + ParseFrom(lines, kinds, i + 1)
      case Fence => FencedFrom(lines, kinds, i + 1, FenceEnd(kinds, i + 1))
  }

  /** The code block `lines[start..e]`, then whatever follows its closing fence at `e`. */
  function FencedFrom(lines: seq<string>, kinds: seq<LineKind>, start: nat, e: nat): seq<Element>
    requires |kinds| == |lines| && start <= e <= |lines|
    decreases |lines| - start + 1, 0
  {
    CodeBlock(lines[start..e]) + ParseFrom(lines, kinds, e + 1)
  }

  /** The elements of a whole markdown cell. */
  function Parse(text: string): seq<Element> {
    var lines := Split(text, '\n');
    ParseFrom(lines, Kinds(lines), 0)
  }

  /** A blank line yields nothing and a single-element line yields its element. */
  lemma ParseNext(lines: seq<string>, kinds: seq<LineKind>, i: nat)
    requires |kinds| == |lines| && i < |lines|
    ensures kinds[i].Blank? ==> ParseFrom(lines, kinds, i) == ParseFrom(lines, kinds, i + 1)
    ensures kinds[i].Single? ==> ParseFrom(lines, kinds, i) == [kinds[i].e] + ParseFrom(lines, kinds, i + 1)
  {
  }

  /** A fence at `i` whose block closes at `j` yields the block's element, then what follows `j`. */
  lemma ParseFence(lines: seq<string>, kinds: seq<LineKind>, i: nat, j: nat)
    requires |kinds| == |lines| && i < |lines| && kinds[i] == Fence
    requires j == FenceEnd(kinds, i + 1)
    ensures ParseFrom(lines, kinds, i) == CodeBlock(lines[i + 1..j]) + ParseFrom(lines, kinds, j + 1)
  {
    assert ParseFrom(lines, kinds, i) == FencedFrom(lines, kinds, i + 1, j);
  }

  /** Collects the raw lines after the fence at `start - 1`, up to the next fence. */
  method CollectCode(lines: seq<string>, start: nat) returns (code: seq<string>, i: nat)
    requires start <= |lines|
    ensures i == FenceEnd(Kinds(lines), start)
    ensures code == lines[start..i]
  {
    ghost var kinds := Kinds(lines);
    code := [];
    i := start;
    while i < |lines| && !IsFence(Strip(lines[i]))
      invariant start <= i <= |lines|
      invariant code == lines[start..i]
      invariant forall k :: start <= k < i ==> kinds[k] != Fence
      decreases |lines| - i
    {
      KindFence(lines, i);
      Seqs.SliceNext(lines, start, i);
      code := code + [lines[i]];
      i := i + 1;
    }
    if i < |lines| {
      KindFence(lines, i);
    }
    FenceEndIs(kinds, start, i);
  }

  /** Strips line `i` and runs it through the if/elif chain. */
  method ClassifyLine(lines: seq<string>, i: nat) returns (kind: LineKind)
    requires i < |lines|
    ensures kind == Kinds(lines)[i]
  {
    var line := Strip(lines[i]);
    kind := Classify(line);
    KindsAt(lines, i);
  }

  /**
   * One pass of the loop body from line `i`: the elements it appends and
   * the index the next pass starts from (past the closing fence after a
   * code block).
   */
  method ParseStep(lines: seq<string>, i: nat) returns (out: seq<Element>, next: nat)
    requires i < |lines|
    ensures i < next <= |lines| + 1
    ensures out + ParseFrom(lines, Kinds(lines), next) == ParseFrom(lines, Kinds(lines), i)
  {
    ghost var kinds := Kinds(lines);
    var kind := ClassifyLine(lines, i);
    ParseNext(lines, kinds, i);
    match kind {
      case Blank =>
        out := [];
        next := i + 1;
      case Single(e) =>
        out := [e];
        next := i + 1;
      case Fence =>
        var code, j := CollectCode(lines, i + 1);
        ParseFence(lines, kinds, i, j);
        out := CodeBlock(code);
        next := j + 1;
    }
  }

  /** `parse_markdown`: the index `i` walks the lines, jumping over each code block. */
  method ParseMarkdown(text: string) returns (elements: seq<Element>)
    ensures elements == Parse(text)
  {
    var lines := Split(text, '\n');
    ghost var kinds := Kinds(lines);
    ghost var all := ParseFrom(lines, kinds, 0);
    elements := [];
    var i: nat := 0;
    while i < |lines|
      invariant i <= |lines| + 1
      invariant elements + ParseFrom(lines, kinds, i) == all
      decreases |lines| + 1 - i
    {
      var out, next := ParseStep(lines, i);
      Seqs.AppendAssoc(elements, out, ParseFrom(lines, kinds, next));
      elements := elements + out;
      i := next;
    }
  }

  // ----- properties -----

  /** Blank lines and code-block contents yield no element of their own, so there are never more elements than lines. */
  lemma {:induction false} ParseCount(lines: seq<string>, kinds: seq<LineKind>, i: nat)
    requires |kinds| == |lines| && i <= |lines|
    ensures |ParseFrom(lines, kinds, i)| <= |lines| - i
    decreases |lines| - i
  {
    if i < |lines| {
      ParseNext(lines, kinds, i);
      match kinds[i] {
        case Blank =>
          ParseCount(lines, kinds, i + 1);
        case Single(_) =>
          ParseCount(lines, kinds, i + 1);
        case Fence =>
          var e := FenceEnd(kinds, i + 1);
          ParseFence(lines, kinds, i, e);
          assert |CodeBlock(lines[i + 1..e])| <= e - i;
          if e < |lines| {
            ParseCount(lines, kinds, e + 1);
          } else {
            assert ParseFrom(lines, kinds, e + 1) == [];
          }
      }
    }
  }

  /** Every line of a cell gives at most one element. */
  lemma ParseAtMostOnePerLine(text: string)
    ensures |Parse(text)| <= |Split(text, '\n')|
  {
    var lines := Split(text, '\n');
    ParseCount(lines, Kinds(lines), 0);
  }

  /** Blank lines yield nothing. */
  lemma {:induction false} ParseBlank(lines: seq<string>, kinds: seq<LineKind>, i: nat)
    requires |kinds| == |lines|
    requires forall k :: i <= k < |lines| ==> kinds[k] == Blank
    ensures ParseFrom(lines, kinds, i) == []
    decreases |lines| - i
  {
    if i < |lines| {
      ParseNext(lines, kinds, i);
      ParseBlank(lines, kinds, i + 1);
    }
  }

  /** A cell of blank or whitespace-only lines yields nothing. */
  lemma BlankCell(text: string)
    requires forall k :: 0 <= k < |Split(text, '\n')| ==> Strip(Split(text, '\n')[k]) == ""
    ensures Parse(text) == []
  {
    var lines := Split(text, '\n');
    forall k | 0 <= k < |lines|
      ensures Kinds(lines)[k] == Blank
    {
      KindsAt(lines, k);
    }
    ParseBlank(lines, Kinds(lines), 0);
  }

  /** Body text keeps no `*` and no backtick: every one became a tag. */
  lemma FormatRemovesMarks(line: string)
    ensures '*' !in Format(line) && '`' !in Format(line)
  {
    var b := Bold(line);
    ItalicRemoves(b);
    InlineCodeRemoves(Italic(b));
  }

  /** After the italic step no `*` is left. */
  lemma ItalicRemoves(s: string)
    ensures '*' !in Italic(s)
  {
    ReplaceCharRemoves(s, '*', "<i>");
    ReplaceAbsent(Replace(s, "*", "<i>"), '*', "</i>");
  }

  /** The font tag holds neither a backtick nor a `*`. */
  lemma FontOpenClean()
    ensures '`' !in FontOpen && '*' !in FontOpen
  {
    forall k | 0 <= k < |FontOpen|
      ensures FontOpen[k] != '`' && FontOpen[k] != '*'
    {
    }
  }

  /** After the inline-code step no backtick is left, and no `*` comes in. */
  lemma InlineCodeRemoves(s: string)
    ensures '`' !in InlineCode(s)
    ensures '*' !in s ==> '*' !in InlineCode(s)
  {
    var c := Replace(s, "`", FontOpen);
    FontOpenClean();
    ReplaceCharRemoves(s, '`', FontOpen);
    ReplaceAbsent(c, '`', "</font>");
    if '*' !in s {
      ReplaceNoNew(s, '`', FontOpen, '*');
    }
  }

  /** No two neighbouring characters are both `*`. */
  predicate NoPair(s: string) {
    forall k :: 0 <= k < |s| - 1 ==> !(s[k] == '*' && s[k + 1] == '*')
  }

  /** Text replacing `**` leads with `*` only when the input leads with a lone `*`. */
  lemma {:induction false} BoldHead(s: string, rep: string)
    requires |rep| > 0 && rep[0] != '*' && '*' !in rep
    ensures NoPair(Replace(s, "**", rep))
    ensures |Replace(s, "**", rep)| > 0 && Replace(s, "**", rep)[0] == '*' ==>
              |s| > 0 && s[0] == '*' && !StartsWith(s, "**")
    decreases |s|
  {
    var r := Replace(s, "**", rep);
    if StartsWith(s, "**") {
      BoldHead(s[2..], rep);
      var t := Replace(s[2..], "**", rep);
      assert r == rep + t;
      forall k | 0 <= k < |r| - 1
        ensures !(r[k] == '*' && r[k + 1] == '*')
      {
        if k < |rep| {
          assert r[k] == rep[k];
        } else {
          assert r[k] == t[k - |rep|] && r[k + 1] == t[k + 1 - |rep|];
        }
      }
    } else if |s| > 0 {
      BoldHead(s[1..], rep);
      var t := Replace(s[1..], "**", rep);
      assert r == [s[0]] + t;
      forall k | 0 <= k < |r| - 1
        ensures !(r[k] == '*' && r[k + 1] == '*')
      {
        if k > 0 {
          assert r[k] == t[k - 1] && r[k + 1] == t[k];
        } else {
          assert r[1] == t[0];
          assert !(s[0] == '*' && s[1] == '*') by {
            assert s[..2] == [s[0], s[1]];
          }
        }
      }
    }
  }

  /** Replacing `**` in text without a pair of neighbouring `*` changes nothing. */
  lemma {:induction false} ReplacePairAbsent(s: string, rep: string)
    requires NoPair(s)
    ensures Replace(s, "**", rep) == s
    decreases |s|
  {
    if |s| > 0 {
      assert !StartsWith(s, "**") by {
        if |s| >= 2 { assert !(s[0] == '*' && s[1] == '*'); }
      }
      ReplacePairAbsent(s[1..], rep);
      assert [s[0]] + s[1..] == s;
    }
  }

  /** The closing-tag replaces never fire: every `**`, `*` and backtick becomes an opening tag. */
  lemma FormatCollapses(line: string)
    ensures Format(line) == Replace(Replace(Replace(line, "**", "<b>"), "*", "<i>"), "`", FontOpen)
  {
    var b := Replace(line, "**", "<b>");
    BoldHead(line, "<b>");
    ReplacePairAbsent(b, "</b>");
    assert Bold(line) == b;
    var i := Replace(b, "*", "<i>");
    ReplaceCharRemoves(b, '*', "<i>");
    ReplaceAbsent(i, '*', "</i>");
    assert Italic(b) == i;
    FontOpenClean();
    ReplaceCharRemoves(i, '`', FontOpen);
    ReplaceAbsent(Replace(i, "`", FontOpen), '`', "</font>");
  }

  /** Body text without any `*` or backtick is passed through unchanged. */
  lemma FormatPlain(line: string)
    requires '*' !in line && '`' !in line
    ensures Format(line) == line
  {
    assert NoPair(line);
    ReplacePairAbsent(line, "<b>");
    ReplacePairAbsent(line, "</b>");
    assert Bold(line) == line;
    ReplaceAbsent(line, '*', "<i>");
    ReplaceAbsent(line, '*', "</i>");
    assert Italic(line) == line;
    ReplaceAbsent(line, '`', FontOpen);
    ReplaceAbsent(line, '`', "</font>");
  }

  /** A level-1 heading: `# ` is dropped and the text is a title. */
  lemma Heading1(t: string)
    ensures Classify("# " + t) == Single(Paragraph(t, Title))
  {
    var line := "# " + t;
    assert line[..2] == "# " && line[2..] == t;
  }

  /** A level-2 heading: `## ` is dropped and the text is in the second style. */
  lemma Heading2(t: string)
    ensures Classify("## " + t) == Single(Paragraph(t, H2))
  {
    var line := "## " + t;
    assert line[1] == '#';
    assert line[..3] == "## " && line[3..] == t;
  }

  /** A level-3 heading: `### ` is dropped and the text is in the third style. */
  lemma Heading3(t: string)
    ensures Classify("### " + t) == Single(Paragraph(t, H3))
  {
    var line := "### " + t;
    assert line[1] == '#' && line[2] == '#';
    assert line[..4] == "### " && line[4..] == t;
  }

  /** A level-4 heading: `#### ` is dropped and the text shares the third level's style. */
  lemma Heading4(t: string)
    ensures Classify("#### " + t) == Single(Paragraph(t, H3))
  {
    var line := "#### " + t;
    assert line[1] == '#' && line[2] == '#' && line[3] == '#';
    assert line[..5] == "#### " && line[5..] == t;
  }

  /** `- ` and `* ` items become a bullet mark followed by the item's text. */
  lemma BulletItems(marker: char, t: string)
    requires marker == '-' || marker == '*'
    ensures Classify([marker, ' '] + t) == Single(Paragraph(BulletMark + t, Bullet))
  {
    var line := [marker, ' '] + t;
    assert line[..2] == [marker, ' '];
    assert line[2..] == t;
    assert line[0] != '#';
  }

  /** A numbered item (one digit, `.` or `)`, a space) is kept verbatim as a bullet. */
  lemma NumberedItems(d: char, sep: char, t: string)
    requires IsDigit(d) && (sep == '.' || sep == ')')
    ensures Classify([d, sep, ' '] + t) == Single(Paragraph([d, sep, ' '] + t, Bullet))
  {
    var line := [d, sep, ' '] + t;
    assert line[1..3] == [sep, ' '];
    assert line[0] != '#' && line[0] != '-' && line[0] != '*';
  }

  /** The three horizontal rules each yield a spacer. */
  lemma HorizontalRules(line: string)
    requires line == "---" || line == "***" || line == "___"
    ensures Classify(line) == Single(Spacer)
  {
    assert line[1] != ' ';
  }

  /** Each element has one of the shapes the converter renders. */
  predicate WellFormed(e: Element) {
    || (e.kind == "code" && e.style == Code)
    || e == Spacer
    || (e.kind == "paragraph" && e.style in {Title, H2, H3, Bullet}
        && (e.style == Bullet ==> StartsWith(e.content, BulletMark) || IsNumbered(e.content)))
    || (e.kind == "paragraph" && e.style == Body && '*' !in e.content && '`' !in e.content)
  }

  /** Every line element is well formed. */
  lemma ClassifyWellFormed(line: string)
    ensures Classify(line).Single? ==> WellFormed(Classify(line).e)
  {
    FormatRemovesMarks(line);
    if |line| >= 2 {
      var b := BulletMark + line[2..];
      assert b[..|BulletMark|] == BulletMark;
    }
  }

  /** The parser emits only elements its lines classify to, and code blocks. */
  lemma {:induction false} ParseWellFormed(lines: seq<string>, kinds: seq<LineKind>, i: nat)
    requires |kinds| == |lines|
    requires forall k :: 0 <= k < |kinds| && kinds[k].Single? ==> WellFormed(kinds[k].e)
    ensures forall k :: 0 <= k < |ParseFrom(lines, kinds, i)| ==> WellFormed(ParseFrom(lines, kinds, i)[k])
    decreases |lines| - i
  {
    if i < |lines| {
      ParseNext(lines, kinds, i);
      match kinds[i] {
        case Blank =>
          ParseWellFormed(lines, kinds, i + 1);
        case Single(e) =>
          ParseWellFormed(lines, kinds, i + 1);
        case Fence =>
          var e := FenceEnd(kinds, i + 1);
          ParseFence(lines, kinds, i, e);
          ParseWellFormed(lines, kinds, e + 1);
      }
    }
  }

  /** Everything the parser emits is well formed. */
  lemma ParseShapes(text: string)
    ensures forall k :: 0 <= k < |Parse(text)| ==> WellFormed(Parse(text)[k])
  {
    var lines := Split(text, '\n');
    var kinds := Kinds(lines);
    forall k | 0 <= k < |kinds| && kinds[k].Single?
      ensures WellFormed(kinds[k].e)
    {
      KindsAt(lines, k);
      ClassifyWellFormed(Strip(lines[k]));
    }
    ParseWellFormed(lines, kinds, 0);
  }

  /** An opening fence with no closing fence after it turns the rest of the cell into one code block. */
  lemma UnclosedFence(lines: seq<string>, kinds: seq<LineKind>, i: nat)
    requires |kinds| == |lines| && i < |lines| && kinds[i] == Fence
    requires forall k :: i < k < |lines| ==> kinds[k] != Fence
    ensures ParseFrom(lines, kinds, i) == CodeBlock(lines[i + 1..])
  {
    FenceEndIs(kinds, i + 1, |lines|);
    ParseFence(lines, kinds, i, |lines|);
    assert ParseFrom(lines, kinds, |lines| + 1) == [];
    assert lines[i + 1..|lines|] == lines[i + 1..];
  }

  /**
   * A fenced block with lines yields one code element whose text splits back
   * into the raw, unstripped lines up to the closing fence; an empty block
   * yields nothing and parsing resumes after its closing fence.
   */
  lemma CodeRoundTrip(text: string, i: nat)
    requires i < |Split(text, '\n')| && Kinds(Split(text, '\n'))[i] == Fence
    ensures var lines := Split(text, '\n');
            var kinds := Kinds(lines);
            var e := FenceEnd(kinds, i + 1);
            var out := ParseFrom(lines, kinds, i);
            (e > i + 1 ==> |out| > 0 && out[0].kind == "code" && Split(out[0].content, '\n') == lines[i + 1..e]) &&
            (e == i + 1 ==> out == ParseFrom(lines, kinds, i + 2))
  {
    var lines := Split(text, '\n');
    var kinds := Kinds(lines);
    var e := FenceEnd(kinds, i + 1);
    ParseFence(lines, kinds, i, e);
    if e > i + 1 {
      SplitJoin(lines[i + 1..e], '\n');
    }
  }
}
