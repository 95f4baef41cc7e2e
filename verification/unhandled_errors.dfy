/**
 * Reading Vitest's unhandled errors from a step's output. Each error is printed
 * as a block: a ruled header, the message, further lines, and perhaps a line
 * that names the test file. A block ends at the next ruled line, which may be a
 * rule of its own or the next header, or with the output. The fixed texts are a
 * parameter of the proofs; `VitestFormat` gives Vitest's own.
 */
module UnhandledErrors {
  import opened Options
  import opened Text

  /** The fixed texts of the printed form and of the ids made from it. */
  datatype Format = Format(
    rule: char, kinds: seq<string>, originStart: string, originEnd: string, unknown: string, prefix: string)

  const SEPARATOR := " > "

  predicate Ruled(f: Format, line: string) { line != [] && line[0] == f.rule }

  function SkipRule(f: Format, s: string): (r: string)
    ensures |r| <= |s|
  {
    if Ruled(f, s) then SkipRule(f, s[1..]) else s
  }

  predicate HasKind(f: Format, rest: string, kind: string) {
    " " + kind + " " <= rest && Ruled(f, rest[|kind| + 2..]) && SkipRule(f, rest[|kind| + 2..]) == []
  }

  /** A rule, a blank, the kind of error, a blank and a rule, and nothing else. */
  predicate IsHeader(f: Format, line: string) {
    Ruled(f, line) && exists k :: 0 <= k < |f.kinds| && HasKind(f, SkipRule(f, line), f.kinds[k])
  }

  /** The test file a line blames: quoted text between the two fixed parts. */
  function OriginOf(f: Format, line: string): Option<string> {
    if !(f.originStart <= line) then None
    else
      var rest := line[|f.originStart|..];
      var i := IndexOf(rest, "\"");
      if i > 0 && f.originEnd <= rest[i..] then Some(rest[..i]) else None
  }

  // ------------------------------------------------------------ what it means

  /** How many lines there are before the next ruled one. */
  function BlockLength(f: Format, lines: seq<string>): (r: nat)
    ensures r <= |lines| && (r < |lines| ==> Ruled(f, lines[r]))
    ensures forall k :: 0 <= k < r ==> !Ruled(f, lines[k])
  {
    if lines == [] || Ruled(f, lines[0]) then 0 else 1 + BlockLength(f, lines[1..])
  }

  /** The first line with text. */
  function MessageOf(block: seq<string>): string {
    if block == [] then "" else if block[0] != "" then block[0] else MessageOf(block[1..])
  }

  /** The file named by the first line that names one. */
  function FileNamed(f: Format, block: seq<string>): Option<string> {
    if block == [] then None
    else if OriginOf(f, block[0]).Some? then OriginOf(f, block[0])
    else FileNamed(f, block[1..])
  }

  function IdFor(f: Format, file: Option<string>, message: string): string {
    var unattributed := f.prefix + HashDigits(if message == "" then f.unknown else message);
    if file.Some? then file.value + SEPARATOR + unattributed else unattributed
  }

  function BlockId(f: Format, block: seq<string>): string {
    IdFor(f, FileNamed(f, block), MessageOf(block))
  }

  /** The ids of all blocks, in order. */
  function IdsIn(f: Format, lines: seq<string>): seq<string> {
    if lines == [] then []
    else if IsHeader(f, lines[0]) then [BlockId(f, lines[1..][..BlockLength(f, lines[1..])])] + IdsIn(f, lines[1..])
    else IdsIn(f, lines[1..])
  }

  function LinesOf(output: string): seq<string> {
    TrimAll(Split(output, "\n"))
  }

  /** The distinct ids of all blocks, in the order they are printed. */
  function IdsOf(f: Format, output: string): seq<string> {
    Distinct(IdsIn(f, LinesOf(output)))
  }

  lemma {:induction false} BlockStep(f: Format, block: seq<string>, line: string)
    ensures MessageOf(block + [line]) == if MessageOf(block) == "" then line else MessageOf(block)
    ensures FileNamed(f, block + [line]) == if FileNamed(f, block).None? then OriginOf(f, line) else FileNamed(f, block)
  {
    if block == [] {
      assert block + [line] == [line];
    } else {
      assert (block + [line])[1..] == block[1..] + [line];
      BlockStep(f, block[1..], line);
    }
  }

  /** The scan of one block, which starts at line `start`. */
  method ReadBlock(f: Format, lines: seq<string>, start: nat) returns (message: string, file: Option<string>)
    requires start <= |lines|
    ensures IdFor(f, file, message) == BlockId(f, lines[start..][..BlockLength(f, lines[start..])])
  {
    message, file := "", None;
    var next := start;
    ghost var length := BlockLength(f, lines[start..]);
    while next < |lines| && !Ruled(f, lines[next])
      invariant start <= next <= start + length
      invariant message == MessageOf(lines[start..next])
      invariant file == FileNamed(f, lines[start..next])
    {
      var line := lines[next];
      BlockStep(f, lines[start..next], line);
      assert lines[start..next + 1] == lines[start..next] + [line];
      if message == "" && line != "" { message := line; }
      if file.None? { file := OriginOf(f, line); }
      next := next + 1;
    }
    assert lines[start..][..length] == lines[start..next];
  }

  lemma IdsFrom(f: Format, lines: seq<string>, index: nat, found: seq<string>)
    requires index < |lines|
    ensures found + IdsIn(f, lines[index..]) ==
              if IsHeader(f, lines[index])
              then found + [BlockId(f, lines[index + 1..][..BlockLength(f, lines[index + 1..])])] + IdsIn(f, lines[index + 1..])
              else found + IdsIn(f, lines[index + 1..])
  {
    assert lines[index..][0] == lines[index] && lines[index..][1..] == lines[index + 1..];
  }

  /** The scan over the output finds exactly the ids of its blocks. */
  method UnhandledErrorIds(f: Format, output: string) returns (ids: seq<string>)
    ensures ids == IdsOf(f, output)
  {
    var lines := LinesOf(output);
    var found: seq<string> := [];
    var index := 0;
    assert lines[0..] == lines;
    while index < |lines|
      invariant 0 <= index <= |lines|
      invariant found + IdsIn(f, lines[index..]) == IdsIn(f, lines)
    {
      IdsFrom(f, lines, index, found);
      if IsHeader(f, lines[index]) {
        var message, file := ReadBlock(f, lines, index + 1);
        found := found + [IdFor(f, file, message)];
      }
      index := index + 1;
    }
    assert found + [] == found;
    ids := Distinct(found);
  }

  // ------------------------------------------------------------- parse-print

  /** The fixed texts do not run into one another. */
  predicate Sound(f: Format) {
    && !IsSpace(f.rule) && f.rule != ' ' && f.rule != '\n'
    && f.originStart != "" && !IsSpace(f.originStart[0]) && f.originStart[0] != f.rule
    && '\n' !in f.originStart && '\n' !in f.originEnd
    && f.originEnd != "" && f.originEnd[0] == '\"'
    && forall k :: 0 <= k < |f.kinds| ==> '\n' !in f.kinds[k]
  }

  /** A horizontal rule of some length. */
  function Rule(f: Format, n: nat): (r: string)
    ensures |r| == n && forall k :: 0 <= k < n ==> r[k] == f.rule
  {
    if n == 0 then "" else [f.rule] + Rule(f, n - 1)
  }

  /**
   * How an error is set: output in front of it, the lengths of its header's two
   * rules, lines after the one that names its file, and the length of a rule
   * that closes it; 0 when it has none.
   */
  datatype Layout = Layout(before: seq<string>, left: nat, right: nat, after: seq<string>, closing: nat)

  /** An unhandled error to print: its kind, message, further lines and, perhaps, its test file with a remark. */
  datatype Thrown = Thrown(
    kind: string, message: string, trace: seq<string>, file: Option<string>, remark: string, layout: Layout)

  /** A line inside a block that neither ends the block nor names a file. */
  predicate Plain(f: Format, line: string) {
    '\n' !in line && !Ruled(f, Trim(line)) && OriginOf(f, Trim(line)).None?
  }

  predicate AllPlainLines(f: Format, lines: seq<string>) {
    forall k :: 0 <= k < |lines| ==> Plain(f, lines[k])
  }

  /** Any output that starts no block: other text, and rules of other sections. */
  predicate Noise(f: Format, lines: seq<string>) {
    forall k :: 0 <= k < |lines| ==> '\n' !in lines[k] && !IsHeader(f, Trim(lines[k]))
  }

  /** Lines that end no block. */
  predicate Unruled(f: Format, lines: seq<string>) {
    forall k :: 0 <= k < |lines| ==> '\n' !in lines[k] && !Ruled(f, Trim(lines[k]))
  }

  predicate Blank(lines: seq<string>) {
    forall k :: 0 <= k < |lines| ==> Trim(lines[k]) == ""
  }

  predicate LaidOut(f: Format, l: Layout) {
    Noise(f, l.before) && l.left > 0 && l.right > 0 && Unruled(f, l.after)
  }

  predicate Printable(f: Format, e: Thrown) {
    && e.kind in f.kinds && LaidOut(f, e.layout)
    && Plain(f, e.message) && AllPlainLines(f, e.trace)
    && (Trim(e.message) != "" || (e.file.None? && Blank(e.trace)))
    && (e.file.Some? ==> e.file.value != "" && '\"' !in e.file.value && '\n' !in e.file.value)
    && e.remark != "" && !IsSpace(e.remark[|e.remark| - 1]) && '\n' !in e.remark
  }

  predicate AllPrintable(f: Format, es: seq<Thrown>) {
    forall k :: 0 <= k < |es| ==> Printable(f, es[k])
  }

  function OriginLine(f: Format, file: string, remark: string): string {
    f.originStart + file + f.originEnd + remark
  }

  function OriginLines(f: Format, e: Thrown): seq<string> {
    if e.file.Some? then [OriginLine(f, e.file.value, e.remark)] + e.layout.after else []
  }

  function Header(f: Format, e: Thrown): string {
    Rule(f, e.layout.left) + (" " + e.kind + " " + Rule(f, e.layout.right))
  }

  function ClosingLines(f: Format, e: Thrown): seq<string> {
    if e.layout.closing == 0 then [] else [Rule(f, e.layout.closing)]
  }

  function Render(f: Format, e: Thrown): seq<string> {
    e.layout.before + ([Header(f, e)] + ([e.message] + e.trace + OriginLines(f, e) + ClosingLines(f, e)))
  }

  function RenderAll(f: Format, es: seq<Thrown>): seq<string> {
    if es == [] then [] else Render(f, es[0]) + RenderAll(f, es[1..])
  }

  /** An error's block ends where its own lines end: at its own rule, at a ruled line that follows, or with the output. */
  predicate Closed(f: Format, e: Thrown, following: seq<string>) {
    e.layout.closing > 0 || following == [] || Ruled(f, Trim(following[0]))
  }

  predicate AllClosed(f: Format, es: seq<Thrown>, rest: seq<string>) {
    es == [] || (Closed(f, es[0], RenderAll(f, es[1..]) + rest) && AllClosed(f, es[1..], rest))
  }

  /** What a run prints: its unhandled errors amid other output. */
  function Printed(f: Format, es: seq<Thrown>, rest: seq<string>): string {
    Join(RenderAll(f, es) + rest, "\n")
  }

  /** The ids the errors should get. */
  function ThrownIds(f: Format, es: seq<Thrown>): seq<string> {
    if es == [] then [] else [IdFor(f, es[0].file, Trim(es[0].message))] + ThrownIds(f, es[1..])
  }

  lemma {:induction false} SkipWholeRule(f: Format, n: nat, rest: string)
    requires !Ruled(f, rest)
    ensures SkipRule(f, Rule(f, n) + rest) == rest
  {
    if n == 0 {
      assert Rule(f, 0) + rest == rest;
    } else {
      assert (Rule(f, n) + rest)[1..] == Rule(f, n - 1) + rest;
      SkipWholeRule(f, n - 1, rest);
    }
  }

  lemma RuleIsRule(f: Format, n: nat)
    requires Sound(f) && n > 0
    ensures Ruled(f, Rule(f, n)) && SkipRule(f, Rule(f, n)) == "" && !IsHeader(f, Rule(f, n)) && Trim(Rule(f, n)) == Rule(f, n)
    ensures '\n' !in Rule(f, n)
  {
    SkipWholeRule(f, n, "");
    assert Rule(f, n) + "" == Rule(f, n);
    TrimSame(Rule(f, n));
  }

  lemma HeaderIsHeader(f: Format, e: Thrown)
    requires Sound(f) && e.kind in f.kinds && e.layout.left > 0 && e.layout.right > 0
    ensures IsHeader(f, Header(f, e)) && Trim(Header(f, e)) == Header(f, e) && '\n' !in Header(f, e)
  {
    var right := Rule(f, e.layout.right);
    var rest := " " + e.kind + " " + right;
    RuleIsRule(f, e.layout.left);
    RuleIsRule(f, e.layout.right);
    assert !Ruled(f, rest);
    SkipWholeRule(f, e.layout.left, rest);
    assert rest[|e.kind| + 2..] == right && " " + e.kind + " " <= rest;
    assert HasKind(f, rest, e.kind);
    assert Header(f, e)[0] == f.rule && Header(f, e)[|Header(f, e)| - 1] == f.rule;
    TrimSame(Header(f, e));
  }

  lemma {:induction false} SkipRuleRest(f: Format, s: string) returns (n: nat)
    ensures s == Rule(f, n) + SkipRule(f, s) && !Ruled(f, SkipRule(f, s))
  {
    if Ruled(f, s) {
      n := SkipRuleRest(f, s[1..]);
      assert s == [f.rule] + s[1..];
      n := n + 1;
    } else {
      n := 0;
    }
  }

  /** A line of this form: a rule, a blank, the kind, a blank and a rule. */
  function HeaderText(f: Format, left: nat, kind: string, right: nat): string {
    Rule(f, left) + (" " + kind + " " + Rule(f, right))
  }

  /** Exactly these lines start a block. */
  lemma HeaderForm(f: Format, line: string)
    requires f.rule != ' '
    ensures IsHeader(f, line) <==>
              exists left: nat, kind, right: nat ::
                left > 0 && right > 0 && kind in f.kinds && line == HeaderText(f, left, kind, right)
  {
    if IsHeader(f, line) {
      var k :| 0 <= k < |f.kinds| && HasKind(f, SkipRule(f, line), f.kinds[k]);
      var rest := SkipRule(f, line);
      var left := SkipRuleRest(f, line);
      var right := SkipRuleRest(f, rest[|f.kinds[k]| + 2..]);
      assert rest == " " + f.kinds[k] + " " + rest[|f.kinds[k]| + 2..];
      assert Rule(f, right) + "" == Rule(f, right);
      assert line == HeaderText(f, left, f.kinds[k], right) && f.kinds[k] in f.kinds;
      assert Rule(f, 0) == "";
    }
    if left: nat, kind, right: nat :| left > 0 && right > 0 && kind in f.kinds && line == HeaderText(f, left, kind, right) {
      TextIsHeader(f, left, kind, right);
    }
  }

  lemma TextIsHeader(f: Format, left: nat, kind: string, right: nat)
    requires f.rule != ' ' && left > 0 && right > 0 && kind in f.kinds
    ensures IsHeader(f, HeaderText(f, left, kind, right))
  {
    var rest := " " + kind + " " + Rule(f, right);
    assert !Ruled(f, rest);
    SkipWholeRule(f, left, rest);
    SkipWholeRule(f, right, "");
    assert Rule(f, right) + "" == Rule(f, right);
    assert rest[|kind| + 2..] == Rule(f, right) && " " + kind + " " <= rest;
    assert HasKind(f, rest, kind);
    assert HeaderText(f, left, kind, right)[0] == f.rule;
  }

  lemma OriginHasForm(f: Format, line: string)
    requires f.originEnd != "" && f.originEnd[0] == '\"' && OriginOf(f, line).Some?
    ensures var file := OriginOf(f, line).value;
            file != "" && '\"' !in file && f.originStart + file + f.originEnd <= line
  {
    var file, rest := OriginOf(f, line).value, line[|f.originStart|..];
    QuoteBefore(rest, |file|);
    PrefixesJoin(f.originStart, file, f.originEnd, line);
  }

  lemma PrefixesJoin(a: string, b: string, c: string, line: string)
    requires a <= line && b <= line[|a|..] && c <= line[|a|..][|b|..]
    ensures a + b + c <= line
  {
    var rest := line[|a|..];
    var more := rest[|b|..];
    assert line == a + rest && rest == b + more && more == c + more[|c|..];
    assert a + (b + (c + more[|c|..])) == (a + b + c) + more[|c|..];
  }

  lemma OriginWritten(f: Format, line: string, file: string)
    requires f.originEnd != "" && f.originEnd[0] == '\"'
    requires file != "" && '\"' !in file && f.originStart + file + f.originEnd <= line
    ensures OriginOf(f, line) == Some(file)
  {
    assert f.originStart <= f.originStart + file + f.originEnd;
    var rest := line[|f.originStart|..];
    var more := rest[|file|..];
    assert rest == file + more && f.originEnd <= more;
    assert rest == file + ['\"'] + more[1..] by { assert more == ['\"'] + more[1..]; }
    IndexOfChar(file, '\"', more[1..]);
  }

  /** Exactly these lines name a file: quoted text without a quote in it, between the two fixed parts. */
  lemma OriginForm(f: Format, line: string, file: string)
    requires f.originEnd != "" && f.originEnd[0] == '\"'
    ensures OriginOf(f, line) == Some(file) <==>
              file != "" && '\"' !in file && f.originStart + file + f.originEnd <= line
  {
    if OriginOf(f, line) == Some(file) { OriginHasForm(f, line); }
    if file != "" && '\"' !in file && f.originStart + file + f.originEnd <= line { OriginWritten(f, line, file); }
  }

  lemma QuoteBefore(s: string, i: nat)
    requires i <= |s| && IndexOf(s, "\"") == i
    ensures '\"' !in s[..i]
  {
    forall k | 0 <= k < i ensures s[k] != '\"' {
      assert s[k] == '\"' ==> At(s, "\"", k);
    }
  }

  lemma OriginFound(f: Format, file: string, remark: string)
    requires Sound(f) && file != "" && '\"' !in file
    ensures OriginOf(f, OriginLine(f, file, remark)) == Some(file)
  {
    var rest := file + f.originEnd + remark;
    assert rest == file + ['\"'] + (f.originEnd[1..] + remark);
    IndexOfChar(file, '\"', f.originEnd[1..] + remark);
    var line := OriginLine(f, file, remark);
    assert line[|f.originStart|..] == rest && f.originStart <= line;
    assert rest[|file|..] == f.originEnd + remark && rest[..|file|] == file;
  }

  lemma OriginIsRead(f: Format, file: string, remark: string)
    requires Sound(f) && file != "" && '\"' !in file && '\n' !in file
    requires remark != "" && !IsSpace(remark[|remark| - 1]) && '\n' !in remark
    ensures OriginOf(f, OriginLine(f, file, remark)) == Some(file)
    ensures Trim(OriginLine(f, file, remark)) == OriginLine(f, file, remark)
    ensures !Ruled(f, OriginLine(f, file, remark)) && '\n' !in OriginLine(f, file, remark)
  {
    OriginFound(f, file, remark);
    TrimSame(OriginLine(f, file, remark));
  }

  /** Lines without a header give no id. */
  lemma {:induction false} SkipBody(f: Format, body: seq<string>, rest: seq<string>)
    requires forall k :: 0 <= k < |body| ==> !IsHeader(f, body[k])
    ensures IdsIn(f, body + rest) == IdsIn(f, rest)
  {
    if body == [] {
      assert body + rest == rest;
    } else {
      assert (body + rest)[1..] == body[1..] + rest;
      SkipBody(f, body[1..], rest);
    }
  }

  predicate NoneRuled(f: Format, lines: seq<string>) {
    forall k :: 0 <= k < |lines| ==> !Ruled(f, lines[k])
  }

  lemma {:induction false} BodyEnds(f: Format, body: seq<string>, rest: seq<string>)
    requires NoneRuled(f, body)
    requires rest == [] || Ruled(f, rest[0])
    ensures BlockLength(f, body + rest) == |body|
  {
    if body == [] {
      assert body + rest == rest;
    } else {
      assert (body + rest)[1..] == body[1..] + rest;
      BodyEnds(f, body[1..], rest);
    }
  }

  lemma {:induction false} NamedAfter(f: Format, plain: seq<string>, rest: seq<string>)
    requires forall k :: 0 <= k < |plain| ==> OriginOf(f, plain[k]).None?
    ensures FileNamed(f, plain + rest) == FileNamed(f, rest)
  {
    if plain == [] {
      assert plain + rest == rest;
    } else {
      assert (plain + rest)[1..] == plain[1..] + rest;
      NamedAfter(f, plain[1..], rest);
    }
  }

  /** A header and a body that a ruled line or the end closes give the body's id and then what follows. */
  lemma BlockInFront(f: Format, header: string, body: seq<string>, tail: seq<string>)
    requires IsHeader(f, header) && NoneRuled(f, body) && (tail == [] || Ruled(f, tail[0]))
    ensures IdsIn(f, [header] + (body + tail)) == [BlockId(f, body)] + IdsIn(f, tail)
  {
    var lines := [header] + (body + tail);
    BodyEnds(f, body, tail);
    SkipBody(f, body, tail);
    assert lines[1..] == body + tail && (body + tail)[..|body|] == body;
  }

  lemma NoneRuledTogether(f: Format, a: seq<string>, b: seq<string>)
    requires NoneRuled(f, a) && NoneRuled(f, b)
    ensures NoneRuled(f, a + b)
  {
  }

  lemma {:induction false} TrimAllConcat(a: seq<string>, b: seq<string>)
    ensures TrimAll(a + b) == TrimAll(a) + TrimAll(b)
  {
    if a == [] {
      assert a + b == b;
    } else {
      assert (a + b)[1..] == a[1..] + b;
      TrimAllConcat(a[1..], b);
    }
  }

  /** The lines of a block that name its file, as they are read. */
  function OriginRead(f: Format, e: Thrown): seq<string> {
    if e.file.Some? then [OriginLine(f, e.file.value, e.remark)] + TrimAll(e.layout.after) else []
  }

  /** The lines between the header and the closing rule, as they are read. */
  function Body(f: Format, e: Thrown): seq<string> {
    [Trim(e.message)] + TrimAll(e.trace) + OriginRead(f, e)
  }

  lemma TrimOrigin(f: Format, e: Thrown)
    requires Sound(f) && Printable(f, e)
    ensures TrimAll(OriginLines(f, e)) == OriginRead(f, e)
  {
    if e.file.Some? {
      OriginIsRead(f, e.file.value, e.remark);
      TrimAllConcat([OriginLine(f, e.file.value, e.remark)], e.layout.after);
    }
  }

  lemma TrimClosing(f: Format, e: Thrown)
    requires Sound(f)
    ensures TrimAll(ClosingLines(f, e)) == ClosingLines(f, e)
  {
    if e.layout.closing > 0 { RuleIsRule(f, e.layout.closing); }
  }

  lemma TrimRender(f: Format, e: Thrown)
    requires Sound(f) && Printable(f, e)
    ensures TrimAll(Render(f, e)) == TrimAll(e.layout.before) + ([Header(f, e)] + (Body(f, e) + ClosingLines(f, e)))
  {
    HeaderIsHeader(f, e);
    TrimOrigin(f, e);
    TrimClosing(f, e);
    var origin, closing := OriginLines(f, e), ClosingLines(f, e);
    TrimAllConcat(e.layout.before, [Header(f, e)] + ([e.message] + e.trace + origin + closing));
    TrimAllConcat([Header(f, e)], [e.message] + e.trace + origin + closing);
    TrimAllConcat([e.message] + e.trace + origin, closing);
    TrimAllConcat([e.message] + e.trace, origin);
    TrimAllConcat([e.message], e.trace);
  }

  lemma {:induction false} BlankMessage(lines: seq<string>)
    requires Blank(lines)
    ensures MessageOf(TrimAll(lines)) == ""
  {
    if lines != [] { BlankMessage(lines[1..]); }
  }

  lemma PlainFacts(f: Format, e: Thrown)
    requires Sound(f) && Printable(f, e)
    ensures var plain := [Trim(e.message)] + TrimAll(e.trace);
            forall k :: 0 <= k < |plain| ==> OriginOf(f, plain[k]).None? && !Ruled(f, plain[k])
  {
    var plain := [Trim(e.message)] + TrimAll(e.trace);
    forall k | 0 <= k < |plain| ensures OriginOf(f, plain[k]).None? && !Ruled(f, plain[k]) {
      if k > 0 { assert Plain(f, e.trace[k - 1]); }
    }
  }

  lemma OriginUnruled(f: Format, e: Thrown)
    requires Sound(f) && Printable(f, e)
    ensures NoneRuled(f, OriginRead(f, e))
  {
    if e.file.Some? {
      OriginIsRead(f, e.file.value, e.remark);
      NoneRuledTogether(f, [OriginLine(f, e.file.value, e.remark)], TrimAll(e.layout.after));
    }
  }

  lemma BodyUnruled(f: Format, e: Thrown)
    requires Sound(f) && Printable(f, e)
    ensures NoneRuled(f, Body(f, e))
  {
    PlainFacts(f, e);
    OriginUnruled(f, e);
    NoneRuledTogether(f, [Trim(e.message)] + TrimAll(e.trace), OriginRead(f, e));
  }

  lemma BodyNames(f: Format, e: Thrown)
    requires Sound(f) && Printable(f, e)
    ensures MessageOf(Body(f, e)) == Trim(e.message) && FileNamed(f, Body(f, e)) == e.file
  {
    PlainFacts(f, e);
    if e.file.Some? { OriginIsRead(f, e.file.value, e.remark); }
    NamedAfter(f, [Trim(e.message)] + TrimAll(e.trace), OriginRead(f, e));
    assert FileNamed(f, OriginRead(f, e)) == e.file;
    assert Body(f, e)[0] == Trim(e.message);
    if Trim(e.message) == "" {
      BlankMessage(e.trace);
      assert Body(f, e)[1..] == TrimAll(e.trace);
    }
  }

  lemma NoiseIsSkipped(f: Format, lines: seq<string>, rest: seq<string>)
    requires Noise(f, lines)
    ensures IdsIn(f, TrimAll(lines) + rest) == IdsIn(f, rest)
  {
    SkipBody(f, TrimAll(lines), rest);
  }

  /** A closing rule starts no block. */
  lemma ClosingIsSkipped(f: Format, e: Thrown, rest: seq<string>)
    requires Sound(f) && (e.layout.closing > 0 || rest == [] || Ruled(f, rest[0]))
    ensures var tail := ClosingLines(f, e) + rest;
            IdsIn(f, tail) == IdsIn(f, rest) && (tail == [] || Ruled(f, tail[0]))
  {
    if e.layout.closing > 0 {
      RuleIsRule(f, e.layout.closing);
      SkipBody(f, ClosingLines(f, e), rest);
    } else {
      assert ClosingLines(f, e) + rest == rest;
    }
  }

  lemma Regroup(before: seq<string>, header: string, body: seq<string>, closing: seq<string>, rest: seq<string>)
    ensures before + ([header] + (body + closing)) + rest == before + ([header] + (body + (closing + rest)))
  {
  }

  /** One printed error in front of any further output gives its id in front of theirs. */
  lemma OneBlock(f: Format, e: Thrown, rest: seq<string>)
    requires Sound(f) && Printable(f, e) && (e.layout.closing > 0 || rest == [] || Ruled(f, rest[0]))
    ensures IdsIn(f, TrimAll(Render(f, e)) + rest) == [IdFor(f, e.file, Trim(e.message))] + IdsIn(f, rest)
  {
    var header, body, tail := Header(f, e), Body(f, e), ClosingLines(f, e) + rest;
    TrimRender(f, e);
    Regroup(TrimAll(e.layout.before), header, body, ClosingLines(f, e), rest);
    BodyUnruled(f, e);
    HeaderIsHeader(f, e);
    ClosingIsSkipped(f, e, rest);
    NoiseIsSkipped(f, e.layout.before, [header] + (body + tail));
    BlockInFront(f, header, body, tail);
    assert BlockId(f, body) == IdFor(f, e.file, Trim(e.message)) by { BodyNames(f, e); }
  }

  /** What is printed from an error on: its own lines and then the rest, which starts with what ends its block. */
  lemma FirstRendered(f: Format, es: seq<Thrown>, rest: seq<string>)
    requires es != [] && AllClosed(f, es, rest)
    ensures var more := TrimAll(RenderAll(f, es[1..]) + rest);
            && TrimAll(RenderAll(f, es) + rest) == TrimAll(Render(f, es[0])) + more
            && (es[0].layout.closing > 0 || more == [] || Ruled(f, more[0]))
  {
    var more := RenderAll(f, es[1..]) + rest;
    assert RenderAll(f, es) + rest == Render(f, es[0]) + more;
    TrimAllConcat(Render(f, es[0]), more);
  }

  lemma {:induction false} AllBlocks(f: Format, es: seq<Thrown>, rest: seq<string>)
    requires Sound(f) && AllPrintable(f, es) && Noise(f, rest) && AllClosed(f, es, rest)
    ensures IdsIn(f, TrimAll(RenderAll(f, es) + rest)) == ThrownIds(f, es)
  {
    if es == [] {
      assert RenderAll(f, es) + rest == rest && TrimAll(rest) + [] == TrimAll(rest);
      NoiseIsSkipped(f, rest, []);
    } else {
      AllBlocks(f, es[1..], rest);
      FirstRendered(f, es, rest);
      OneBlock(f, es[0], TrimAll(RenderAll(f, es[1..]) + rest));
    }
  }

  /** Errors set directly one after the other, with nothing between them: only the last one needs an end. */
  lemma {:induction false} OneRuleIsEnough(f: Format, es: seq<Thrown>, rest: seq<string>)
    requires Sound(f) && AllPrintable(f, es) && es != [] && Closed(f, es[|es| - 1], rest)
    requires forall k :: 1 <= k < |es| ==> es[k].layout.before == []
    ensures AllClosed(f, es, rest)
  {
    if |es| == 1 {
      assert RenderAll(f, es[1..]) + rest == rest;
    } else {
      var next := es[1];
      OneRuleIsEnough(f, es[1..], rest);
      HeaderIsHeader(f, next);
      assert Render(f, next)[0] == Header(f, next);
      assert RenderAll(f, es[1..]) == Render(f, next) + RenderAll(f, es[1..][1..]);
    }
  }

  predicate AllSingle(lines: seq<string>) {
    forall k :: 0 <= k < |lines| ==> '\n' !in lines[k]
  }

  lemma SingleTogether(a: seq<string>, b: seq<string>)
    requires AllSingle(a) && AllSingle(b)
    ensures AllSingle(a + b)
  {
  }

  lemma OwnLinesSingle(f: Format, e: Thrown)
    requires Sound(f) && Printable(f, e)
    ensures AllSingle([Header(f, e)]) && AllSingle([e.message] + e.trace)
    ensures AllSingle(OriginLines(f, e)) && AllSingle(ClosingLines(f, e))
  {
    HeaderIsHeader(f, e);
    if e.layout.closing > 0 { RuleIsRule(f, e.layout.closing); }
    if e.file.Some? { OriginIsRead(f, e.file.value, e.remark); }
    forall k | 0 <= k < |e.trace| ensures '\n' !in e.trace[k] { assert Plain(f, e.trace[k]); }
  }

  lemma BlockSingleLines(f: Format, e: Thrown)
    requires Sound(f) && Printable(f, e)
    ensures AllSingle(Render(f, e))
  {
    OwnLinesSingle(f, e);
    var origin, closing := OriginLines(f, e), ClosingLines(f, e);
    SingleTogether([e.message] + e.trace, origin);
    SingleTogether([e.message] + e.trace + origin, closing);
    SingleTogether([Header(f, e)], [e.message] + e.trace + origin + closing);
    SingleTogether(e.layout.before, [Header(f, e)] + ([e.message] + e.trace + origin + closing));
  }

  lemma {:induction false} SingleLines(f: Format, es: seq<Thrown>)
    requires Sound(f) && AllPrintable(f, es)
    ensures AllSingle(RenderAll(f, es))
  {
    if es != [] {
      SingleLines(f, es[1..]);
      BlockSingleLines(f, es[0]);
    }
  }

  /**
   * Parse-print: printing any list of unhandled errors in blocks, each ended by
   * a rule of its own, by the next error or by the end, with rules of any length
   * and amid any other output, and reading the whole output back gives exactly
   * their distinct ids, first seen first.
   */
  lemma ReadsWhatIsPrinted(f: Format, es: seq<Thrown>, rest: seq<string>)
    requires Sound(f) && AllPrintable(f, es) && Noise(f, rest) && AllClosed(f, es, rest)
    ensures IdsOf(f, Printed(f, es, rest)) == Distinct(ThrownIds(f, es))
  {
    var lines := RenderAll(f, es) + rest;
    AllBlocks(f, es, rest);
    if lines == [] {
      assert LinesOf("") == [""];
    } else {
      SingleLines(f, es);
      SplitJoin(lines, '\n');
    }
  }

  // --------------------------------------------------------- numbers in output

  /** Lines that play the same part in a block, up to the numbers in them. */
  predicate SameLine(f: Format, a: string, b: string) {
    a == b || (&& SameButNumbers(a, b) && (a == "" <==> b == "")
               && !Ruled(f, a) && !Ruled(f, b) && OriginOf(f, a).None? && OriginOf(f, b).None?)
  }

  predicate SameLines(f: Format, a: seq<string>, b: seq<string>) {
    |a| == |b| && forall k :: 0 <= k < |a| ==> SameLine(f, a[k], b[k])
  }

  lemma {:induction false} SameBlock(f: Format, a: seq<string>, b: seq<string>)
    requires SameLines(f, a, b)
    ensures BlockLength(f, a) == BlockLength(f, b)
    ensures FileNamed(f, a) == FileNamed(f, b)
    ensures || MessageOf(a) == MessageOf(b)
            || (SameButNumbers(MessageOf(a), MessageOf(b)) && MessageOf(a) != "" && MessageOf(b) != "")
  {
    if a != [] { SameBlock(f, a[1..], b[1..]); }
  }

  lemma {:induction false} SameIds(f: Format, a: seq<string>, b: seq<string>)
    requires SameLines(f, a, b)
    ensures IdsIn(f, a) == IdsIn(f, b)
  {
    if a != [] {
      SameIds(f, a[1..], b[1..]);
      SameBlock(f, a[1..], b[1..]);
      var n := BlockLength(f, a[1..]);
      SameBlock(f, a[1..][..n], b[1..][..n]);
      var m1, m2 := MessageOf(a[1..][..n]), MessageOf(b[1..][..n]);
      if m1 != m2 { SameButNumbersHash(m1, m2); }
      assert SameLine(f, a[0], b[0]);
    }
  }

  /** Two outputs whose lines differ only in numbers, outside rules and file names, give the same ids. */
  lemma NumbersDoNotMatter(f: Format, x: string, y: string)
    requires SameLines(f, LinesOf(x), LinesOf(y))
    ensures IdsOf(f, x) == IdsOf(f, y)
  {
    SameIds(f, LinesOf(x), LinesOf(y));
  }
}

/** The texts Vitest prints, and the prefix of the ids made from them. */
module VitestFormat {
  import opened UnhandledErrors
  import Text

  const VITEST: Format := Format(
    '\U{23AF}', ["Uncaught Exception", "Unhandled Rejection", "Unhandled Error"],
    "This error originated in \"", "\" test file", "unknown error", "(unhandled) ")

  lemma KindsAreSingle(k: nat)
    requires k < |VITEST.kinds|
    ensures '\n' !in VITEST.kinds[k]
  {
    assert '\n' !in "Uncaught Exception";
    assert '\n' !in "Unhandled Rejection";
    assert '\n' !in "Unhandled Error";
  }

  lemma VitestIsSound()
    ensures Sound(VITEST)
  {
    assert '\n' !in "This error originated in \"";
    assert '\n' !in "\" test file";
    forall k | 0 <= k < |VITEST.kinds| ensures '\n' !in VITEST.kinds[k] { KindsAreSingle(k); }
  }

  /** The scan of a Vitest run's output finds exactly the errors it printed. */
  method IdsOfRun(ghost es: seq<Thrown>, ghost rest: seq<string>, output: string) returns (ids: seq<string>)
    requires AllPrintable(VITEST, es) && Noise(VITEST, rest) && AllClosed(VITEST, es, rest)
    requires output == Printed(VITEST, es, rest)
    ensures ids == Text.Distinct(ThrownIds(VITEST, es))
  {
    VitestIsSound();
    ReadsWhatIsPrinted(VITEST, es, rest);
    ids := UnhandledErrorIds(VITEST, output);
  }
}
