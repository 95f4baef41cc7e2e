/**
 * Which user messages an answer answers, as `takode activity` prints it: the
 * note is left out when the answer names exactly the unanswered messages above.
 */
module Activity {
  import opened Options
  import opened Text

  datatype Role = User | Answer | Report

  /** A message of a thread; `to` holds the user messages an answer names. */
  datatype Message = Message(role: Role, index: nat, to: Option<seq<nat>>)

  datatype Note = Nothing | Unanswered | NewResult | To(messages: seq<nat>)

  // ------------------------------------------------------------------- printing

  function Remaining(open: seq<nat>, to: seq<nat>): (r: seq<nat>)
    ensures forall x :: x in r <==> x in open && x !in to
  {
    if open == [] then []
    else Remaining(open[..|open| - 1], to) + if open[|open| - 1] in to then [] else [open[|open| - 1]]
  }

  /** The user messages no answer has named yet, after all of these messages. */
  function OpenAfter(messages: seq<Message>): seq<nat> {
    if messages == [] then []
    else
      var open, m := OpenAfter(messages[..|messages| - 1]), messages[|messages| - 1];
      if m.role == User then open + [m.index]
      else if m.to.Some? then Remaining(open, m.to.value)
      else open
  }

  predicate Obvious(to: seq<nat>, open: seq<nat>) {
    |to| == |open| && forall k :: 0 <= k < |to| ==> to[k] in open
  }

  function NoteOf(m: Message, open: seq<nat>, answered: set<nat>): Note {
    if m.role == User then (if m.index in answered then Nothing else Unanswered)
    else if m.to.None? then (if m.role == Answer then NewResult else Nothing)
    else if Obvious(m.to.value, open) then Nothing
    else To(m.to.value)
  }

  /** What the reader of the output sees of a message: its role, its index and the text of its note. */
  datatype Line = Line(role: Role, index: nat, note: string)

  function LinesOf(messages: seq<Message>, answered: set<nat>): (r: seq<Line>)
    ensures |r| == |messages|
  {
    if messages == [] then []
    else
      var init, m := messages[..|messages| - 1], messages[|messages| - 1];
      LinesOf(init, answered) + [Line(m.role, m.index, TextOf(NoteOf(m, OpenAfter(init), answered)))]
  }

  // ---------------------------------------------------------------- note as text

  function Decimal(n: nat): (r: string)
    ensures r != [] && forall k :: 0 <= k < |r| ==> '0' <= r[k] <= '9'
  {
    (if n < 10 then [] else Decimal(n / 10)) + [(n % 10) as char + '0']
  }

  function Value(s: string): nat
    requires forall k :: 0 <= k < |s| ==> '0' <= s[k] <= '9'
  {
    if s == [] then 0 else Value(s[..|s| - 1]) * 10 + (s[|s| - 1] - '0') as nat
  }

  lemma {:induction false} DecimalValue(n: nat)
    ensures Value(Decimal(n)) == n
  {
    var s := Decimal(n);
    if n < 10 {
      assert s == [n as char + '0'] && s[..0] == [];
      assert Value(s) == Value(s[..0]) * 10 + n;
    } else {
      DecimalValue(n / 10);
      assert s[..|s| - 1] == Decimal(n / 10);
    }
  }

  function Decimals(ns: seq<nat>): (r: seq<string>)
    ensures |r| == |ns| && forall k :: 0 <= k < |r| ==> r[k] == Decimal(ns[k])
  {
    if ns == [] then [] else [Decimal(ns[0])] + Decimals(ns[1..])
  }

  function TextOf(note: Note): string {
    match note
    case Nothing => ""
    case Unanswered => "unanswered"
    case NewResult => "new result"
    case To(ns) => "to " + Join(Decimals(ns), ", ")
  }

  // -------------------------------------------------------------------- reading

  lemma CommaFree(a: string)
    requires ',' !in a
    ensures IndexOf(a, ", ") == -1 && IndexOf(a + ", ", ", ") == |a|
  {
    var i, j := IndexOf(a, ", "), IndexOf(a + ", ", ", ");
    if i >= 0 { AtChar(a, ", ", i, 0); }
    assert (a + ", ")[|a|..|a| + 2] == ", " && At(a + ", ", ", ", |a|);
    AtChar(a + ", ", ", ", j, 0);
  }

  lemma {:induction false} SplitCommas(parts: seq<string>)
    requires parts != [] && forall k :: 0 <= k < |parts| ==> ',' !in parts[k]
    ensures Split(Join(parts, ", "), ", ") == parts
  {
    CommaFree(parts[0]);
    if |parts| > 1 {
      FirstPart(parts[0], ", ", Join(parts[1..], ", "));
      SplitCommas(parts[1..]);
      assert parts == [parts[0]] + parts[1..];
    }
  }

  /** The numbers in a list of texts; a text that is no number reads as 0. */
  function Values(parts: seq<string>): seq<nat> {
    if parts == [] then [] else [if AllDigits(parts[0]) then Value(parts[0]) else 0] + Values(parts[1..])
  }

  lemma {:induction false} ValuesOfDecimals(ns: seq<nat>)
    ensures Values(Decimals(ns)) == ns
  {
    if ns != [] {
      DecimalValue(ns[0]);
      ValuesOfDecimals(ns[1..]);
      assert Decimals(ns)[1..] == Decimals(ns[1..]);
    }
  }

  /** The note a text stands for. */
  function ReadNote(text: string): Note {
    if text == "" then Nothing
    else if text == "to " then To([])
    else if "to " <= text then To(Values(Split(text[3..], ", ")))
    else if text == "unanswered" then Unanswered
    else NewResult
  }

  lemma JoinedIsRead(messages: seq<nat>)
    requires messages != []
    ensures var list := Join(Decimals(messages), ", "); list != "" && Values(Split(list, ", ")) == messages
  {
    SplitCommas(Decimals(messages));
    ValuesOfDecimals(messages);
    CommaFree("");
    assert Split("", ", ") == [""] && Decimals(messages)[0] != "";
  }

  lemma NoteIsReadable(note: Note)
    ensures ReadNote(TextOf(note)) == note
  {
    if note.To? && note.messages != [] {
      JoinedIsRead(note.messages);
      assert TextOf(note)[3..] == Join(Decimals(note.messages), ", ");
    } else {
      assert "unanswered"[0] == 'u' && "new result"[0] == 'n' && "to "[0] == 't';
    }
  }

  function Elements(s: seq<nat>): (r: set<nat>)
    ensures forall x :: x in r <==> x in s
  {
    set x | x in s
  }

  /** The messages a line's answer names, for a reader that knows which are open. */
  function ReadTo(line: Line, open: set<nat>): Option<set<nat>> {
    if line.role == User then None
    else
      match ReadNote(line.note)
      case To(ns) => Some(Elements(ns))
      case Nothing => if line.role == Answer then Some(open) else None
      case _ => None
  }

  /** The reader's open messages after some lines. */
  function ReaderOpen(lines: seq<Line>): set<nat> {
    if lines == [] then {}
    else
      var open, line := ReaderOpen(lines[..|lines| - 1]), lines[|lines| - 1];
      if line.role == User then open + {line.index}
      else match ReadTo(line, open) {
        case Some(to) => open - to
        case None => open
      }
  }

  /** What the reader takes each line's message to name. */
  function ReadAll(lines: seq<Line>): (r: seq<Option<set<nat>>>)
    ensures |r| == |lines|
  {
    if lines == [] then []
    else
      var init := lines[..|lines| - 1];
      ReadAll(init) + [ReadTo(lines[|lines| - 1], ReaderOpen(init))]
  }

  function NamedBy(m: Message): Option<set<nat>> {
    if m.role == User || m.to.None? then None else Some(Elements(m.to.value))
  }

  function AllNamed(messages: seq<Message>): (r: seq<Option<set<nat>>>)
    ensures |r| == |messages| && forall k :: 0 <= k < |r| ==> r[k] == NamedBy(messages[k])
  {
    if messages == [] then [] else AllNamed(messages[..|messages| - 1]) + [NamedBy(messages[|messages| - 1])]
  }

  predicate NoRepeat(s: seq<nat>) {
    s == [] || (NoRepeat(s[..|s| - 1]) && s[|s| - 1] !in s[..|s| - 1])
  }

  /** No note is left out for an answer that names a message twice. */
  predicate NoHiddenRepeat(messages: seq<Message>) {
    messages == []
    || (var init, m := messages[..|messages| - 1], messages[|messages| - 1];
        NoHiddenRepeat(init)
        && (m.role != User && m.to.Some? && Obvious(m.to.value, OpenAfter(init)) ==> NoRepeat(m.to.value)))
  }

  /** A thread as the server builds it: in history order, and only answers name messages. */
  predicate IsThread(messages: seq<Message>) {
    (forall k :: 0 <= k < |messages| && messages[k].role == Report ==> messages[k].to.None?)
    && forall j, k :: 0 <= j < k < |messages| ==> messages[j].index < messages[k].index
  }

  lemma {:induction false} ElementsCount(s: seq<nat>)
    ensures |Elements(s)| <= |s| && (|Elements(s)| == |s| <==> NoRepeat(s))
  {
    if s != [] {
      var init, x := s[..|s| - 1], s[|s| - 1];
      ElementsCount(init);
      assert Elements(s) == Elements(init) + {x};
      if x in init { assert Elements(s) == Elements(init); }
    } else {
      assert Elements(s) == {};
    }
  }

  lemma {:induction false} RemainingNoRepeat(open: seq<nat>, to: seq<nat>)
    requires NoRepeat(open)
    ensures NoRepeat(Remaining(open, to))
  {
    if open != [] {
      var init, x := open[..|open| - 1], open[|open| - 1];
      RemainingNoRepeat(init, to);
      var rest := Remaining(init, to);
      assert (rest + [x])[..|rest|] == rest;
      assert rest + [] == rest;
    }
  }

  lemma {:induction false} OpenNoRepeat(messages: seq<Message>)
    requires IsThread(messages)
    ensures NoRepeat(OpenAfter(messages))
    ensures forall x :: x in OpenAfter(messages) ==> messages != [] && x <= messages[|messages| - 1].index
  {
    if messages != [] {
      var init, m := messages[..|messages| - 1], messages[|messages| - 1];
      OpenNoRepeat(init);
      if m.role == User {
        assert OpenAfter(messages)[..|OpenAfter(init)|] == OpenAfter(init);
      } else if m.to.Some? {
        RemainingNoRepeat(OpenAfter(init), m.to.value);
      }
    }
  }

  lemma SameCount(a: set<nat>, b: set<nat>)
    requires a <= b && |a| == |b|
    ensures a == b
  {
    assert b == a + (b - a);
    assert |b| == |a| + |b - a|;
    assert b - a == {};
  }

  /** An elided answer names exactly the open messages, unless it names one twice. */
  lemma ObviousIsOpen(to: seq<nat>, open: seq<nat>)
    requires Obvious(to, open) && NoRepeat(open)
    ensures Elements(to) == Elements(open) <==> NoRepeat(to)
  {
    ElementsCount(to);
    ElementsCount(open);
    assert Elements(to) <= Elements(open);
    if NoRepeat(to) { SameCount(Elements(to), Elements(open)); }
  }

  /** One line read by a reader that is right about what is open. */
  lemma ReadsOne(m: Message, open: seq<nat>, answered: set<nat>)
    requires NoRepeat(open) && (m.role == Report ==> m.to.None?)
    ensures var line := Line(m.role, m.index, TextOf(NoteOf(m, open, answered)));
            ReadTo(line, Elements(open)) == NamedBy(m)
            <==> (m.role != User && m.to.Some? && Obvious(m.to.value, open) ==> NoRepeat(m.to.value))
  {
    NoteIsReadable(NoteOf(m, open, answered));
    if m.role != User && m.to.Some? && Obvious(m.to.value, open) { ObviousIsOpen(m.to.value, open); }
  }

  /** A reader that is right about every message is right about what is open. */
  lemma {:induction false} RightReaderKnowsOpen(messages: seq<Message>, answered: set<nat>)
    requires ReadAll(LinesOf(messages, answered)) == AllNamed(messages)
    ensures ReaderOpen(LinesOf(messages, answered)) == Elements(OpenAfter(messages))
  {
    if messages != [] {
      var init, m := messages[..|messages| - 1], messages[|messages| - 1];
      var lines := LinesOf(messages, answered);
      assert lines[..|lines| - 1] == LinesOf(init, answered);
      var read, named := ReadAll(lines), AllNamed(messages);
      assert read[..|init|] == ReadAll(LinesOf(init, answered)) && named[..|init|] == AllNamed(init);
      RightReaderKnowsOpen(init, answered);
      assert read[|init|] == named[|init|];
    }
  }

  /**
   * The reader rebuilds what every answer names from the printed notes alone, if
   * and only if no note was left out for an answer that names a message twice.
   */
  lemma {:induction false} AnswersAreRecoverable(messages: seq<Message>, answered: set<nat>)
    requires IsThread(messages)
    ensures ReadAll(LinesOf(messages, answered)) == AllNamed(messages) <==> NoHiddenRepeat(messages)
  {
    if messages != [] {
      var init, m := messages[..|messages| - 1], messages[|messages| - 1];
      AnswersAreRecoverable(init, answered);
      var lines := LinesOf(messages, answered);
      assert lines[..|lines| - 1] == LinesOf(init, answered);
      var read, named := ReadAll(lines), AllNamed(messages);
      assert read[..|init|] == ReadAll(LinesOf(init, answered)) && named[..|init|] == AllNamed(init);
      if ReadAll(LinesOf(init, answered)) == AllNamed(init) {
        RightReaderKnowsOpen(init, answered);
        OpenNoRepeat(init);
        ReadsOne(m, OpenAfter(init), answered);
        assert read[|init|] == ReadTo(lines[|init|], Elements(OpenAfter(init))) && named[|init|] == NamedBy(m);
      }
    }
  }

  predicate NamesDistinct(messages: seq<Message>) {
    forall k :: 0 <= k < |messages| && messages[k].to.Some? ==> NoRepeat(messages[k].to.value)
  }

  lemma {:induction false} DistinctHidesNothing(messages: seq<Message>)
    requires NamesDistinct(messages)
    ensures NoHiddenRepeat(messages)
  {
    if messages != [] { DistinctHidesNothing(messages[..|messages| - 1]); }
  }

  // --------------------------------------------------------- the lines as printed

  predicate Names(m: Message, x: nat) {
    m.role != User && m.to.Some? && x in m.to.value
  }

  /** Before message `k`, the user message at place `j` has not been named since it was sent. */
  predicate OpenAt(messages: seq<Message>, k: nat, j: nat)
    requires j < k <= |messages|
  {
    messages[j].role == User && forall i :: j < i < k ==> !Names(messages[i], messages[j].index)
  }

  /** The places before `n` of the user messages that are open before message `k`. */
  function OpenPlaces(messages: seq<Message>, k: nat, n: nat): set<nat>
    requires n <= k <= |messages|
  {
    set j: nat | j < n && OpenAt(messages, k, j)
  }

  predicate IsOpen(messages: seq<Message>, k: nat, n: nat, x: nat)
    requires n <= k <= |messages|
  {
    exists j: nat :: j < n && OpenAt(messages, k, j) && messages[j].index == x
  }

  /** The same messages in order, by their indices. */
  function OpenList(messages: seq<Message>, k: nat, n: nat): seq<nat>
    requires n <= k <= |messages|
  {
    if n == 0 then []
    else OpenList(messages, k, n - 1) + if OpenAt(messages, k, n - 1) then [messages[n - 1].index] else []
  }

  lemma {:induction false} OpenListCount(messages: seq<Message>, k: nat, n: nat)
    requires n <= k <= |messages|
    ensures |OpenList(messages, k, n)| == |OpenPlaces(messages, k, n)|
  {
    if n > 0 {
      OpenListCount(messages, k, n - 1);
      assert OpenPlaces(messages, k, n)
          == OpenPlaces(messages, k, n - 1) + if OpenAt(messages, k, n - 1) then {n - 1} else {};
    }
  }

  lemma {:induction false} OpenListMeans(messages: seq<Message>, k: nat, n: nat, x: nat)
    requires n <= k <= |messages|
    ensures x in OpenList(messages, k, n) <==> IsOpen(messages, k, n, x)
  {
    if n > 0 {
      OpenListMeans(messages, k, n - 1, x);
      assert IsOpen(messages, k, n, x) <==>
             IsOpen(messages, k, n - 1, x) || (OpenAt(messages, k, n - 1) && messages[n - 1].index == x);
    }
  }

  lemma {:induction false} OneMoreNames(messages: seq<Message>, k: nat, n: nat)
    requires n <= k < |messages|
    ensures var m, open := messages[k], OpenList(messages, k, n);
            OpenList(messages, k + 1, n) == if m.role != User && m.to.Some? then Remaining(open, m.to.value) else open
  {
    if n > 0 {
      OneMoreNames(messages, k, n - 1);
      var m, before, x := messages[k], OpenList(messages, k, n - 1), messages[n - 1].index;
      assert OpenAt(messages, k + 1, n - 1) <==> OpenAt(messages, k, n - 1) && !Names(m, x);
      if m.role != User && m.to.Some? { RemainingOne(before, x, m.to.value); }
    }
  }

  lemma RemainingOne(open: seq<nat>, x: nat, to: seq<nat>)
    ensures Remaining(open + [], to) == Remaining(open, to) + []
    ensures Remaining(open + [x], to) == Remaining(open, to) + if x in to then [] else [x]
  {
    assert (open + [x])[..|open|] == open && open + [] == open;
  }

  lemma {:induction false} OpenMeans(messages: seq<Message>, k: nat)
    requires k <= |messages|
    ensures OpenAfter(messages[..k]) == OpenList(messages, k, k)
  {
    if k > 0 {
      assert messages[..k][..k - 1] == messages[..k - 1];
      OpenMeans(messages, k - 1);
      OneMoreNames(messages, k - 1, k - 1);
    }
  }

  /** An answer's note is left out: it names as many messages as are open, and open ones only. */
  predicate NamesTheOpen(messages: seq<Message>, k: nat, to: seq<nat>)
    requires k <= |messages|
  {
    |to| == |OpenPlaces(messages, k, k)| && forall x :: x in to ==> IsOpen(messages, k, k, x)
  }

  lemma ObviousMeans(messages: seq<Message>, k: nat, to: seq<nat>)
    requires k <= |messages|
    ensures Obvious(to, OpenAfter(messages[..k])) <==> NamesTheOpen(messages, k, to)
  {
    OpenMeans(messages, k);
    OpenListCount(messages, k, k);
    forall x ensures x in OpenList(messages, k, k) <==> IsOpen(messages, k, k, x) { OpenListMeans(messages, k, k, x); }
  }

  /** What the line of message `k` tells its reader. */
  predicate LineTells(messages: seq<Message>, answered: set<nat>, k: nat, line: Line)
    requires k < |messages|
  {
    var m, note := messages[k], ReadNote(line.note);
    && line.role == m.role && line.index == m.index
    && (note == Unanswered <==> m.role == User && m.index !in answered)
    && (note == NewResult <==> m.role == Answer && m.to == None)
    && (note.To? <==> m.role != User && m.to.Some? && !NamesTheOpen(messages, k, m.to.value))
    && (note.To? ==> m.to == Some(note.messages))
  }

  lemma LineIsTold(messages: seq<Message>, answered: set<nat>, k: nat)
    requires k < |messages|
    ensures var m := messages[k];
            LineTells(messages, answered, k, Line(m.role, m.index, TextOf(NoteOf(m, OpenAfter(messages[..k]), answered))))
  {
    var m := messages[k];
    NoteIsReadable(NoteOf(m, OpenAfter(messages[..k]), answered));
    if m.to.Some? { ObviousMeans(messages, k, m.to.value); }
  }

  lemma {:induction false} LineAt(messages: seq<Message>, answered: set<nat>, k: nat)
    requires k < |messages|
    ensures var m := messages[k];
            LinesOf(messages, answered)[k] == Line(m.role, m.index, TextOf(NoteOf(m, OpenAfter(messages[..k]), answered)))
  {
    var init := messages[..|messages| - 1];
    if k < |init| {
      LineAt(init, answered, k);
      assert init[..k] == messages[..k];
    }
  }

  predicate AllTell(messages: seq<Message>, answered: set<nat>, lines: seq<Line>) {
    |lines| == |messages| && forall k :: 0 <= k < |messages| ==> LineTells(messages, answered, k, lines[k])
  }

  lemma LinesTell(messages: seq<Message>, answered: set<nat>)
    ensures AllTell(messages, answered, LinesOf(messages, answered))
  {
    forall k | 0 <= k < |messages| ensures LineTells(messages, answered, k, LinesOf(messages, answered)[k]) {
      LineAt(messages, answered, k);
      LineIsTold(messages, answered, k);
    }
  }

  method FormatThread(messages: seq<Message>, answered: set<nat>) returns (lines: seq<Line>)
    ensures lines == LinesOf(messages, answered) && AllTell(messages, answered, lines)
  {
    lines := [];
    var open: seq<nat> := [];
    for i := 0 to |messages|
      invariant lines == LinesOf(messages[..i], answered) && open == OpenAfter(messages[..i])
    {
      var m := messages[i];
      assert messages[..i + 1][..i] == messages[..i];
      if m.role == User {
        lines := lines + [Line(m.role, m.index, TextOf(if m.index in answered then Nothing else Unanswered))];
        open := open + [m.index];
        continue;
      }
      if m.to.None? {
        lines := lines + [Line(m.role, m.index, TextOf(if m.role == Answer then NewResult else Nothing))];
        continue;
      }
      var to := m.to.value;
      var obvious := Obvious(to, open);
      open := Remaining(open, to);
      lines := lines + [Line(m.role, m.index, TextOf(if obvious then Nothing else To(to)))];
    }
    assert messages[..|messages|] == messages;
    LinesTell(messages, answered);
  }

  // ---------------------------------------------------------- the whole response

  /** A thread of a session; the messages of all its threads are numbered by their places in its history. */
  datatype Thread = Thread(session: string, messages: seq<Message>)

  /** The counts in the first line. */
  datatype Counts = Counts(users: nat, unanswered: nat, newResults: nat, reports: nat)

  function AllMessages(threads: seq<Thread>): seq<Message> {
    if threads == [] then [] else AllMessages(threads[..|threads| - 1]) + threads[|threads| - 1].messages
  }

  /** The messages that some answer of the response names. */
  function Answered(messages: seq<Message>): set<nat> {
    set m, x | m in messages && m.to.Some? && x in m.to.value :: x
  }

  function Count<T>(s: seq<T>, p: T -> bool): nat {
    if s == [] then 0 else Count(s[..|s| - 1], p) + if p(s[|s| - 1]) then 1 else 0
  }

  lemma {:induction false} CountAlike<S, T>(a: seq<S>, p: S -> bool, b: seq<T>, q: T -> bool)
    requires |a| == |b| && forall k :: 0 <= k < |a| ==> p(a[k]) == q(b[k])
    ensures Count(a, p) == Count(b, q)
  {
    if a != [] { CountAlike(a[..|a| - 1], p, b[..|b| - 1], q); }
  }

  /** The lines of all threads, as they follow one another. */
  function AllLines(lines: seq<seq<Line>>): seq<Line> {
    if lines == [] then [] else AllLines(lines[..|lines| - 1]) + lines[|lines| - 1]
  }

  /** The first line counts what the lines below it show. */
  predicate CountsLines(counts: Counts, lines: seq<Line>) {
    && counts.users == Count(lines, (line: Line) => line.role == User)
    && counts.unanswered == Count(lines, (line: Line) => ReadNote(line.note) == Unanswered)
    && counts.newResults == Count(lines, (line: Line) => ReadNote(line.note) == NewResult)
    && counts.reports == Count(lines, (line: Line) => line.role == Report)
  }

  function CountsOf(messages: seq<Message>, answered: set<nat>): Counts {
    Counts(Count(messages, (m: Message) => m.role == User),
           Count(messages, (m: Message) => m.role == User && m.index !in answered),
           Count(messages, (m: Message) => m.role == Answer && m.to.None?),
           Count(messages, (m: Message) => m.role == Report))
  }

  /** A line shows the role and, by its note, what is counted. */
  predicate ShowsKind(m: Message, answered: set<nat>, line: Line) {
    && line.role == m.role
    && (ReadNote(line.note) == Unanswered <==> m.role == User && m.index !in answered)
    && (ReadNote(line.note) == NewResult <==> m.role == Answer && m.to == None)
  }

  lemma KindsAreCounted(messages: seq<Message>, answered: set<nat>, lines: seq<Line>)
    requires |lines| == |messages| && forall k :: 0 <= k < |messages| ==> ShowsKind(messages[k], answered, lines[k])
    ensures CountsLines(CountsOf(messages, answered), lines)
  {
    CountAlike(messages, (m: Message) => m.role == User, lines, (line: Line) => line.role == User);
    CountAlike(messages, (m: Message) => m.role == User && m.index !in answered,
               lines, (line: Line) => ReadNote(line.note) == Unanswered);
    CountAlike(messages, (m: Message) => m.role == Answer && m.to.None?,
               lines, (line: Line) => ReadNote(line.note) == NewResult);
    CountAlike(messages, (m: Message) => m.role == Report, lines, (line: Line) => line.role == Report);
  }

  predicate ShowKinds(messages: seq<Message>, answered: set<nat>, lines: seq<Line>) {
    |lines| == |messages| && forall k :: 0 <= k < |messages| ==> ShowsKind(messages[k], answered, lines[k])
  }

  lemma KindsGrow(before: seq<Message>, answered: set<nat>, lines: seq<Line>, messages: seq<Message>, more: seq<Line>)
    requires ShowKinds(before, answered, lines) && AllTell(messages, answered, more)
    ensures ShowKinds(before + messages, answered, lines + more)
  {
    forall k | 0 <= k < |before + messages| ensures ShowsKind((before + messages)[k], answered, (lines + more)[k]) {
      if k >= |before| { assert LineTells(messages, answered, k - |before|, more[k - |before|]); }
    }
  }

  /** The lines of these threads tell what they should, each thread by itself. */
  predicate ThreadsTell(threads: seq<Thread>, answered: set<nat>, lines: seq<seq<Line>>) {
    |lines| == |threads| && forall t :: 0 <= t < |threads| ==> AllTell(threads[t].messages, answered, lines[t])
  }

  lemma OneMoreThread(threads: seq<Thread>, t: nat, answered: set<nat>, lines: seq<seq<Line>>, more: seq<Line>)
    requires t < |threads| && ThreadsTell(threads[..t], answered, lines) && AllTell(threads[t].messages, answered, more)
    requires ShowKinds(AllMessages(threads[..t]), answered, AllLines(lines))
    ensures ThreadsTell(threads[..t + 1], answered, lines + [more])
    ensures ShowKinds(AllMessages(threads[..t + 1]), answered, AllLines(lines + [more]))
  {
    KindsGrow(AllMessages(threads[..t]), answered, AllLines(lines), threads[t].messages, more);
    assert threads[..t + 1][..t] == threads[..t] && (lines + [more])[..t] == lines;
  }

  /** Every thread's lines tell what they should, and the first line counts them. */
  method FormatActivity(threads: seq<Thread>) returns (counts: Counts, lines: seq<seq<Line>>)
    ensures ThreadsTell(threads, Answered(AllMessages(threads)), lines)
    ensures CountsLines(counts, AllLines(lines))
  {
    var messages := AllMessages(threads);
    var answered := Answered(messages);
    counts := CountsOf(messages, answered);
    lines := [];
    for t := 0 to |threads|
      invariant ThreadsTell(threads[..t], answered, lines)
      invariant ShowKinds(AllMessages(threads[..t]), answered, AllLines(lines))
    {
      var more := FormatThread(threads[t].messages, answered);
      OneMoreThread(threads, t, answered, lines, more);
      lines := lines + [more];
    }
    assert threads[..|threads|] == threads;
    KindsAreCounted(messages, answered, AllLines(lines));
  }

  // --------------------------------------------------------- what the server sends

  /** The user messages by their ids; a later message takes over an id. */
  function IndexById(ids: seq<string>, asks: seq<nat>): map<string, nat>
    requires |ids| == |asks|
  {
    if ids == [] then map[]
    else IndexById(ids[..|ids| - 1], asks[..|asks| - 1])[ids[|ids| - 1] := asks[|asks| - 1]]
  }

  /** An id stands for the last message that has it, and an id that none has for nothing. */
  lemma {:induction false} IdNamesLast(ids: seq<string>, asks: seq<nat>, id: string)
    requires |ids| == |asks|
    ensures id in IndexById(ids, asks) <==> id in ids
    ensures forall k :: 0 <= k < |ids| && ids[k] == id && id !in ids[k + 1..] ==> IndexById(ids, asks)[id] == asks[k]
  {
    if ids != [] {
      var n := |ids| - 1;
      IdNamesLast(ids[..n], asks[..n], id);
      forall k | 0 <= k < |ids| && ids[k] == id && id !in ids[k + 1..] ensures IndexById(ids, asks)[id] == asks[k] {
        if k < n {
          assert ids[n] in ids[k + 1..] && ids[..n][k + 1..] == ids[k + 1..n];
        }
      }
    }
  }

  predicate Rising(s: seq<nat>) {
    forall j, k :: 0 <= j < k < |s| ==> s[j] < s[k]
  }

  predicate OneIdEach(m: map<string, nat>) {
    forall a, b :: a in m && b in m && m[a] == m[b] ==> a == b
  }

  lemma {:induction false} IndexByIdFacts(ids: seq<string>, asks: seq<nat>)
    requires |ids| == |asks| && Rising(asks)
    ensures OneIdEach(IndexById(ids, asks))
    ensures forall a :: a in IndexById(ids, asks) ==> asks != [] && IndexById(ids, asks)[a] <= asks[|asks| - 1]
  {
    if ids != [] {
      IndexByIdFacts(ids[..|ids| - 1], asks[..|asks| - 1]);
    }
  }

  /** The messages behind some ids; ids of no message are dropped. */
  function MessagesOf(ids: seq<string>, m: map<string, nat>): seq<nat> {
    if ids == [] then []
    else
      var id := ids[|ids| - 1];
      MessagesOf(ids[..|ids| - 1], m) + if id in m then [m[id]] else []
  }

  /** Each id gives its message, in order. */
  lemma {:induction false} MessagesJoin(a: seq<string>, b: seq<string>, id: string, m: map<string, nat>)
    ensures MessagesOf([id], m) == if id in m then [m[id]] else []
    ensures MessagesOf(a + b, m) == MessagesOf(a, m) + MessagesOf(b, m)
  {
    assert [id][..0] == [];
    if b == [] {
      assert a + b == a && MessagesOf(a, m) + [] == MessagesOf(a, m);
    } else {
      assert (a + b)[..|a + b| - 1] == a + b[..|b| - 1];
      MessagesJoin(a, b[..|b| - 1], id, m);
    }
  }

  lemma {:induction false} FromSomeId(ids: seq<string>, m: map<string, nat>, x: nat)
    requires x in MessagesOf(ids, m)
    ensures exists k :: 0 <= k < |ids| && ids[k] in m && m[ids[k]] == x
  {
    var init, id := ids[..|ids| - 1], ids[|ids| - 1];
    if x in MessagesOf(init, m) {
      FromSomeId(init, m, x);
      var k :| 0 <= k < |init| && init[k] in m && m[init[k]] == x;
      assert ids[k] == init[k];
    }
  }

  lemma {:induction false} MessagesNoRepeat(ids: seq<string>, m: map<string, nat>)
    requires OneIdEach(m) && forall i, j :: 0 <= i < j < |ids| ==> ids[i] != ids[j]
    ensures NoRepeat(MessagesOf(ids, m))
  {
    if ids != [] {
      var init, id := ids[..|ids| - 1], ids[|ids| - 1];
      MessagesNoRepeat(init, m);
      var before := MessagesOf(init, m);
      if id in m {
        if m[id] in before {
          FromSomeId(init, m, m[id]);
        }
        assert (before + [m[id]])[..|before|] == before;
      } else {
        assert before + [] == before;
      }
    }
  }

  /** An answer's ids may repeat, but the server sends each message once. */
  lemma SentAnswerIsDistinct(ids: seq<string>, asks: seq<nat>, named: seq<string>)
    requires |ids| == |asks| && Rising(asks)
    ensures NoRepeat(MessagesOf(Distinct(named), IndexById(ids, asks)))
  {
    IndexByIdFacts(ids, asks);
    DistinctFacts(named);
    MessagesNoRepeat(Distinct(named), IndexById(ids, asks));
  }

  // ------------------------------------------------------- what a history answers

  /**
   * A message of a session's history: a user's, an assistant's with text or not
   * and with the ids it names, a published report, the end of a turn.
   */
  datatype Item = Ask | Assistant(text: bool, names: Option<seq<string>>) | Published | Result(retry: bool) | Other

  /** User messages sent since the last turn ended, and the last reply since the first of them. */
  datatype Turn = Turn(asks: seq<nat>, lastReply: Option<nat>)

  /** The turn under way before message `k`, when the scan begins at message `start`; leaders' messages are in no turn. */
  function TurnAt(items: seq<Item>, leaders: set<nat>, start: nat, k: nat): Option<Turn>
    requires start <= k <= |items|
    decreases k - start
  {
    if k == start then None
    else
      var t := TurnAt(items, leaders, start, k - 1);
      match items[k - 1]
      case Ask =>
        if k - 1 in leaders then t
        else if t.Some? then Some(Turn(t.value.asks + [k - 1], t.value.lastReply))
        else Some(Turn([k - 1], None))
      case Assistant(text, _) => if text && t.Some? then Some(Turn(t.value.asks, Some(k - 1))) else t
      case Result(retry) => if retry then t else None
      case _ => t
  }

  type Answers = map<nat, seq<nat>>

  /** The answers found before message `k`: to the messages an answer names, or to those of the turn that its last reply ends. */
  function AnswersAt(items: seq<Item>, leaders: set<nat>, byId: map<string, nat>, start: nat, k: nat): Answers
    requires start <= k <= |items|
    decreases k - start
  {
    if k == start then map[]
    else
      var before, t := AnswersAt(items, leaders, byId, start, k - 1), TurnAt(items, leaders, start, k - 1);
      match items[k - 1]
      case Assistant(text, names) =>
        var to := MessagesOf(Distinct(if names.Some? then names.value else []), byId);
        if text && names.Some? && to != [] then before[k - 1 := to] else before
      case Result(retry) =>
        if !retry && t.Some? && t.value.lastReply.Some? then before[t.value.lastReply.value := t.value.asks] else before
      case _ => before
  }

  /** The scan that collects the answers. */
  method CollectAnswers(items: seq<Item>, leaders: set<nat>, byId: map<string, nat>, start: nat) returns (answers: Answers)
    requires start <= |items|
    ensures answers == AnswersAt(items, leaders, byId, start, |items|)
  {
    answers := map[];
    var turn: Option<Turn> := None;
    for k := start to |items|
      invariant turn == TurnAt(items, leaders, start, k) && answers == AnswersAt(items, leaders, byId, start, k)
    {
      var item := items[k];
      if item.Ask? {
        if k in leaders { continue; }
        if turn.Some? { turn := Some(Turn(turn.value.asks + [k], turn.value.lastReply)); } else { turn := Some(Turn([k], None)); }
        continue;
      }
      var reply := item.Assistant? && item.text;
      if reply && item.names.Some? {
        var to := MessagesOf(Distinct(item.names.value), byId);
        if to != [] { answers := answers[k := to]; }
      }
      if turn.None? { continue; }
      if reply { turn := Some(Turn(turn.value.asks, Some(k))); }
      if !item.Result? || item.retry { continue; }
      if turn.value.lastReply.Some? { answers := answers[turn.value.lastReply.value := turn.value.asks]; }
      turn := None;
    }
  }

  /** A user message of the turn under way before message `k`: no turn has ended since it was sent. */
  predicate InTurn(items: seq<Item>, leaders: set<nat>, j: nat, k: nat)
    requires j < k <= |items|
  {
    items[j].Ask? && j !in leaders && forall e :: j < e < k ==> items[e] != Result(false)
  }

  /** A turn holds exactly the user messages sent since the last one ended, in order, and its reply is not before the scan. */
  lemma {:induction false} TurnIsWhole(items: seq<Item>, leaders: set<nat>, start: nat, k: nat)
    requires start <= k <= |items|
    ensures var t := TurnAt(items, leaders, start, k);
            && (forall j :: start <= j < k ==> (InTurn(items, leaders, j, k) <==> t.Some? && j in t.value.asks))
            && (t.Some? ==> t.value.asks != [] && Rising(t.value.asks)
                            && (forall x :: x in t.value.asks ==> start <= x < k)
                            && (t.value.lastReply.Some? ==> start <= t.value.lastReply.value < k))
    decreases k - start
  {
    if k > start {
      TurnIsWhole(items, leaders, start, k - 1);
      TurnGrows(items, leaders, start, k);
      var t := TurnAt(items, leaders, start, k - 1);
      if t.Some? { RisingGrows(t.value.asks, k - 1); }
    }
  }

  lemma RisingGrows(asks: seq<nat>, x: nat)
    requires Rising(asks) && forall y :: y in asks ==> y < x
    ensures Rising(asks + [x])
  {
    forall j, k | 0 <= j < k < |asks + [x]| ensures (asks + [x])[j] < (asks + [x])[k] {
      assert (asks + [x])[j] in asks;
    }
  }

  lemma TurnGrows(items: seq<Item>, leaders: set<nat>, start: nat, k: nat)
    requires start < k <= |items|
    ensures forall j :: start <= j < k - 1 ==>
              (InTurn(items, leaders, j, k) <==> InTurn(items, leaders, j, k - 1) && items[k - 1] != Result(false))
  {
  }

  lemma {:induction false} RisingNoRepeat(asks: seq<nat>)
    requires Rising(asks)
    ensures NoRepeat(asks)
  {
    if asks != [] { RisingNoRepeat(asks[..|asks| - 1]); }
  }

  lemma NamedNoRepeat(names: seq<string>, byId: map<string, nat>)
    requires OneIdEach(byId)
    ensures NoRepeat(MessagesOf(Distinct(names), byId))
  {
    DistinctFacts(names);
    MessagesNoRepeat(Distinct(names), byId);
  }

  predicate AllDistinct(answers: Answers) {
    forall r :: r in answers ==> answers[r] != [] && NoRepeat(answers[r])
  }

  lemma OneMoreDistinct(answers: Answers, r: nat, to: seq<nat>)
    requires AllDistinct(answers) && to != [] && NoRepeat(to)
    ensures AllDistinct(answers[r := to])
  {
  }

  /** Every answer of the scan names some message, and none twice. */
  lemma {:induction false} AnswersAreDistinct(items: seq<Item>, leaders: set<nat>, byId: map<string, nat>, start: nat, k: nat)
    requires start <= k <= |items| && OneIdEach(byId)
    ensures AllDistinct(AnswersAt(items, leaders, byId, start, k))
    decreases k - start
  {
    if k > start {
      AnswersAreDistinct(items, leaders, byId, start, k - 1);
      var before := AnswersAt(items, leaders, byId, start, k - 1);
      match items[k - 1]
      case Assistant(_, names) =>
        if names.Some? {
          NamedNoRepeat(names.value, byId);
          var to := MessagesOf(Distinct(names.value), byId);
          if to != [] { OneMoreDistinct(before, k - 1, to); }
        }
      case Result(_) =>
        TurnIsWhole(items, leaders, start, k - 1);
        var t := TurnAt(items, leaders, start, k - 1);
        if t.Some? && t.value.lastReply.Some? {
          RisingNoRepeat(t.value.asks);
          OneMoreDistinct(before, t.value.lastReply.value, t.value.asks);
        }
      case _ =>
    }
  }

  /**
   * Where to begin the scan for a window: with the turn that holds the window's
   * first message `low`. `newest[k]` is the latest time up to message `k`.
   */
  method ScanStart(items: seq<Item>, newest: seq<int>, since: int) returns (start: nat, ghost low: nat)
    requires |newest| == |items| && forall i, j :: 0 <= i < j < |items| ==> newest[i] <= newest[j]
    ensures start <= low <= |items|
    ensures (forall i :: 0 <= i < low ==> newest[i] < since) && (low < |items| ==> newest[low] >= since)
    ensures start == 0 || items[start - 1] == Result(false)
    ensures forall e :: start <= e < low ==> items[e] != Result(false)
  {
    var first, high := 0, |items|;
    while first < high
      invariant first <= high <= |items|
      invariant forall i :: 0 <= i < first ==> newest[i] < since
      invariant high < |items| ==> newest[high] >= since
    {
      var middle := (first + high) / 2;
      if newest[middle] >= since { high := middle; } else { first := middle + 1; }
    }
    start, low := first, first;
    while start > 0
      invariant start <= low
      invariant forall e :: start <= e < low ==> items[e] != Result(false)
    {
      if items[start - 1] == Result(false) { return; }
      start := start - 1;
    }
  }

  lemma {:induction false} AnswerKeys(items: seq<Item>, leaders: set<nat>, byId: map<string, nat>, start: nat, k: nat)
    requires start <= k <= |items|
    ensures forall r :: r in AnswersAt(items, leaders, byId, start, k) ==> start <= r < k
    decreases k - start
  {
    if k > start {
      AnswerKeys(items, leaders, byId, start, k - 1);
      TurnIsWhole(items, leaders, start, k - 1);
    }
  }

  predicate IsReply(item: Item) {
    item.Assistant? && item.text
  }

  /** The messages a reply names itself. */
  function NamedIn(item: Item, byId: map<string, nat>): seq<nat> {
    if IsReply(item) && item.names.Some? then MessagesOf(Distinct(item.names.value), byId) else []
  }

  /** Message `r` is the last reply before `k`, in a turn that has not ended since and had a user message before it. */
  predicate LastReplyOf(items: seq<Item>, leaders: set<nat>, start: nat, r: nat, k: nat)
    requires start <= r < k <= |items|
  {
    && IsReply(items[r]) && (exists j :: start <= j < r && InTurn(items, leaders, j, r))
    && forall x :: r < x < k ==> !IsReply(items[x]) && items[x] != Result(false)
  }

  lemma {:induction false} ReplyIsLast(items: seq<Item>, leaders: set<nat>, start: nat, k: nat, r: nat)
    requires start <= r < k <= |items|
    ensures var t := TurnAt(items, leaders, start, k);
            LastReplyOf(items, leaders, start, r, k) <==> t.Some? && t.value.lastReply == Some(r)
    decreases k - start
  {
    TurnIsWhole(items, leaders, start, k - 1);
    var t := TurnAt(items, leaders, start, k - 1);
    if r < k - 1 {
      ReplyIsLast(items, leaders, start, k - 1, r);
    } else if t.Some? {
      assert t.value.asks[0] in t.value.asks;
    }
  }

  /** The turn that message `e` ends, by message `r` as its last reply. */
  predicate EndsTurn(items: seq<Item>, leaders: set<nat>, start: nat, r: nat, e: nat)
    requires start <= r < e < |items|
  {
    items[e] == Result(false) && LastReplyOf(items, leaders, start, r, e)
  }

  /** `to` is the user messages of the turn under way before message `e`, in order. */
  predicate HoldsTurn(items: seq<Item>, leaders: set<nat>, start: nat, to: seq<nat>, e: nat)
    requires start <= e <= |items|
  {
    && to != [] && Rising(to) && (forall x :: x in to ==> start <= x < e)
    && forall j :: start <= j < e ==> (j in to <==> InTurn(items, leaders, j, e))
  }

  /** Before message `k` some turn has ended with message `r` as its last reply. */
  predicate HasEnded(items: seq<Item>, leaders: set<nat>, start: nat, r: nat, k: nat)
    requires start <= r < k <= |items|
  {
    exists e :: r < e < k && EndsTurn(items, leaders, start, r, e)
  }

  /** What a message should answer: the turn that it is the last reply of, or else the messages that it names. */
  predicate AnswersRightly(items: seq<Item>, leaders: set<nat>, byId: map<string, nat>, start: nat, k: nat, r: nat,
                           answers: Answers)
    requires start <= r < k <= |items|
  {
    if HasEnded(items, leaders, start, r, k) then
      r in answers && forall e :: r < e < k && EndsTurn(items, leaders, start, r, e) ==>
                        HoldsTurn(items, leaders, start, answers[r], e)
    else
      (r in answers <==> NamedIn(items[r], byId) != []) && (r in answers ==> answers[r] == NamedIn(items[r], byId))
  }

  /** A message's own answer, when it has just been scanned. */
  lemma NewestAnswer(items: seq<Item>, leaders: set<nat>, byId: map<string, nat>, start: nat, r: nat)
    requires start <= r < |items|
    ensures var answers, to := AnswersAt(items, leaders, byId, start, r + 1), NamedIn(items[r], byId);
            (r in answers <==> to != []) && (r in answers ==> answers[r] == to)
  {
    AnswerKeys(items, leaders, byId, start, r);
    TurnIsWhole(items, leaders, start, r);
  }

  /** Only the end of its turn changes what an earlier message answers. */
  lemma AnswerStays(items: seq<Item>, leaders: set<nat>, byId: map<string, nat>, start: nat, k: nat, r: nat)
    requires start <= r < k < |items| && !EndsTurn(items, leaders, start, r, k)
    ensures var a, b := AnswersAt(items, leaders, byId, start, k), AnswersAt(items, leaders, byId, start, k + 1);
            (r in a <==> r in b) && (r in a ==> a[r] == b[r])
  {
    ReplyIsLast(items, leaders, start, k, r);
  }

  lemma AnswerEnds(items: seq<Item>, leaders: set<nat>, byId: map<string, nat>, start: nat, k: nat, r: nat)
    requires start <= r < k < |items| && EndsTurn(items, leaders, start, r, k)
    ensures var answers := AnswersAt(items, leaders, byId, start, k + 1);
            r in answers && HoldsTurn(items, leaders, start, answers[r], k)
  {
    ReplyIsLast(items, leaders, start, k, r);
    TurnIsWhole(items, leaders, start, k);
  }

  /** Exactly which messages answer, and what: each one rightly, and no other. */
  lemma {:induction false} AnswersAreExact(items: seq<Item>, leaders: set<nat>, byId: map<string, nat>, start: nat, k: nat,
                                           r: nat)
    requires start <= r < k <= |items|
    ensures AnswersRightly(items, leaders, byId, start, k, r, AnswersAt(items, leaders, byId, start, k))
    decreases k - start
  {
    if r == k - 1 {
      NewestAnswer(items, leaders, byId, start, r);
    } else if EndsTurn(items, leaders, start, r, k - 1) {
      AnswerEnds(items, leaders, byId, start, k - 1, r);
      EndsOnce(items, leaders, start, r, k - 1);
    } else {
      AnswersAreExact(items, leaders, byId, start, k - 1, r);
      AnswerStays(items, leaders, byId, start, k - 1, r);
      EndedBefore(items, leaders, start, r, k - 1);
    }
  }

  lemma EndsOnce(items: seq<Item>, leaders: set<nat>, start: nat, r: nat, k: nat)
    requires start <= r < k < |items| && EndsTurn(items, leaders, start, r, k)
    ensures HasEnded(items, leaders, start, r, k + 1)
    ensures forall e :: r < e < k + 1 && EndsTurn(items, leaders, start, r, e) ==> e == k
  {
  }

  lemma EndedBefore(items: seq<Item>, leaders: set<nat>, start: nat, r: nat, k: nat)
    requires start <= r < k < |items| && !EndsTurn(items, leaders, start, r, k)
    ensures HasEnded(items, leaders, start, r, k + 1) <==> HasEnded(items, leaders, start, r, k)
  {
  }

  // ------------------------------------------------------- what the server sends

  /** What the server sends of a history's message, if anything. */
  function SentAt(items: seq<Item>, answers: Answers, k: nat): Option<Message>
    requires k < |items|
  {
    if k in answers then Some(Message(Answer, k, Some(answers[k])))
    else match items[k] {
      case Ask => Some(Message(User, k, None))
      case Published => Some(Message(Report, k, None))
      case Assistant(text, names) => if text && names == Some([]) then Some(Message(Answer, k, None)) else None
      case _ => None
    }
  }

  /** A thread: the messages before `k` that belong to it and to the window, by their places in the history. */
  function Sent(items: seq<Item>, answers: Answers, listed: set<nat>, k: nat): seq<Message>
    requires k <= |items|
  {
    if k == 0 then []
    else
      var before, m := Sent(items, answers, listed, k - 1), SentAt(items, answers, k - 1);
      if k - 1 in listed && m.Some? then before + [m.value] else before
  }

  lemma {:induction false} SentIsThread(items: seq<Item>, answers: Answers, listed: set<nat>, k: nat)
    requires k <= |items| && AllDistinct(answers)
    ensures var thread := Sent(items, answers, listed, k);
            && IsThread(thread) && NamesDistinct(thread) && forall i :: 0 <= i < |thread| ==> thread[i].index < k
  {
    if k > 0 { SentIsThread(items, answers, listed, k - 1); }
  }

  /**
   * From the history to the reader: whatever was said in a session, whatever
   * part of it is asked for, the printed notes of a thread tell a reader exactly
   * what each of its answers answers.
   */
  lemma SentIsRecoverable(items: seq<Item>, ids: seq<string>, leaders: seq<nat>, start: nat, listed: set<nat>, answered: set<nat>)
    requires |ids| == |leaders| && Rising(leaders) && start <= |items|
    ensures var noTurn := set x | x in leaders;
            var thread := Sent(items, AnswersAt(items, noTurn, IndexById(ids, leaders), start, |items|), listed, |items|);
            ReadAll(LinesOf(thread, answered)) == AllNamed(thread)
  {
    var noTurn := set x | x in leaders;
    var answers := AnswersAt(items, noTurn, IndexById(ids, leaders), start, |items|);
    IndexByIdFacts(ids, leaders);
    AnswersAreDistinct(items, noTurn, IndexById(ids, leaders), start, |items|);
    SentIsThread(items, answers, listed, |items|);
    DistinctHidesNothing(Sent(items, answers, listed, |items|));
    AnswersAreRecoverable(Sent(items, answers, listed, |items|), answered);
  }

  /** Scanning from the end of some turn finds what scanning everything finds, but for the answers before it. */
  lemma {:induction false} WindowIsEnough(items: seq<Item>, leaders: set<nat>, byId: map<string, nat>, start: nat, k: nat)
    requires start <= k <= |items| && (start == 0 || items[start - 1] == Result(false))
    ensures TurnAt(items, leaders, 0, k) == TurnAt(items, leaders, start, k)
    ensures AnswersAt(items, leaders, byId, 0, k)
         == AnswersAt(items, leaders, byId, 0, start) + AnswersAt(items, leaders, byId, start, k)
    ensures forall r :: r in AnswersAt(items, leaders, byId, 0, start) ==> r < start
    decreases k - start
  {
    AnswerKeys(items, leaders, byId, 0, start);
    if k > start { WindowIsEnough(items, leaders, byId, start, k - 1); }
  }

  lemma {:induction false} InSent(items: seq<Item>, answers: Answers, listed: set<nat>, n: nat, m: Message)
    requires n <= |items|
    ensures m in Sent(items, answers, listed, n) <==>
            m.index < n && m.index in listed && SentAt(items, answers, m.index) == Some(m)
  {
    if n > 0 { InSent(items, answers, listed, n - 1, m); }
  }

  /** Exactly what a thread holds: its listed answers, user messages, reports and new results, and nothing else. */
  lemma SentExactly(items: seq<Item>, answers: Answers, listed: set<nat>, n: nat, m: Message)
    requires n <= |items|
    ensures m in Sent(items, answers, listed, n) <==>
              && m.index < n && m.index in listed
              && m.to == (if m.index in answers then Some(answers[m.index]) else None)
              && (m.role == User <==> m.index !in answers && items[m.index] == Ask)
              && (m.role == Report <==> m.index !in answers && items[m.index] == Published)
              && (m.role == Answer <==> m.index in answers || items[m.index] == Assistant(true, Some([])))
  {
    InSent(items, answers, listed, n, m);
  }

  // ------------------------------------------------------------- a window's messages

  /** When the messages were sent, and the times asked for. */
  datatype Window = Window(at: seq<int>, since: int, until: int) {
    predicate Has(k: nat) {
      k < |at| && since <= at[k] < until
    }
  }

  /** Message `r` is an answer of the window, or before place `n`, that answers message `k`. */
  predicate NamedInside(answers: Answers, w: Window, n: nat, k: nat) {
    exists r :: r in answers && r < n && w.Has(r) && k in answers[r]
  }

  predicate AnswersInside(answers: Answers, w: Window, r: nat) {
    r in answers && exists x :: x in answers[r] && w.Has(x)
  }

  /** Some answer of the history answers message `k`. */
  predicate IsAnswered(answers: Answers, k: nat) {
    exists r :: r in answers && k in answers[r]
  }

  /** A user message that the scan has met. */
  predicate IsAsk(items: seq<Item>, answers: Answers, start: nat, k: nat) {
    k < |items| && items[k].Ask? && (k >= start || IsAnswered(answers, k))
  }

  predicate IsUnrequested(items: seq<Item>, start: nat, k: nat) {
    start <= k < |items| && (items[k].Published? || items[k] == Assistant(true, Some([])))
  }

  /** A window lists what was sent in it, every answer to that, and every message that was answered in it. */
  predicate IsListed(items: seq<Item>, answers: Answers, start: nat, w: Window, k: nat) {
    || ((IsAsk(items, answers, start, k) || k in answers || IsUnrequested(items, start, k)) && w.Has(k))
    || AnswersInside(answers, w, k)
    || NamedInside(answers, w, |w.at|, k)
  }

  method SelectActivity(items: seq<Item>, answers: Answers, start: nat, w: Window) returns (listed: set<nat>)
    requires |w.at| == |items| && forall r :: r in answers ==> r < |items|
    ensures forall k :: k in listed <==> IsListed(items, answers, start, w, k)
  {
    listed := {};
    for k := 0 to |items|
      invariant forall j: nat :: j in listed <==> j < k && IsAsk(items, answers, start, j) && w.Has(j)
    {
      if IsAsk(items, answers, start, k) && w.Has(k) { listed := listed + {k}; }
    }
    for r := 0 to |items|
      invariant forall j: nat :: j in listed <==>
                  || (IsAsk(items, answers, start, j) && w.Has(j))
                  || (j < r && j in answers && (w.Has(j) || AnswersInside(answers, w, j)))
                  || NamedInside(answers, w, r, j)
    {
      if r in answers {
        if w.Has(r) {
          listed := listed + {r} + Elements(answers[r]);
        } else if AnswersInside(answers, w, r) {
          listed := listed + {r};
        }
      }
    }
    ghost var before := listed;
    for k := 0 to |items|
      invariant forall j: nat :: j in listed <==> j in before || (j < k && IsUnrequested(items, start, j) && w.Has(j))
    {
      if IsUnrequested(items, start, k) && w.Has(k) { listed := listed + {k}; }
    }
  }

  /** A listed user message that has an answer is named by an answer that is listed too. */
  lemma AnswerIsListed(items: seq<Item>, answers: Answers, start: nat, w: Window, k: nat)
    requires k < |items| && items[k].Ask? && k !in answers && IsListed(items, answers, start, w, k)
    ensures IsAnswered(answers, k) <==>
            exists r :: r in answers && IsListed(items, answers, start, w, r) && k in answers[r]
  {
    if IsAnswered(answers, k) {
      if w.Has(k) {
        var r :| r in answers && k in answers[r];
        assert AnswersInside(answers, w, r);
      } else {
        var r :| r in answers && r < |w.at| && w.Has(r) && k in answers[r];
        assert IsListed(items, answers, start, w, r);
      }
    }
  }

  // ----------------------------------------------------------- who has been answered

  predicate HasMessage(threads: seq<Thread>, t: nat, m: Message) {
    t < |threads| && m in threads[t].messages
  }

  /** The threads of a session hold exactly what its window lists, whatever way it is shared out among them. */
  ghost predicate Carries(threads: seq<Thread>, session: string, items: seq<Item>, answers: Answers, start: nat, w: Window) {
    forall m: Message ::
      (exists t: nat :: HasMessage(threads, t, m) && threads[t].session == session)
      <==> m.index < |items| && IsListed(items, answers, start, w, m.index) && SentAt(items, answers, m.index) == Some(m)
  }

  lemma SharedOut(threads: seq<Thread>, session: string, items: seq<Item>, answers: Answers, start: nat, w: Window,
                  parts: seq<set<nat>>)
    requires |parts| == |threads|
    requires forall t :: 0 <= t < |threads| && threads[t].session == session ==>
               threads[t].messages == Sent(items, answers, parts[t], |items|)
    requires forall k: nat :: IsListed(items, answers, start, w, k) <==>
               exists t :: 0 <= t < |threads| && threads[t].session == session && k in parts[t]
    ensures Carries(threads, session, items, answers, start, w)
  {
    forall m: Message, t: nat | t < |threads| && threads[t].session == session
      ensures HasMessage(threads, t, m) <==>
                m.index < |items| && m.index in parts[t] && SentAt(items, answers, m.index) == Some(m)
    {
      InSent(items, answers, parts[t], |items|, m);
    }
  }

  /** An answer in a thread of another session names a message with the same index. */
  predicate OthersName(threads: seq<Thread>, session: string, k: nat) {
    exists t: nat, m :: t < |threads| && threads[t].session != session && m in threads[t].messages
                   && m.to.Some? && k in m.to.value
  }

  lemma {:induction false} MessageOfThread(threads: seq<Thread>, m: Message)
    ensures m in AllMessages(threads) <==> exists t: nat :: HasMessage(threads, t, m)
  {
    if threads != [] {
      var init := threads[..|threads| - 1];
      MessageOfThread(init, m);
      if t: nat :| HasMessage(init, t, m) { assert HasMessage(threads, t, m); }
      if m in threads[|threads| - 1].messages { assert HasMessage(threads, |threads| - 1, m); }
      if t: nat :| HasMessage(threads, t, m) && t < |init| { assert HasMessage(init, t, m); }
    }
  }

  lemma OwnAnswerCounts(threads: seq<Thread>, session: string, items: seq<Item>, answers: Answers, start: nat, w: Window,
                        r: nat)
    requires Carries(threads, session, items, answers, start, w)
    requires r in answers && r < |items| && IsListed(items, answers, start, w, r)
    ensures forall k :: k in answers[r] ==> k in Answered(AllMessages(threads))
  {
    var m := Message(Answer, r, Some(answers[r]));
    assert SentAt(items, answers, m.index) == Some(m);
    var t: nat :| HasMessage(threads, t, m) && threads[t].session == session;
    MessageOfThread(threads, m);
  }

  lemma OtherAnswerCounts(threads: seq<Thread>, session: string, k: nat)
    requires OthersName(threads, session, k)
    ensures k in Answered(AllMessages(threads))
  {
    var t: nat, m :| t < |threads| && threads[t].session != session && m in threads[t].messages
                     && m.to.Some? && k in m.to.value;
    assert HasMessage(threads, t, m);
    MessageOfThread(threads, m);
  }

  lemma CountsOnlyAnswers(threads: seq<Thread>, session: string, items: seq<Item>, answers: Answers, start: nat, w: Window,
                          k: nat)
    requires Carries(threads, session, items, answers, start, w) && k in Answered(AllMessages(threads))
    ensures IsAnswered(answers, k) || OthersName(threads, session, k)
  {
    var m :| m in AllMessages(threads) && m.to.Some? && k in m.to.value;
    MessageOfThread(threads, m);
    var t: nat :| HasMessage(threads, t, m);
    if threads[t].session == session {
      assert SentAt(items, answers, m.index) == Some(m);
    }
  }

  /** A user message counts as answered if its own session answers it, or if another session's answer names its index. */
  lemma AnsweredBySome(threads: seq<Thread>, session: string, items: seq<Item>, answers: Answers, start: nat, w: Window,
                       k: nat)
    requires Carries(threads, session, items, answers, start, w)
    requires k < |items| && items[k].Ask? && k !in answers && IsListed(items, answers, start, w, k)
    requires forall r :: r in answers ==> r < |items|
    ensures k in Answered(AllMessages(threads)) <==> IsAnswered(answers, k) || OthersName(threads, session, k)
  {
    AnswerIsListed(items, answers, start, w, k);
    if IsAnswered(answers, k) {
      var r :| r in answers && IsListed(items, answers, start, w, r) && k in answers[r];
      OwnAnswerCounts(threads, session, items, answers, start, w, r);
    }
    if OthersName(threads, session, k) { OtherAnswerCounts(threads, session, k); }
    if k in Answered(AllMessages(threads)) { CountsOnlyAnswers(threads, session, items, answers, start, w, k); }
  }

  /**
   * From the history to the note: the line of a listed user message says that it
   * is unanswered exactly if nothing in its session answers it, unless an answer
   * of another session names the same index.
   */
  lemma UnansweredIsRightIff(threads: seq<Thread>, session: string, items: seq<Item>, answers: Answers, start: nat, w: Window,
                             t: nat, i: nat, lines: seq<Line>)
    requires Carries(threads, session, items, answers, start, w) && forall r :: r in answers ==> r < |items|
    requires t < |threads| && threads[t].session == session && i < |threads[t].messages|
    requires threads[t].messages[i].role == User
    requires AllTell(threads[t].messages, Answered(AllMessages(threads)), lines)
    ensures var k := threads[t].messages[i].index;
            (ReadNote(lines[i].note) == Unanswered <==> !IsAnswered(answers, k))
            <==> (OthersName(threads, session, k) ==> IsAnswered(answers, k))
  {
    var m := threads[t].messages[i];
    assert HasMessage(threads, t, m);
    AnsweredBySome(threads, session, items, answers, start, w, m.index);
    assert LineTells(threads[t].messages, Answered(AllMessages(threads)), i, lines[i]);
  }

  // ----------------------------------------------------------------- a misreading

  /** Two sessions with a user message at the same place: the answer to one hides that the other has none. */
  lemma UnansweredIsHidden(lines: seq<Line>)
    requires var ask, answer := Message(User, 1, None), Message(Answer, 2, Some([1]));
             AllTell([ask], Answered(AllMessages([Thread("a", [ask]), Thread("b", [ask, answer])])), lines)
    ensures |lines| == 1 && lines[0].role == User && ReadNote(lines[0].note) != Unanswered
  {
    var ask, answer := Message(User, 1, None), Message(Answer, 2, Some([1]));
    var threads := [Thread("a", [ask]), Thread("b", [ask, answer])];
    assert HasMessage(threads, 1, answer) && 1 in answer.to.value;
    MessageOfThread(threads, answer);
    assert LineTells([ask], Answered(AllMessages(threads)), 0, lines[0]);
  }


  /** Two user messages, then an answer that names the first one twice: printed as if it answered both. */
  lemma RepeatIsMisread()
    ensures var thread := [Message(User, 1, None), Message(User, 2, None), Message(Answer, 3, Some([1, 1]))];
            IsThread(thread) && NoteOf(thread[2], OpenAfter(thread[..2]), {1}) == Nothing
            && ReadAll(LinesOf(thread, {1})) != AllNamed(thread)
  {
    var thread := [Message(User, 1, None), Message(User, 2, None), Message(Answer, 3, Some([1, 1]))];
    assert thread[..2][..1] == thread[..1] && thread[..1][..0] == [];
    assert OpenAfter(thread[..0]) == [];
    assert OpenAfter(thread[..1]) == [1];
    assert thread[..2][1] == Message(User, 2, None);
    assert OpenAfter(thread[..2]) == [1, 2];
    var to := [1, 1];
    assert to[..1] == [1] && to[1] in to[..1] && !NoRepeat(to);
    assert !NoHiddenRepeat(thread);
    AnswersAreRecoverable(thread, {1});
  }
}
