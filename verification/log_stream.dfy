/**
 * Following the server's log: the event stream arrives in chunks, is cut at
 * blank lines, and every complete block of type "entry" is emitted. This is a
 * subset of the event stream format of section 9.2 of the WHATWG HTML Living
 * Standard.
 */
module LogStream {
  import opened Options
  import opened Text

  const BLANK := "\n\n"

  /** The event type and the data collected from a block's lines; the last line of each kind counts. */
  function Fields(lines: seq<string>): (string, string) {
    if lines == [] then ("", "")
    else
      var (eventType, data) := Fields(lines[..|lines| - 1]);
      var line := lines[|lines| - 1];
      if "event:" <= line then (Trim(line[6..]), data)
      else if "data:" <= line then (eventType, Trim(line[5..]))
      else (eventType, data)
  }

  /** The data of a block that is a log entry. */
  function EntryData(block: string): Option<string> {
    var (eventType, data) := Fields(Split(block, "\n"));
    if Trim(block) == "" || eventType != "entry" || data == "" then None else Some(data)
  }

  /** Line `k` is the last one with this name. */
  predicate IsLast(lines: seq<string>, name: string, k: nat) {
    k < |lines| && name <= lines[k] && forall j :: k < j < |lines| ==> !(name <= lines[j])
  }

  predicate HasNone(lines: seq<string>, name: string) {
    forall j :: 0 <= j < |lines| ==> !(name <= lines[j])
  }

  /** Of several lines with the same name the last one counts. */
  lemma {:induction false} TypeIsLast(lines: seq<string>, k: nat)
    ensures HasNone(lines, "event:") ==> Fields(lines).0 == ""
    ensures IsLast(lines, "event:", k) ==> Fields(lines).0 == Trim(lines[k][6..])
  {
    if lines != [] {
      var init := lines[..|lines| - 1];
      if k < |init| { assert init[k] == lines[k]; }
      TypeIsLast(init, k);
    }
  }

  lemma {:induction false} DataIsLast(lines: seq<string>, k: nat)
    ensures HasNone(lines, "data:") ==> Fields(lines).1 == ""
    ensures IsLast(lines, "data:", k) ==> Fields(lines).1 == Trim(lines[k][5..])
  {
    if lines != [] {
      var init, last := lines[..|lines| - 1], lines[|lines| - 1];
      if k < |init| { assert init[k] == lines[k]; }
      if "data:" <= last { assert last[0] == 'd' && !("event:" <= last); }
      DataIsLast(init, k);
    }
  }

  /** A line with this name is the last one or is followed by another. */
  lemma {:induction false} SomeIsLast(lines: seq<string>, name: string) returns (k: nat)
    requires !HasNone(lines, name)
    ensures IsLast(lines, name, k)
  {
    k := |lines| - 1;
    if !(name <= lines[k]) {
      var init := lines[..k];
      var j :| 0 <= j < |lines| && name <= lines[j];
      assert init[j] == lines[j];
      k := SomeIsLast(init, name);
    }
  }

  lemma {:induction false} JoinHas(parts: seq<string>, sep: string, k: nat, c: char)
    requires k < |parts| && c in parts[k]
    ensures c in Join(parts, sep)
  {
    if |parts| > 1 {
      JoinFirst(parts, sep);
      if k > 0 { JoinHas(parts[1..], sep, k - 1, c); }
    }
  }

  /** A block with a type line is not blank. */
  lemma NotBlank(block: string, k: nat)
    requires var lines := Split(block, "\n"); k < |lines| && "event:" <= lines[k]
    ensures Trim(block) != ""
  {
    var lines := Split(block, "\n");
    SplitMeans(block, "\n");
    assert lines[k][0] == 'e';
    JoinHas(lines, "\n", k, 'e');
    var left, right := TrimMeans(block);
    assert 'e' in left + Trim(block) + right;
  }

  /** Lines `i` and `j` are the last type and the last data of a block, and they make it a log entry. */
  predicate MakesEntry(lines: seq<string>, i: nat, j: nat, data: string) {
    && IsLast(lines, "event:", i) && Trim(lines[i][6..]) == "entry"
    && IsLast(lines, "data:", j) && Trim(lines[j][5..]) == data != ""
  }

  /** A block is a log entry exactly if its last type line says "entry" and its last data line has text, which is its data. */
  lemma EntryMeans(block: string, data: string)
    ensures EntryData(block) == Some(data) <==> exists i: nat, j: nat :: MakesEntry(Split(block, "\n"), i, j, data)
  {
    var lines := Split(block, "\n");
    if EntryData(block) == Some(data) {
      TypeIsLast(lines, 0);
      DataIsLast(lines, 0);
      var i := SomeIsLast(lines, "event:");
      var j := SomeIsLast(lines, "data:");
      TypeIsLast(lines, i);
      DataIsLast(lines, j);
      assert MakesEntry(lines, i, j, data);
    }
    if i: nat, j: nat :| MakesEntry(lines, i, j, data) {
      TypeIsLast(lines, i);
      DataIsLast(lines, j);
      NotBlank(block, i);
    }
  }

  /** What is read from each block; `EntryData` for the server's log. */
  function AllData(blocks: seq<string>, read: string -> Option<string>): (r: seq<Option<string>>)
    ensures |r| == |blocks|
  {
    if blocks == [] then [] else [read(blocks[0])] + AllData(blocks[1..], read)
  }

  /** The parsed entries in order, up to the first whose data cannot be parsed. */
  function Parsed<T>(data: seq<Option<string>>, parse: string -> Option<T>): (seq<T>, bool) {
    if data == [] then ([], true)
    else
      var (entries, ok) := Parsed(data[..|data| - 1], parse);
      var last := data[|data| - 1];
      if !ok || last.None? then (entries, ok)
      else match parse(last.value) {
        case Some(e) => (entries + [e], true)
        case None => (entries, false)
      }
  }

  /** Nothing comes of a block without data; data that cannot be parsed ends it all; other data is the next entry. */
  lemma {:induction false} ParsedFromFront<T>(data: seq<Option<string>>, parse: string -> Option<T>)
    requires data != []
    ensures var rest := Parsed(data[1..], parse);
            Parsed(data, parse) ==
              if data[0].None? then rest
              else if parse(data[0].value).None? then ([], false)
              else ([parse(data[0].value).value] + rest.0, rest.1)
  {
    var init := data[..|data| - 1];
    if |data| == 1 {
      assert init == [] && data[1..] == [] && Parsed(init, parse) == ([], true);
      if data[0].Some? && parse(data[0].value).Some? {
        var e := parse(data[0].value).value;
        assert [] + [e] == [e] + [];
      }
    } else {
      ParsedFromFront(init, parse);
      var last := data[|data| - 1];
      assert data[1..][..|data[1..]| - 1] == init[1..] && data[1..][|data[1..]| - 1] == last;
      if data[0].Some? && parse(data[0].value).Some? && last.Some? && parse(last.value).Some? {
        var first, next, rest := parse(data[0].value).value, parse(last.value).value, Parsed(init[1..], parse).0;
        assert ([first] + rest) + [next] == [first] + (rest + [next]);
      }
    }
  }

  /** What the finished blocks of a text emit; false when one of them stops the stream. */
  function Emitted<T>(blocks: seq<string>, read: string -> Option<string>, parse: string -> Option<T>): (seq<T>, bool) {
    Parsed(AllData(blocks, read), parse)
  }

  function Concat(chunks: seq<string>): string {
    if chunks == [] then "" else Concat(chunks[..|chunks| - 1]) + chunks[|chunks| - 1]
  }

  /** The finished blocks of a text: all but the last part, which no blank line has closed yet. */
  function Finished(text: string): seq<string> {
    var parts := Split(text, BLANK);
    parts[..|parts| - 1]
  }

  function Unfinished(text: string): string {
    var parts := Split(text, BLANK);
    parts[|parts| - 1]
  }

  lemma FinishedGrows(text: string, chunk: string)
    ensures Finished(text + chunk) == Finished(text) + Finished(Unfinished(text) + chunk)
    ensures Unfinished(text + chunk) == Unfinished(Unfinished(text) + chunk)
  {
    SplitGrows(text, chunk, BLANK);
  }

  lemma {:induction false} AllDataConcat(a: seq<string>, b: seq<string>, read: string -> Option<string>)
    ensures AllData(a + b, read) == AllData(a, read) + AllData(b, read)
  {
    if a == [] {
      assert a + b == b;
    } else {
      assert (a + b)[1..] == a[1..] + b;
      AllDataConcat(a[1..], b, read);
    }
  }

  lemma {:induction false} ParsedStuck<T>(a: seq<Option<string>>, b: seq<Option<string>>, parse: string -> Option<T>)
    requires !Parsed(a, parse).1
    ensures Parsed(a + b, parse) == Parsed(a, parse)
  {
    if b == [] {
      assert a + b == a;
    } else {
      assert (a + b)[..|a + b| - 1] == a + b[..|b| - 1];
      ParsedStuck(a, b[..|b| - 1], parse);
    }
  }

  lemma FieldsOneMore(lines: seq<string>, i: nat)
    requires i < |lines|
    ensures var (eventType, data) := Fields(lines[..i]);
            Fields(lines[..i + 1]) == (if "event:" <= lines[i] then Trim(lines[i][6..]) else eventType,
                                       if "data:" <= lines[i] then Trim(lines[i][5..]) else data)
  {
    assert lines[..i + 1][..i] == lines[..i];
    if "event:" <= lines[i] { assert lines[i][0] == 'e'; }
  }

  /** The scan of one block's lines. */
  method ReadFields(block: string) returns (eventType: string, data: string)
    ensures (eventType, data) == Fields(Split(block, "\n"))
  {
    var lines := Split(block, "\n");
    eventType, data := "", "";
    var i := 0;
    while i < |lines|
      invariant 0 <= i <= |lines| && (eventType, data) == Fields(lines[..i])
    {
      FieldsOneMore(lines, i);
      if "event:" <= lines[i] { eventType := Trim(lines[i][6..]); }
      if "data:" <= lines[i] { data := Trim(lines[i][5..]); }
      i := i + 1;
    }
    assert lines[..i] == lines;
  }

  /**
   * Reading the stream chunk by chunk. However the text is cut into chunks, the
   * entries emitted are those of the finished blocks of the whole text.
   */
  method FollowLog<T>(chunks: seq<string>, read: string -> Option<string>, parse: string -> Option<T>)
    returns (entries: seq<T>, ok: bool)
    ensures (entries, ok) == Emitted(Finished(Concat(chunks)), read, parse)
  {
    entries, ok := [], true;
    var buffer := "";
    var n := 0;
    assert Split("", BLANK) == [""];
    while n < |chunks|
      invariant 0 <= n <= |chunks| && ok
      invariant (entries, true) == Emitted(Finished(Concat(chunks[..n])), read, parse)
      invariant buffer == Unfinished(Concat(chunks[..n]))
    {
      assert chunks[..n + 1][..n] == chunks[..n];
      ghost var before := Finished(Concat(chunks[..n]));
      FinishedGrows(Concat(chunks[..n]), chunks[n]);
      buffer := buffer + chunks[n];
      var parts := Split(buffer, BLANK);
      buffer := parts[|parts| - 1];
      var blocks := parts[..|parts| - 1];
      n := n + 1;
      assert Finished(Concat(chunks[..n])) == before + blocks;
      entries, ok := EmitBlocks(before, blocks, entries, read, parse);
      if !ok {
        LaterChunks(chunks, n, read, parse);
        return;
      }
    }
    assert chunks[..n] == chunks;
  }

  /** Once emission has failed, later chunks change nothing. */
  lemma {:induction false} LaterChunks<T>(chunks: seq<string>, n: nat, read: string -> Option<string>, parse: string -> Option<T>)
    requires n <= |chunks| && !Emitted(Finished(Concat(chunks[..n])), read, parse).1
    ensures Emitted(Finished(Concat(chunks)), read, parse) == Emitted(Finished(Concat(chunks[..n])), read, parse)
    decreases |chunks| - n
  {
    if n == |chunks| {
      assert chunks[..n] == chunks;
    } else {
      assert chunks[..n + 1][..n] == chunks[..n];
      FinishedGrows(Concat(chunks[..n]), chunks[n]);
      var before, more := Finished(Concat(chunks[..n])), Finished(Unfinished(Concat(chunks[..n])) + chunks[n]);
      AllDataConcat(before, more, read);
      ParsedStuck(AllData(before, read), AllData(more, read), parse);
      LaterChunks(chunks, n + 1, read, parse);
    }
  }

  /** The data of one block, read line by line. */
  method ReadEntry(block: string) returns (data: Option<string>)
    ensures data == EntryData(block)
  {
    if Trim(block) == "" { return None; }
    var eventType, text := ReadFields(block);
    if eventType != "entry" || text == "" { return None; }
    return Some(text);
  }

  /** Emit the blocks that one chunk finished. */
  method EmitBlocks<T>(ghost before: seq<string>, blocks: seq<string>, entries0: seq<T>,
                       read: string -> Option<string>, parse: string -> Option<T>)
    returns (entries: seq<T>, ok: bool)
    requires Emitted(before, read, parse) == (entries0, true)
    ensures (entries, ok) == Emitted(before + blocks, read, parse)
  {
    AllDataConcat(before, blocks, read);
    entries, ok := EmitAll(AllData(before, read), AllData(blocks, read), blocks, entries0, read, parse);
  }

  method EmitAll<T>(ghost before: seq<Option<string>>, ghost data: seq<Option<string>>, blocks: seq<string>,
                    entries0: seq<T>, read: string -> Option<string>, parse: string -> Option<T>)
    returns (entries: seq<T>, ok: bool)
    requires Parsed(before, parse) == (entries0, true) && data == AllData(blocks, read)
    ensures (entries, ok) == Parsed(before + data, parse)
  {
    entries, ok := entries0, true;
    ghost var done := before;
    var i := 0;
    while i < |blocks|
      invariant 0 <= i <= |blocks| && ok && (entries, true) == Parsed(done, parse)
      invariant done + AllData(blocks[i..], read) == before + data
    {
      var found := read(blocks[i]);
      assert AllData(blocks[i..], read) == [found] + AllData(blocks[i + 1..], read) by {
        assert blocks[i..][1..] == blocks[i + 1..];
      }
      assert (done + [found])[..|done|] == done;
      done := done + [found];
      i := i + 1;
      if found.Some? {
        var parsed := parse(found.value);
        if parsed.None? {
          assert Parsed(done, parse) == (entries, false);
          assert done + AllData(blocks[i..], read) == before + data;
          ParsedStuck(done, AllData(blocks[i..], read), parse);
          return entries, false;
        }
        entries := entries + [parsed.value];
      }
    }
    assert done + AllData(blocks[i..], read) == done;
  }

  /** Following the server's log. */
  method StreamLogs<T>(chunks: seq<string>, parse: string -> Option<T>) returns (entries: seq<T>, ok: bool)
    ensures (entries, ok) == Emitted(Finished(Concat(chunks)), EntryData, parse)
  {
    entries, ok := FollowLog(chunks, EntryData, parse);
  }

  // ------------------------------------------------------------- what was sent

  /** Blocks as they are sent, each closed by a blank line. */
  function Sent(blocks: seq<string>): string {
    if blocks == [] then "" else blocks[0] + BLANK + Sent(blocks[1..])
  }

  lemma {:induction false} SplitSent(blocks: seq<string>)
    requires forall k :: 0 <= k < |blocks| ==> IndexOf(blocks[k] + BLANK, BLANK) == |blocks[k]|
    ensures Split(Sent(blocks), BLANK) == blocks + [""]
  {
    if blocks == [] {
      assert Split("", BLANK) == [""];
    } else {
      SplitSent(blocks[1..]);
      FirstPart(blocks[0], BLANK, Sent(blocks[1..]));
      assert blocks + [""] == [blocks[0]] + (blocks[1..] + [""]);
    }
  }

  /** The blocks that were sent are the blocks that are finished, when no blank line starts inside one. */
  lemma SentIsFinished(blocks: seq<string>)
    requires forall k :: 0 <= k < |blocks| ==> IndexOf(blocks[k] + BLANK, BLANK) == |blocks[k]|
    ensures Finished(Sent(blocks)) == blocks && Unfinished(Sent(blocks)) == ""
  {
    SplitSent(blocks);
  }

  function Block(data: string): string {
    Join(["event: entry", "data: " + data], "\n")
  }

  lemma TrimFields(data: string)
    requires data != "" && !IsSpace(data[0]) && !IsSpace(data[|data| - 1])
    ensures Trim(" " + data) == data && Trim(" entry") == "entry"
  {
    assert (" " + data)[1..] == data;
    assert TrimLeft(data) == data;
    assert TrimLeft(" entry") == "entry" by { assert " entry"[1..] == "entry"; }
  }

  lemma TwoFields(data: string)
    requires data != "" && !IsSpace(data[0]) && !IsSpace(data[|data| - 1])
    ensures Fields(["event: entry", "data: " + data]) == ("entry", data)
  {
    var e, d := "event: entry", "data: " + data;
    TrimFields(data);
    var lines := [e, d];
    assert e[6..] == " entry" && d[5..] == " " + data;
    assert lines[..0] == [] && Fields(lines[..0]) == ("", "");
    FieldsOneMore(lines, 0);
    FieldsOneMore(lines, 1);
    assert lines[..2] == lines;
  }

  lemma BlockFields(data: string)
    requires data != "" && !IsSpace(data[0]) && !IsSpace(data[|data| - 1]) && '\n' !in data
    ensures Fields(Split(Block(data), "\n")) == ("entry", data)
  {
    SplitJoin(["event: entry", "data: " + data], '\n');
    TwoFields(data);
  }

  /** Sending an entry's data in a block and reading the block gives the data back. */
  lemma BlockIsRead(data: string)
    requires data != "" && !IsSpace(data[0]) && !IsSpace(data[|data| - 1]) && '\n' !in data
    ensures EntryData(Block(data)) == Some(data)
  {
    BlockFields(data);
    assert Block(data)[0] == 'e' && !IsSpace('e');
    assert TrimLeft(Block(data)) == Block(data);
    TrimRightKeeps(Block(data));
  }
}
