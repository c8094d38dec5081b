/** The incremental parser of server-sent events (`src/providers/sse.rs`). Text is a sequence of
    Unicode scalar values, and sizes are in bytes of UTF-8. */
module Sse {
  import opened Base

  const MAX_BYTES: nat := 256 * 1024

  function Utf8Len(c: char): nat {
    var n := c as int;
    if n < 0x80 then 1 else if n < 0x800 then 2 else if n < 0x1_0000 then 3 else 4
  }

  function Size(s: string): nat {
    if s == "" then 0 else Utf8Len(s[0]) + Size(s[1..])
  }

  lemma {:induction false} SizeConcat(s: string, t: string)
    ensures Size(s + t) == Size(s) + Size(t)
  {
    if s == "" {
      assert s + t == t;
    } else {
      assert (s + t)[1..] == s[1..] + t;
      SizeConcat(s[1..], t);
    }
  }

  // ---------------------------------------------------------------- delimiters

  predicate Blank(s: string, i: nat)
    requires i + 1 < |s|
  {
    s[i] == '\n' && s[i + 1] == '\n'
  }

  /** `find("\n\n")`: the leftmost blank line. */
  function FindDelimiter(s: string): (r: Option<nat>)
    ensures r.Some? ==> r.value + 2 <= |s|
  {
    if |s| < 2 then None
    else if Blank(s, 0) then Some(0)
    else
      match FindDelimiter(s[1..])
      case None => None
      case Some(k) => Some(k + 1)
  }

  lemma {:induction false} FindsLeftmost(s: string)
    ensures FindDelimiter(s).Some? ==> Blank(s, FindDelimiter(s).value)
    ensures FindDelimiter(s).Some? ==> forall i :: 0 <= i < FindDelimiter(s).value ==> !Blank(s, i)
    ensures FindDelimiter(s).None? ==> forall i :: 0 <= i < |s| - 1 ==> !Blank(s, i)
  {
    if |s| >= 2 {
      FindsLeftmost(s[1..]);
      forall i | 1 <= i < |s| - 1 ensures Blank(s, i) == Blank(s[1..], i - 1) { }
    }
  }

  lemma DelimiterAt(s: string, k: nat)
    requires k + 1 < |s| && Blank(s, k) && forall i :: 0 <= i < k ==> !Blank(s, i)
    ensures FindDelimiter(s) == Some(k)
  {
    FindsLeftmost(s);
  }

  /** More text does not move a delimiter that has been found. */
  lemma DelimiterStays(s: string, t: string)
    requires FindDelimiter(s).Some?
    ensures FindDelimiter(s + t) == FindDelimiter(s)
  {
    FindsLeftmost(s);
    forall i | 0 <= i < |s| - 1 ensures Blank(s + t, i) == Blank(s, i) { }
    DelimiterAt(s + t, FindDelimiter(s).value);
  }

  lemma CutAtDelimiter(s: string)
    requires FindDelimiter(s).Some?
    ensures var k := FindDelimiter(s).value;
            s == s[..k] + "\n\n" + s[k + 2..] && Unbroken(s[..k])
  {
    var k := FindDelimiter(s).value;
    FindsLeftmost(s);
    var piece := s[..k] + "\n";
    forall i | 0 <= i < k ensures Blank(piece, i) == Blank(s, i) { }
    FindsLeftmost(piece);
  }

  lemma DelimiterAfter(raw: string, rest: string)
    requires Unbroken(raw)
    ensures FindDelimiter(raw + "\n\n" + rest) == Some(|raw|)
  {
    var s, piece := raw + "\n\n" + rest, raw + "\n";
    FindsLeftmost(piece);
    forall i | 0 <= i < |raw| ensures Blank(s, i) == Blank(piece, i) { }
    DelimiterAt(s, |raw|);
  }

  /** The text of every complete event. */
  function Raw(s: string): seq<string>
    decreases |s|
  {
    match FindDelimiter(s)
    case None => []
    case Some(k) => [s[..k]] + Raw(s[k + 2..])
  }

  /** What comes after the last complete event. */
  function Rest(s: string): string
    decreases |s|
  {
    match FindDelimiter(s)
    case None => s
    case Some(k) => Rest(s[k + 2..])
  }

  function Assemble(raws: seq<string>, rest: string): string {
    if raws == [] then rest else raws[0] + "\n\n" + Assemble(raws[1..], rest)
  }

  /** Neither holds a blank line nor makes one with the newline that follows it. */
  predicate Unbroken(raw: string) {
    FindDelimiter(raw + "\n").None?
  }

  /** Raw and Rest take the input apart losslessly, and no delimiter is left in any piece. */
  lemma {:induction false} SplitAssembles(s: string)
    ensures Assemble(Raw(s), Rest(s)) == s
    ensures FindDelimiter(Rest(s)) == None
    ensures forall i :: 0 <= i < |Raw(s)| ==> Unbroken(Raw(s)[i])
    decreases |s|
  {
    if FindDelimiter(s).Some? {
      CutAtDelimiter(s);
      SplitAssembles(s[FindDelimiter(s).value + 2..]);
    }
  }

  /** And there is only one way to take it apart like that. */
  lemma {:induction false} SplitUnique(raws: seq<string>, rest: string)
    requires FindDelimiter(rest) == None
    requires forall i :: 0 <= i < |raws| ==> Unbroken(raws[i])
    ensures Raw(Assemble(raws, rest)) == raws && Rest(Assemble(raws, rest)) == rest
    decreases raws
  {
    if raws != [] {
      var s, later := Assemble(raws, rest), Assemble(raws[1..], rest);
      DelimiterAfter(raws[0], later);
      assert s[..|raws[0]|] == raws[0] && s[|raws[0]| + 2..] == later;
      SplitUnique(raws[1..], rest);
    }
  }

  /** Text that arrives later only continues the split of what is left over. */
  lemma {:induction false} SplitResumes(s: string, t: string)
    ensures Raw(s + t) == Raw(s) + Raw(Rest(s) + t)
    ensures Rest(s + t) == Rest(Rest(s) + t)
    decreases |s|
  {
    var found := FindDelimiter(s);
    if found.Some? {
      var k := found.value;
      DelimiterStays(s, t);
      assert (s + t)[..k] == s[..k] && (s + t)[k + 2..] == s[k + 2..] + t;
      SplitResumes(s[k + 2..], t);
      assert Raw(s + t) == [s[..k]] + (Raw(s[k + 2..]) + Raw(Rest(s) + t));
    } else {
      assert [] + Raw(s + t) == Raw(s + t);
    }
  }

  lemma {:induction false} RestShrinks(s: string)
    ensures Size(Rest(s)) <= Size(s)
    decreases |s|
  {
    var found := FindDelimiter(s);
    if found.Some? {
      var k := found.value;
      assert s == s[..k + 2] + s[k + 2..];
      SizeConcat(s[..k + 2], s[k + 2..]);
      RestShrinks(s[k + 2..]);
    }
  }

  // ---------------------------------------------------------------- event data

  /** `char::is_whitespace` */
  predicate IsWhitespace(c: char) {
    var n := c as int;
    || 0x09 <= n <= 0x0D || n == 0x20 || n == 0x85 || n == 0xA0 || n == 0x1680
    || 0x2000 <= n <= 0x200A || n == 0x2028 || n == 0x2029 || n == 0x202F || n == 0x205F || n == 0x3000
  }

  function TrimStart(s: string): string {
    if s != "" && IsWhitespace(s[0]) then TrimStart(s[1..]) else s
  }

  function FindNewline(s: string): (r: Option<nat>)
    ensures r.Some? ==> r.value < |s| && s[r.value] == '\n' && '\n' !in s[..r.value]
    ensures r.None? ==> '\n' !in s
  {
    if s == "" then None
    else if s[0] == '\n' then Some(0)
    else
      match FindNewline(s[1..])
      case None => None
      case Some(k) => assert s[..k + 1] == [s[0]] + s[1..][..k]; Some(k + 1)
  }

  function StripReturn(s: string): string {
    if s != "" && s[|s| - 1] == '\r' then s[..|s| - 1] else s
  }

  /** `str::lines`: a carriage return is dropped only where a newline follows it. */
  function Lines(s: string): seq<string>
    decreases |s|
  {
    if s == "" then []
    else
      match FindNewline(s)
      case None => [s]
      case Some(k) => [StripReturn(s[..k])] + Lines(s[k + 1..])
  }

  const DATA: string := "data:"

  /** The payload of a `data:` line, unless it is blank. */
  function DataOf(line: string): (r: Option<string>) {
    if |line| >= 5 && line[..5] == DATA && TrimStart(line[5..]) != "" then Some(TrimStart(line[5..])) else None
  }

  function DataLines(lines: seq<string>): seq<string> {
    if lines == [] then []
    else (if DataOf(lines[0]).Some? then [DataOf(lines[0]).value] else []) + DataLines(lines[1..])
  }

  /** `parse_event_data` */
  function EventData(raw: string): Option<string> {
    var data := DataLines(Lines(raw));
    if data == [] then None else Some(Join(data, '\n'))
  }

  function Events(raws: seq<string>): seq<string> {
    if raws == [] then []
    else (if EventData(raws[0]).Some? then [EventData(raws[0]).value] else []) + Events(raws[1..])
  }

  lemma {:induction false} EventsConcat(a: seq<string>, b: seq<string>)
    ensures Events(a + b) == Events(a) + Events(b)
  {
    if a == [] {
      assert a + b == b;
    } else {
      var first := if EventData(a[0]).Some? then [EventData(a[0]).value] else [];
      assert (a + b)[1..] == a[1..] + b;
      EventsConcat(a[1..], b);
      assert first + (Events(a[1..]) + Events(b)) == (first + Events(a[1..])) + Events(b);
    }
  }

  // ---------------------------------------------------------------- what counts as data

  /** The bytes of a character, and the limit on buffered bytes. */
  lemma Utf8LenExact(c: char)
    ensures Utf8Len(c) == 1 <==> c as int <= 127
    ensures Utf8Len(c) == 2 <==> 128 <= c as int <= 2047
    ensures Utf8Len(c) == 3 <==> 2048 <= c as int <= 65535
    ensures Utf8Len(c) == 4 <==> c as int >= 65536
    ensures MAX_BYTES == 262_144
  {
  }

  /** The white space of Unicode: tab to carriage return, space, next line, no-break space, and the wider
      spaces and separators. */
  lemma WhitespaceExact(c: char)
    ensures IsWhitespace(c) <==>
            || c as int in {9, 10, 11, 12, 13, 32, 133, 160, 5760, 8232, 8233, 8239, 8287, 12288}
            || 8192 <= c as int <= 8202
  {
  }

  predicate AllWhite(s: string) {
    forall i :: 0 <= i < |s| ==> IsWhitespace(s[i])
  }

  /** Trimming takes the white space at the start and nothing else. */
  lemma {:induction false} TrimStartExact(white: string, text: string)
    requires AllWhite(white) && (text == "" || !IsWhitespace(text[0]))
    ensures TrimStart(white + text) == text
  {
    if white == "" {
      assert white + text == text;
    } else {
      assert (white + text)[1..] == white[1..] + text;
      TrimStartExact(white[1..], text);
    }
  }

  lemma {:induction false} TrimStartSplits(s: string) returns (white: string)
    ensures AllWhite(white) && s == white + TrimStart(s)
    ensures TrimStart(s) == "" || !IsWhitespace(TrimStart(s)[0])
  {
    if s != "" && IsWhitespace(s[0]) {
      var w := TrimStartSplits(s[1..]);
      white := [s[0]] + w;
      assert s == [s[0]] + s[1..];
    } else {
      white := "";
    }
  }

  /** A line carries data exactly if it is `data:`, any white space, and something that does not start
      with white space, which is the data. */
  lemma DataOfExact(line: string, data: string)
    ensures DataOf(line) == Some(data) <==>
            exists white :: AllWhite(white) && line == "data:" + white + data && data != "" && !IsWhitespace(data[0])
  {
    if DataOf(line) == Some(data) {
      var white := TrimStartSplits(line[5..]);
      assert line == line[..5] + line[5..];
      assert line == "data:" + white + data;
    }
    if white :| AllWhite(white) && line == "data:" + white + data && data != "" && !IsWhitespace(data[0]) {
      assert line[..5] == "data:" && line[5..] == white + data;
      TrimStartExact(white, data);
    }
  }

  /** Lines end at newlines; one carriage return before a newline goes with it, and text after the last
      newline is a line of its own. */
  lemma LinesExact(line: string, rest: string)
    requires '\n' !in line
    ensures Lines("") == [] && (line != "" ==> Lines(line) == [line])
    ensures Lines(line + "\n" + rest) ==
            [if line != "" && line[|line| - 1] == '\r' then line[..|line| - 1] else line] + Lines(rest)
  {
    var s := line + "\n" + rest;
    var found := FindNewline(s);
    assert s[|line|] == '\n' && s[..|line|] == line;
    forall m | |line| < m <= |s| ensures '\n' in s[..m] {
      assert s[..m][|line|] == '\n';
    }
    assert found == Some(|line|);
    assert s[|line| + 1..] == rest;
  }

  /** An event's data are its data lines, in order, one per line; an event without any is dropped. */
  lemma DataLinesExact(a: seq<string>, line: string)
    ensures DataLines(a + [line]) == DataLines(a) + (match DataOf(line) case None => [] case Some(d) => [d])
  {
    DataLinesConcat(a, [line]);
    assert [line][1..] == [];
  }

  lemma {:induction false} DataLinesConcat(a: seq<string>, b: seq<string>)
    ensures DataLines(a + b) == DataLines(a) + DataLines(b)
  {
    if a == [] {
      assert a + b == b;
    } else {
      var first := if DataOf(a[0]).Some? then [DataOf(a[0]).value] else [];
      calc {
        DataLines(a + b);
        { assert (a + b)[0] == a[0] && (a + b)[1..] == a[1..] + b; }
        first + DataLines(a[1..] + b);
        { DataLinesConcat(a[1..], b); }
        first + (DataLines(a[1..]) + DataLines(b));
        (first + DataLines(a[1..])) + DataLines(b);
        DataLines(a) + DataLines(b);
      }
    }
  }

  lemma EventDataExact(raw: string)
    ensures EventData(raw).None? <==> forall line :: line in Lines(raw) ==> DataOf(line).None?
    ensures EventData(raw).Some? ==> EventData(raw).value == Join(DataLines(Lines(raw)), '\n')
  {
    SomeData(Lines(raw));
  }

  lemma {:induction false} SomeData(lines: seq<string>)
    ensures DataLines(lines) == [] <==> forall line :: line in lines ==> DataOf(line).None?
  {
    if lines != [] {
      SomeData(lines[1..]);
      assert forall line :: line in lines <==> line == lines[0] || line in lines[1..];
    }
  }

  // ---------------------------------------------------------------- the size checks inside the loop

  lemma {:induction false} TrimShrinks(s: string)
    ensures Size(TrimStart(s)) <= Size(s)
  {
    if s != "" && IsWhitespace(s[0]) { TrimShrinks(s[1..]); }
  }

  lemma DataShrinks(line: string)
    requires DataOf(line).Some?
    ensures Size(DataOf(line).value) < Size(line)
  {
    assert line == line[..5] + line[5..];
    SizeConcat(line[..5], line[5..]);
    TrimShrinks(line[5..]);
  }

  /** Bytes of the lines, each with a line break. */
  function Total(lines: seq<string>): nat {
    if lines == [] then 0 else Size(lines[0]) + 1 + Total(lines[1..])
  }

  lemma {:induction false} JoinSize(lines: seq<string>)
    requires lines != []
    ensures Size(Join(lines, '\n')) + 1 == Total(lines)
  {
    if |lines| > 1 {
      JoinSize(lines[1..]);
      SizeConcat(lines[0] + "\n", Join(lines[1..], '\n'));
      SizeConcat(lines[0], "\n");
    }
  }

  lemma {:induction false} DataTotal(lines: seq<string>)
    ensures Total(DataLines(lines)) <= Total(lines)
  {
    if lines != [] {
      DataTotal(lines[1..]);
      if DataOf(lines[0]).Some? {
        DataShrinks(lines[0]);
        assert DataLines(lines)[1..] == DataLines(lines[1..]);
      } else {
        assert DataLines(lines) == DataLines(lines[1..]);
      }
    }
  }

  lemma StripShrinks(s: string)
    ensures Size(StripReturn(s)) <= Size(s)
  {
    if s != "" {
      assert s == s[..|s| - 1] + s[|s| - 1..];
      SizeConcat(s[..|s| - 1], s[|s| - 1..]);
    }
  }

  lemma {:induction false} LinesTotal(s: string)
    ensures Total(Lines(s)) <= Size(s) + 1
    decreases |s|
  {
    var found := FindNewline(s);
    if found.Some? {
      var k := found.value;
      LinesTotal(s[k + 1..]);
      StripShrinks(s[..k]);
      assert s == s[..k] + "\n" + s[k + 1..];
      SizeConcat(s[..k] + "\n", s[k + 1..]);
      SizeConcat(s[..k], "\n");
    }
  }

  /** Event data is never larger than the event it came from. */
  lemma EventDataSize(raw: string)
    requires EventData(raw).Some?
    ensures Size(EventData(raw).value) <= Size(raw)
  {
    JoinSize(DataLines(Lines(raw)));
    DataTotal(Lines(raw));
    LinesTotal(raw);
  }

  // ---------------------------------------------------------------- the parser

  datatype Pushed = Pushed(events: seq<string>, buffer: string)

  /** What one push does: it fails exactly when the buffer and the chunk together are too large. */
  function Push(buffer: string, chunk: string): Option<Pushed> {
    if Size(buffer) + Size(chunk) > MAX_BYTES then None
    else Some(Pushed(Events(Raw(buffer + chunk)), Rest(buffer + chunk)))
  }

  class SseDataParser {
    var buffer: string

    constructor ()
      ensures buffer == ""
    {
      buffer := "";
    }

    /** The checks on one event's size never fire. */
    method PushChunk(chunk: string) returns (r: Option<seq<string>>)
      modifies this
      ensures r.None? <==> Push(old(buffer), chunk).None?
      ensures r.None? ==> buffer == old(buffer)
      ensures r.Some? ==> Push(old(buffer), chunk) == Some(Pushed(r.value, buffer))
    {
      if Size(buffer) + Size(chunk) > MAX_BYTES {
        return None;
      }
      ghost var input := buffer + chunk;
      SizeConcat(buffer, chunk);
      buffer := buffer + chunk;
      var events: seq<string> := [];
      var failed := false;
      assert [] + Events(Raw(input)) == Events(Raw(input));
      while !failed && FindDelimiter(buffer).Some?
        invariant !failed && Size(buffer) <= MAX_BYTES
        invariant Events(Raw(input)) == events + Events(Raw(buffer))
        invariant Rest(input) == Rest(buffer)
        decreases |buffer|
      {
        var k := FindDelimiter(buffer).value;
        ghost var before := buffer;
        SizeParts(before, k);
        var raw := buffer[..k];
        if Size(raw) > MAX_BYTES {
          failed := true;
        }
        buffer := buffer[k + 2..];
        var data := EventData(raw);
        EventsCons(raw, Raw(buffer), events);
        if data.Some? {
          EventDataSize(raw);
          if Size(data.value) > MAX_BYTES {
            failed := true;
          }
          events := events + [data.value];
        }
      }
      assert events + [] == events;
      r := if failed then None else Some(events);
    }
  }

  lemma SizeParts(s: string, k: nat)
    requires k + 2 <= |s|
    ensures Size(s[..k]) <= Size(s) && Size(s[k + 2..]) <= Size(s)
  {
    assert s == s[..k] + s[k..] && s[k..] == s[k..k + 2] + s[k + 2..];
    SizeConcat(s[..k], s[k..]);
    SizeConcat(s[k..k + 2], s[k + 2..]);
  }

  lemma EventsCons(raw: string, raws: seq<string>, before: seq<string>)
    ensures before + Events([raw] + raws) ==
            (if EventData(raw).Some? then before + [EventData(raw).value] else before) + Events(raws)
  {
    assert ([raw] + raws)[1..] == raws;
  }

  // ---------------------------------------------------------------- whole inputs

  function Concat(chunks: seq<string>): string {
    if chunks == [] then "" else chunks[0] + Concat(chunks[1..])
  }

  /** Push the chunks one after another; the first failure ends it. */
  function PushAll(buffer: string, chunks: seq<string>): Option<Pushed>
    decreases chunks
  {
    if chunks == [] then Some(Pushed([], buffer))
    else
      match Push(buffer, chunks[0])
      case None => None
      case Some(first) =>
        match PushAll(first.buffer, chunks[1..])
        case None => None
        case Some(later) => Some(Pushed(first.events + later.events, later.buffer))
  }

  /** The events and the remainder of a whole input. */
  function Parsed(s: string): Pushed {
    Pushed(Events(Raw(s)), Rest(s))
  }

  lemma PushAllStep(buffer: string, chunks: seq<string>)
    requires chunks != []
    ensures PushAll(buffer, chunks).None? <==>
            Push(buffer, chunks[0]).None? || PushAll(Rest(buffer + chunks[0]), chunks[1..]).None?
    ensures PushAll(buffer, chunks).Some? ==>
              var later := PushAll(Rest(buffer + chunks[0]), chunks[1..]).value;
              PushAll(buffer, chunks).value == Pushed(Events(Raw(buffer + chunks[0])) + later.events, later.buffer)
  {
  }

  /** However the input is cut into chunks, the events and the remaining buffer are those of the
      whole input. */
  lemma {:induction false} ChunkingIndependent(buffer: string, chunks: seq<string>)
    requires FindDelimiter(buffer) == None && PushAll(buffer, chunks).Some?
    ensures PushAll(buffer, chunks).value == Parsed(buffer + Concat(chunks))
    decreases chunks
  {
    if chunks == [] {
      assert buffer + "" == buffer;
    } else {
      var s, t := buffer + chunks[0], Concat(chunks[1..]);
      PushAllStep(buffer, chunks);
      SplitAssembles(s);
      ChunkingIndependent(Rest(s), chunks[1..]);
      ParsedResumes(s, t);
      ConcatCons(buffer, chunks);
    }
  }

  lemma ConcatCons(buffer: string, chunks: seq<string>)
    requires chunks != []
    ensures buffer + Concat(chunks) == (buffer + chunks[0]) + Concat(chunks[1..])
  {
  }

  lemma ParsedResumes(s: string, t: string)
    ensures Parsed(s + t) == Pushed(Events(Raw(s)) + Parsed(Rest(s) + t).events, Parsed(Rest(s) + t).buffer)
  {
    SplitResumes(s, t);
    EventsConcat(Raw(s), Raw(Rest(s) + t));
  }

  predicate Overflows(buffer: string, chunks: seq<string>, i: nat)
    requires i < |chunks|
  {
    Size(Rest(buffer + Concat(chunks[..i]))) + Size(chunks[i]) > MAX_BYTES
  }

  lemma OverflowsFirst(buffer: string, chunks: seq<string>)
    requires FindDelimiter(buffer) == None && chunks != []
    ensures Overflows(buffer, chunks, 0) <==> Push(buffer, chunks[0]).None?
  {
    assert chunks[..0] == [] && buffer + Concat([]) == buffer;
  }

  lemma OverflowsLater(buffer: string, chunks: seq<string>, i: nat)
    requires i + 1 < |chunks|
    ensures Overflows(Rest(buffer + chunks[0]), chunks[1..], i) <==> Overflows(buffer, chunks, i + 1)
  {
    var s, before := buffer + chunks[0], chunks[1..][..i];
    assert chunks[..i + 1] == [chunks[0]] + before;
    assert chunks[..i + 1][1..] == before;
    assert buffer + Concat(chunks[..i + 1]) == s + Concat(before);
    SplitResumes(s, Concat(before));
  }

  /** A run fails exactly when at some chunk the text left over from everything before it and the
      chunk itself are together too large. */
  lemma {:induction false} FailsIffTooLarge(buffer: string, chunks: seq<string>)
    requires FindDelimiter(buffer) == None
    ensures PushAll(buffer, chunks).None? <==> exists i :: 0 <= i < |chunks| && Overflows(buffer, chunks, i)
    decreases chunks
  {
    if chunks != [] {
      var left, rest := Rest(buffer + chunks[0]), chunks[1..];
      SplitAssembles(buffer + chunks[0]);
      PushAllStep(buffer, chunks);
      OverflowsFirst(buffer, chunks);
      FailsIffTooLarge(left, rest);
      forall i | 0 <= i < |rest| ensures Overflows(left, rest, i) <==> Overflows(buffer, chunks, i + 1) {
        OverflowsLater(buffer, chunks, i);
      }
      if i :| 0 <= i < |chunks| && Overflows(buffer, chunks, i) {
        if i > 0 { assert Overflows(left, rest, i - 1); }
      }
    }
  }

  /** Cutting a chunk in two never makes an accepted input fail, and changes nothing else. */
  lemma SplitChunkAccepted(buffer: string, a: string, b: string)
    requires FindDelimiter(buffer) == None && Push(buffer, a + b).Some?
    ensures PushAll(buffer, [a, b]) == Push(buffer, a + b)
  {
    SizeConcat(a, b);
    SizeConcat(buffer, a);
    RestShrinks(buffer + a);
    var first := Push(buffer, a).value;
    assert [a, b][1..] == [b] && [b][1..] == [];
    assert PushAll(first.buffer, [b]).Some?;
    ChunkingIndependent(buffer, [a, b]);
    assert Concat([b]) == b;
    assert Concat([a, b]) == a + b;
  }

  // ---------------------------------------------------------------- round trip

  /** A payload line that survives the wire. */
  predicate Plain(line: string) {
    line != "" && '\n' !in line && !IsWhitespace(line[0]) && line[|line| - 1] != '\r'
  }

  predicate Sendable(message: seq<string>) {
    message != [] && forall i :: 0 <= i < |message| ==> Plain(message[i])
  }

  function Field(line: string): string {
    "data: " + line
  }

  function Fields(message: seq<string>): seq<string> {
    if message == [] then [] else [Field(message[0])] + Fields(message[1..])
  }

  /** One event on the wire, without the blank line that ends it. */
  function Wire(message: seq<string>): string {
    Join(Fields(message), '\n')
  }

  function Wires(messages: seq<seq<string>>): seq<string> {
    if messages == [] then [] else [Wire(messages[0])] + Wires(messages[1..])
  }

  function Payloads(messages: seq<seq<string>>): seq<string> {
    if messages == [] then [] else [Join(messages[0], '\n')] + Payloads(messages[1..])
  }

  lemma {:induction false} NewlineAt(s: string, k: nat)
    requires k < |s| && s[k] == '\n' && '\n' !in s[..k]
    ensures FindNewline(s) == Some(k)
  {
    if k > 0 {
      assert s[..k][0] == s[0] && s[1..][..k - 1] == s[..k][1..];
      NewlineAt(s[1..], k - 1);
    }
  }

  /** A line that stays in one piece when lines are joined. */
  predicate Whole(line: string) {
    line != "" && '\n' !in line && line[|line| - 1] != '\r' && line[0] != '\n'
  }

  lemma {:induction false} LinesOfJoin(lines: seq<string>)
    requires lines != [] && forall i :: 0 <= i < |lines| ==> Whole(lines[i])
    ensures Lines(Join(lines, '\n')) == lines && Join(lines, '\n') != ""
    decreases lines
  {
    var first, s := lines[0], Join(lines, '\n');
    assert Whole(first);
    if |lines| > 1 {
      var later := Join(lines[1..], '\n');
      LinesOfJoin(lines[1..]);
      assert s[..|first|] == first && s[|first| + 1..] == later;
      NewlineAt(s, |first|);
    }
  }

  lemma {:induction false} FieldsCarry(message: seq<string>)
    requires forall i :: 0 <= i < |message| ==> Plain(message[i])
    ensures DataLines(Fields(message)) == message
  {
    if message != [] {
      var line := message[0];
      assert Plain(line);
      assert Field(line)[..5] == DATA;
      assert Field(line)[5..] == " " + line;
      assert (" " + line)[1..] == line;
      assert TrimStart(Field(line)[5..]) == line;
      FieldsCarry(message[1..]);
      assert Fields(message)[1..] == Fields(message[1..]);
    }
  }

  lemma {:induction false} NoBlankAhead(line: string, s: string)
    requires '\n' !in line && FindDelimiter(s) == None
    ensures FindDelimiter(line + s) == None
  {
    if line == "" {
      assert line + s == s;
    } else {
      assert (line + s)[0] == line[0] && (line + s)[1..] == line[1..] + s;
      NoBlankAhead(line[1..], s);
    }
  }

  lemma {:induction false} JoinUnbroken(lines: seq<string>)
    requires lines != [] && forall i :: 0 <= i < |lines| ==> Whole(lines[i])
    ensures Unbroken(Join(lines, '\n')) && Join(lines, '\n') != "" && Join(lines, '\n')[0] != '\n'
    decreases lines
  {
    var first := lines[0];
    assert Whole(first);
    if |lines| == 1 {
      NoBlankAhead(first, "\n");
    } else {
      JoinUnbroken(lines[1..]);
      var later := Join(lines[1..], '\n') + "\n";
      assert ("\n" + later)[1..] == later;
      NoBlankAhead(first, "\n" + later);
      assert Join(lines, '\n') + "\n" == first + ("\n" + later);
    }
  }

  lemma {:induction false} FieldsWhole(message: seq<string>)
    requires forall i :: 0 <= i < |message| ==> Plain(message[i])
    ensures |Fields(message)| == |message|
    ensures forall i :: 0 <= i < |message| ==> Whole(Fields(message)[i])
  {
    if message != [] {
      assert Plain(message[0]);
      FieldsWhole(message[1..]);
    }
  }

  lemma {:induction false} WiresCarry(messages: seq<seq<string>>)
    requires forall i :: 0 <= i < |messages| ==> Sendable(messages[i])
    ensures Events(Wires(messages)) == Payloads(messages)
    ensures forall i :: 0 <= i < |Wires(messages)| ==> Unbroken(Wires(messages)[i])
  {
    if messages != [] {
      WiresCarry(messages[1..]);
      FieldsWhole(messages[0]);
      LinesOfJoin(Fields(messages[0]));
      FieldsCarry(messages[0]);
      JoinUnbroken(Fields(messages[0]));
      assert Wires(messages)[1..] == Wires(messages[1..]);
    }
  }

  /** Sent messages come back, one event each and in order, however the bytes were cut up. */
  lemma RoundTrip(messages: seq<seq<string>>, chunks: seq<string>)
    requires forall i :: 0 <= i < |messages| ==> Sendable(messages[i])
    requires Concat(chunks) == Assemble(Wires(messages), "") && PushAll("", chunks).Some?
    ensures PushAll("", chunks) == Some(Pushed(Payloads(messages), ""))
  {
    WiresCarry(messages);
    SplitUnique(Wires(messages), "");
    ChunkingIndependent("", chunks);
    assert "" + Concat(chunks) == Concat(chunks);
  }
}
