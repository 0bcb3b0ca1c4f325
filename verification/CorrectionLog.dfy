/**
 The text of the correction log (benchmarks/human_correction.py,
 `CorrectionLog.record`): JSON lines appended under a lock, read back with
 `splitlines`. The text is the one a reader sees, after newline translation.
 */
module CorrectionLog {
  import opened Options
  import opened Stopwatch

  // ----- lines -----

  /** The line boundaries of `str.splitlines`; the carriage return is gone by
      newline translation. */
  predicate Boundary(c: char) {
    || c == '\n' || c == '\U{0b}' || c == '\U{0c}' || c == '\U{1c}' || c == '\U{1d}' || c == '\U{1e}'
    || Exotic(c)
  }

  /** The boundaries that JSON leaves as they are. */
  predicate Exotic(c: char) {
    c == '\U{85}' || c == '\U{2028}' || c == '\U{2029}'
  }

  predicate OneLine(s: string) {
    forall i :: 0 <= i < |s| ==> !Boundary(s[i])
  }

  /** The lines of a text with `c` before it: a boundary is an empty line of its own,
      any other character goes to the first line. */
  function Grow(c: char, lines: seq<string>): seq<string> {
    if Boundary(c) then [""] + lines
    else if lines == [] then [[c]]
    else [[c] + lines[0]] + lines[1..]
  }

  function SplitLines(t: string): seq<string> {
    if t == "" then [] else Grow(t[0], SplitLines(t[1..]))
  }

  lemma GrowJoins(c: char, x: seq<string>, y: seq<string>)
    requires Boundary(c) || x != []
    ensures Grow(c, x + y) == Grow(c, x) + y
  {
    if !Boundary(c) { assert (x + y)[0] == x[0] && (x + y)[1..] == x[1..] + y; }
  }

  /** Text that ends a line splits off from what follows. */
  lemma {:induction false} SplitAfterBoundary(a: string, b: string)
    requires a == "" || Boundary(a[|a| - 1])
    ensures SplitLines(a + b) == SplitLines(a) + SplitLines(b)
  {
    if a == "" {
      assert a + b == b;
    } else {
      assert (a + b)[1..] == a[1..] + b && (a + b)[0] == a[0];
      SplitAfterBoundary(a[1..], b);
      assert Boundary(a[0]) || a[1..] != "";
      GrowJoins(a[0], SplitLines(a[1..]), SplitLines(b));
    }
  }

  /** A newline after text ends its last line; if the text had ended one already
      with another boundary, the newline is a blank line of its own. */
  lemma {:induction false} NewlineCloses(t: string)
    requires t != ""
    ensures SplitLines(t + "\n") == SplitLines(t) + if Boundary(t[|t| - 1]) then [""] else []
  {
    assert (t + "\n")[1..] == t[1..] + "\n";
    if |t| == 1 {
      assert t[1..] + "\n" == "\n" && "\n"[1..] == "";
      assert SplitLines("\n") == [""] + SplitLines("");
      assert t == [t[0]] && [t[0]] + "" == [t[0]];
    } else {
      NewlineCloses(t[1..]);
      GrowJoins(t[0], SplitLines(t[1..]), if Boundary(t[|t| - 1]) then [""] else []);
    }
  }

  /** A text and its newline are one line exactly when it has no boundary. */
  lemma {:induction false} OneLineIsOne(line: string)
    ensures SplitLines(line + "\n") == [line] <==> OneLine(line)
    ensures |SplitLines(line + "\n")| >= 1
  {
    if line == "" {
      assert line + "\n" == "\n" && "\n"[1..] == "";
      assert SplitLines("\n") == [""] + SplitLines("");
    } else {
      var rest := line[1..];
      assert (line + "\n")[1..] == rest + "\n" && line == [line[0]] + rest;
      OneLineIsOne(rest);
      assert OneLine(line) <==> !Boundary(line[0]) && OneLine(rest);
      var x := SplitLines(rest + "\n");
      if Boundary(line[0]) {
        assert |SplitLines(line + "\n")| >= 2;
      } else {
        var y := SplitLines(line + "\n");
        assert y == [[line[0]] + x[0]] + x[1..];
        assert y[0] == [line[0]] + x[0] && |y| == |x|;
        assert x[0] == y[0][1..];
        assert y == [line] <==> x == [rest] by {
          if y == [line] { assert y[0] == line && x[0] == rest; }
          if x == [rest] { assert y[0] == line; }
        }
      }
    }
  }

  // ----- JSON -----

  type Fields = seq<(string, string)>

  function Hex(n: nat): char
    requires n < 16
  {
    "0123456789abcdef"[n]
  }

  /** `json.dumps(..., ensure_ascii=False)` of one character of a string. */
  function EscapeChar(c: char): string {
    if c == '"' then "\\\""
    else if c == '\\' then "\\\\"
    else if c == '\n' then "\\n"
    else if c == '\r' then "\\r"
    else if c == '\t' then "\\t"
    else if c == '\U{08}' then "\\b"
    else if c == '\U{0c}' then "\\f"
    else if c < ' ' then "\\u00" + [Hex(c as int / 16), Hex(c as int % 16)]
    else [c]
  }

  function Escape(s: string): string {
    if s == "" then "" else EscapeChar(s[0]) + Escape(s[1..])
  }

  function Member(f: (string, string)): string {
    ", \"" + Escape(f.0) + "\": \"" + Escape(f.1) + "\""
  }

  function Members(fs: Fields): string {
    if fs == [] then "" else Member(fs[0]) + Members(fs[1..])
  }

  /** The line that `record` writes. */
  function Dumps(fs: Fields): string {
    "{\"v\": 1" + Members(fs) + "}"
  }

  predicate Plain(s: string) {
    forall i :: 0 <= i < |s| ==> !Exotic(s[i])
  }

  predicate AllPlain(fs: Fields) {
    forall i :: 0 <= i < |fs| ==> Plain(fs[i].0) && Plain(fs[i].1)
  }

  lemma OneLineJoin(a: string, b: string)
    ensures OneLine(a + b) <==> OneLine(a) && OneLine(b)
  {
    if OneLine(a + b) {
      forall i | 0 <= i < |a| ensures !Boundary(a[i]) { assert (a + b)[i] == a[i]; }
      forall i | 0 <= i < |b| ensures !Boundary(b[i]) { assert (a + b)[|a| + i] == b[i]; }
    }
  }

  lemma EscapedCharIsOneLine(c: char)
    ensures OneLine(EscapeChar(c)) <==> !Exotic(c)
  {
    assert Exotic(c) ==> EscapeChar(c)[0] == c;
    assert forall n: nat :: n < 16 ==> !Boundary(Hex(n));
  }

  lemma {:induction false} EscapedIsOneLine(s: string)
    ensures OneLine(Escape(s)) <==> Plain(s)
  {
    if s != "" {
      EscapedCharIsOneLine(s[0]);
      EscapedIsOneLine(s[1..]);
      OneLineJoin(EscapeChar(s[0]), Escape(s[1..]));
      PlainFirst(s);
    }
  }

  lemma PlainFirst(s: string)
    requires s != ""
    ensures Plain(s) <==> !Exotic(s[0]) && Plain(s[1..])
  {
    assert forall i :: 0 < i < |s| ==> s[i] == s[1..][i - 1];
  }

  lemma MemberIsOneLine(f: (string, string))
    ensures OneLine(Member(f)) <==> Plain(f.0) && Plain(f.1)
  {
    var a, k, b, v, c := ", \"", Escape(f.0), "\": \"", Escape(f.1), "\"";
    EscapedIsOneLine(f.0);
    EscapedIsOneLine(f.1);
    OneLineJoin(a, k);
    OneLineJoin(a + k, b);
    OneLineJoin(a + k + b, v);
    OneLineJoin(a + k + b + v, c);
  }

  lemma {:induction false} MembersAreOneLine(fs: Fields)
    ensures OneLine(Members(fs)) <==> AllPlain(fs)
  {
    if fs != [] {
      MemberIsOneLine(fs[0]);
      MembersAreOneLine(fs[1..]);
      OneLineJoin(Member(fs[0]), Members(fs[1..]));
      assert fs == [fs[0]] + fs[1..];
    }
  }

  /** What is written is one line exactly when no name holds one of the three
      boundaries that JSON does not escape. */
  lemma DumpsIsOneLine(fs: Fields)
    ensures OneLine(Dumps(fs)) <==> AllPlain(fs)
    ensures !Blank(Dumps(fs))
  {
    var head, members := "{\"v\": 1", Members(fs);
    MembersAreOneLine(fs);
    OneLineJoin(head, members);
    OneLineJoin(head + members, "}");
    StartsWithBrace(fs);
  }

  lemma StartsWithBrace(fs: Fields)
    ensures |Dumps(fs)| > 0 && Dumps(fs)[0] == '{' && !Blank(Dumps(fs))
  {
    assert !IsSpace('{') && Dumps(fs)[0] == '{';
  }

  // ----- reading JSON back -----

  function HexValue(c: char): Option<nat> {
    if '0' <= c <= '9' then Some(c as int - '0' as int)
    else if 'a' <= c <= 'f' then Some(10 + (c as int - 'a' as int))
    else None
  }

  /** What one escape stands for, of those in section 7 of RFC 8259: the character, and how
      long the escape is. Of the numbered ones, those below U+0100. */
  function Unescaped(t: string): Option<(char, nat)> {
    if |t| < 2 || t[0] != '\\' then None
    else match t[1]
      case '"' => Some(('"', 2))
      case '\\' => Some(('\\', 2))
      case '/' => Some(('/', 2))
      case 'b' => Some(('\U{08}', 2))
      case 'f' => Some(('\U{0c}', 2))
      case 'n' => Some(('\n', 2))
      case 'r' => Some(('\r', 2))
      case 't' => Some(('\t', 2))
      case 'u' =>
        if |t| < 6 || t[2] != '0' || t[3] != '0' || HexValue(t[4]).None? || HexValue(t[5]).None? then None
        else Some(((HexValue(t[4]).value * 16 + HexValue(t[5]).value) as char, 6))
      case _ => None
  }

  /** A JSON string, after its opening quote: its text, and what follows its closing quote. */
  function ReadString(t: string, text: string): Option<(string, string)>
    decreases |t|
  {
    if t == "" then None
    else if t[0] == '"' then Some((text, t[1..]))
    else if t[0] == '\\' then
      var u := Unescaped(t);
      if u.None? then None else ReadString(t[u.value.1..], text + [u.value.0])
    else if t[0] < ' ' then None
    else ReadString(t[1..], text + [t[0]])
  }

  lemma ReadsChar(c: char, more: string, text: string)
    ensures ReadString(EscapeChar(c) + more, text) == ReadString(more, text + [c])
  {
    var e := EscapeChar(c);
    var t := e + more;
    assert t[|e|..] == more;
    if c < ' ' && |e| == 6 { HexReads(c as int); }
  }

  lemma HexReads(n: nat)
    requires n < 32
    ensures HexValue(Hex(n / 16)) == Some(n / 16) && HexValue(Hex(n % 16)) == Some(n % 16)
  {
  }

  /** Whatever the text, it is read back from its escaped form, up to the closing quote. */
  lemma {:induction false} ReadsString(s: string, more: string, text: string)
    ensures ReadString(Escape(s) + ("\"" + more), text) == Some((text + s, more))
  {
    var tail := "\"" + more;
    if s == "" {
      assert Escape(s) + tail == tail && tail[1..] == more && text + s == text;
    } else {
      assert Escape(s) + tail == EscapeChar(s[0]) + (Escape(s[1..]) + tail);
      ReadsChar(s[0], Escape(s[1..]) + tail, text);
      ReadsString(s[1..], more, text + [s[0]]);
      assert (text + [s[0]]) + s[1..] == text + s;
    }
  }

  /** The members of an object after its first one, each a string. */
  function ReadMembers(t: string): Option<Fields>
    decreases |t|
  {
    if t == "}" then Some([])
    else if |t| < 3 || t[..3] != ", \"" then None
    else
      ReadShrinks(t[3..], "");
      var k := ReadString(t[3..], "");
      if k.None? || |k.value.1| < 3 || k.value.1[..3] != ": \"" then None
      else
        ReadShrinks(k.value.1[3..], "");
        var v := ReadString(k.value.1[3..], "");
        if v.None? then None
        else
          var rest := ReadMembers(v.value.1);
          if rest.None? then None else Some([(k.value.0, v.value.0)] + rest.value)
  }

  lemma {:induction false} ReadShrinks(t: string, text: string)
    ensures ReadString(t, text).Some? ==> |ReadString(t, text).value.1| < |t|
    decreases |t|
  {
    if t != "" && t[0] != '"' {
      if t[0] == '\\' {
        var u := Unescaped(t);
        if u.Some? { ReadShrinks(t[u.value.1..], text + [u.value.0]); }
      } else {
        ReadShrinks(t[1..], text + [t[0]]);
      }
    }
  }

  /** One member is read if its two strings are. */
  lemma ReadsOne(t: string, key: string, mid: string, value: string, end: string, fs: Fields)
    requires |t| >= 3 && t[..3] == ", \"" && ReadString(t[3..], "") == Some((key, mid))
    requires |mid| >= 3 && mid[..3] == ": \"" && ReadString(mid[3..], "") == Some((value, end))
    requires ReadMembers(end) == Some(fs)
    ensures ReadMembers(t) == Some([(key, value)] + fs)
  {
    assert t != "}";
  }

  lemma MemberParts(k: string, v: string, more: string)
    ensures var mid := ": \"" + (v + ("\"" + more));
            var t := (", \"" + k + "\": \"" + v + "\"") + more;
            && |t| >= 3 && t[..3] == ", \"" && t[3..] == k + ("\"" + mid)
            && |mid| >= 3 && mid[..3] == ": \"" && mid[3..] == v + ("\"" + more)
  {
  }

  lemma {:induction false} ReadsMembers(fs: Fields)
    ensures ReadMembers(Members(fs) + "}") == Some(fs)
  {
    MembersEnd(fs);
    if fs != [] {
      ReadsMembers(fs[1..]);
      ReadsMember(fs[0], Members(fs[1..]) + "}", fs[1..]);
    }
  }

  lemma MembersEnd(fs: Fields)
    ensures Members(fs) + "}" == if fs == [] then "}" else Member(fs[0]) + (Members(fs[1..]) + "}")
    ensures fs != [] ==> [fs[0]] + fs[1..] == fs
  {
  }

  lemma ReadsMember(f: (string, string), more: string, fs: Fields)
    requires ReadMembers(more) == Some(fs)
    ensures ReadMembers(Member(f) + more) == Some([f] + fs)
  {
    var k, v := Escape(f.0), Escape(f.1);
    var mid := ": \"" + (v + ("\"" + more));
    MemberParts(k, v, more);
    ReadsString(f.0, mid, "");
    ReadsString(f.1, more, "");
    assert "" + f.0 == f.0 && "" + f.1 == f.1;
    ReadsOne(Member(f) + more, f.0, mid, f.1, more, fs);
  }

  /** What `record` writes is JSON, and reads back as exactly the fields given. */
  lemma DumpsReadsBack(fs: Fields)
    ensures |Dumps(fs)| >= 7 && Dumps(fs)[..7] == "{\"v\": 1" && ReadMembers(Dumps(fs)[7..]) == Some(fs)
  {
    ReadsMembers(fs);
    assert Dumps(fs)[7..] == Members(fs) + "}";
  }

  // ----- recording -----

  /** How JSON is read, and the other form of a document: `json.dumps` with
      every non-ASCII character escaped, which is what is validated. */
  datatype Codec = Codec(decode: string -> Option<Event>, ascii: Fields -> string)

  /** The two forms are the same document. */
  ghost predicate Faithful(codec: Codec) {
    forall fs :: !Blank(codec.ascii(fs)) && codec.decode(codec.ascii(fs)) == codec.decode(Dumps(fs))
  }

  /** The replay that validates a new event against the log. */
  function Validated(text: string, fs: Fields, codec: Codec): Result<Log, Refusal> {
    Replayed(SplitLines(text) + [codec.ascii(fs)], codec.decode)
  }

  function Separator(text: string): string {
    if text != "" && text[|text| - 1] != '\n' then "\n" else ""
  }

  function Appended(text: string, fs: Fields): string {
    (text + Separator(text)) + (Dumps(fs) + "\n")
  }

  /** The file; `record` runs under its exclusive lock. */
  class LogFile {
    var text: string

    constructor (text: string)
      ensures this.text == text
    {
      this.text := text;
    }

    method Record(fs: Fields, codec: Codec) returns (r: Result<Log, Refusal>)
      modifies this
      ensures r == Validated(old(text), fs, codec)
      ensures text == if r.Ok? then Appended(old(text), fs) else old(text)
    {
      r := ReplayLines(SplitLines(text) + [codec.ascii(fs)], codec.decode);
      if r.Ok? {
        var separator := if text != "" && text[|text| - 1] != '\n' then "\n" else "";
        text := (text + separator) + (Dumps(fs) + "\n");
      }
    }
  }

  /** A blank line appears only where the old text ended with another boundary. */
  function Padding(text: string): seq<string> {
    if text != "" && text[|text| - 1] != '\n' && Boundary(text[|text| - 1]) then [""] else []
  }

  lemma ClosedLines(text: string)
    ensures var closed := text + Separator(text);
            && (closed == "" || Boundary(closed[|closed| - 1]))
            && SplitLines(closed) == SplitLines(text) + Padding(text)
  {
    if Separator(text) != "" {
      NewlineCloses(text);
    } else {
      assert text + Separator(text) == text;
    }
  }

  lemma LinesAfter(closed: string, line: string)
    requires closed == "" || Boundary(closed[|closed| - 1])
    ensures SplitLines(closed + (line + "\n")) == SplitLines(closed) + [line] <==> OneLine(line)
  {
    OneLineIsOne(line);
    SplitAfterBoundary(closed, line + "\n");
    var x, y := SplitLines(closed), SplitLines(line + "\n");
    if x + y == x + [line] { assert y == (x + y)[|x|..] == [line]; }
  }

  /** After an append the text splits into the old lines and exactly one new one
      if and only if the names are free of the three exotic boundaries. */
  lemma AppendAddsOneLine(text: string, fs: Fields)
    ensures SplitLines(Appended(text, fs)) == SplitLines(text) + Padding(text) + [Dumps(fs)] <==> AllPlain(fs)
  {
    ClosedLines(text);
    DumpsIsOneLine(fs);
    LinesAfter(text + Separator(text), Dumps(fs));
  }

  lemma {:induction false} ReplayAppend(a: seq<string>, b: seq<string>, more: seq<string>, decode: string -> Option<Event>)
    requires Replayed(a, decode) == Replayed(b, decode)
    ensures Replayed(a + more, decode) == Replayed(b + more, decode)
  {
    if more == [] {
      assert a + more == a && b + more == b;
    } else {
      var init := more[..|more| - 1];
      ReplayAppend(a, b, init, decode);
      assert (a + more)[..|a + more| - 1] == a + init && (b + more)[..|b + more| - 1] == b + init;
    }
  }

  /** What a reader gets after an accepted append is what validating it gave. */
  lemma AppendReplays(text: string, fs: Fields, codec: Codec)
    requires Faithful(codec) && AllPlain(fs)
    ensures Replayed(SplitLines(Appended(text, fs)), codec.decode) == Validated(text, fs, codec)
  {
    AppendAddsOneLine(text, fs);
    var lines, pad, decode := SplitLines(text), Padding(text), codec.decode;
    assert Replayed(lines + pad, decode) == Replayed(lines, decode) by {
      if pad == [] { assert lines + pad == lines; } else { assert (lines + pad)[..|lines|] == lines; }
    }
    ReplayAppend(lines + pad, lines, [Dumps(fs)], decode);
    SameDocument(lines, fs, codec);
  }

  /** The validated form and the written form replay alike. */
  lemma SameDocument(lines: seq<string>, fs: Fields, codec: Codec)
    requires Faithful(codec)
    ensures Replayed(lines + [Dumps(fs)], codec.decode) == Replayed(lines + [codec.ascii(fs)], codec.decode)
  {
    DumpsIsOneLine(fs);
    assert (lines + [Dumps(fs)])[..|lines|] == lines;
    assert (lines + [codec.ascii(fs)])[..|lines|] == lines;
  }

  /** Any number of `record` calls, each accepted; `None` if one is refused. */
  function RecordAll(text: string, batch: seq<Fields>, codec: Codec): Option<string> {
    if batch == [] then Some(text)
    else
      var n := |batch| - 1;
      var before := RecordAll(text, batch[..n], codec);
      if before.None? || Validated(before.value, batch[n], codec).Err? then None
      else Some(Appended(before.value, batch[n]))
  }

  function Dumped(batch: seq<Fields>): seq<string> {
    if batch == [] then [] else Dumped(batch[..|batch| - 1]) + [Dumps(batch[|batch| - 1])]
  }

  /** A log that replays still replays after any accepted records, to exactly what
      the old lines followed by the new ones replay to. */
  lemma {:induction false} RecordsReplay(text: string, batch: seq<Fields>, codec: Codec)
    requires Faithful(codec) && Replayed(SplitLines(text), codec.decode).Ok?
    requires forall i :: 0 <= i < |batch| ==> AllPlain(batch[i])
    requires RecordAll(text, batch, codec).Some?
    ensures var t := RecordAll(text, batch, codec).value;
            && Replayed(SplitLines(t), codec.decode).Ok?
            && Replayed(SplitLines(t), codec.decode) == Replayed(SplitLines(text) + Dumped(batch), codec.decode)
    decreases |batch|
  {
    var lines := SplitLines(text);
    if batch == [] {
      assert lines + Dumped(batch) == lines;
    } else {
      var n := |batch| - 1;
      var before, last := RecordAll(text, batch[..n], codec).value, batch[n];
      RecordsReplay(text, batch[..n], codec);
      AppendReplays(before, last, codec);
      SameDocument(SplitLines(before), last, codec);
      ReplayAppend(SplitLines(before), lines + Dumped(batch[..n]), [Dumps(last)], codec.decode);
      JoinLines(lines, Dumped(batch[..n]), [Dumps(last)]);
    }
  }

  lemma JoinLines(a: seq<string>, b: seq<string>, c: seq<string>)
    ensures (a + b) + [] + c == (a + b) + c == a + (b + c)
  {
  }

  /** After any accepted records the text splits into the old lines, at most one blank
      line, and the new lines; and what a later reader replays is what validating the
      last of them returned. */
  lemma {:induction false} RecordsSplit(text: string, batch: seq<Fields>, codec: Codec) returns (before: string)
    requires Faithful(codec) && batch != [] && RecordAll(text, batch, codec).Some?
    requires forall i :: 0 <= i < |batch| ==> AllPlain(batch[i])
    ensures var t := RecordAll(text, batch, codec).value;
            && SplitLines(t) == SplitLines(text) + Padding(text) + Dumped(batch) && Padding(t) == []
            && RecordAll(text, batch[..|batch| - 1], codec) == Some(before)
            && Replayed(SplitLines(t), codec.decode) == Validated(before, batch[|batch| - 1], codec)
    decreases |batch|
  {
    var n := |batch| - 1;
    var lines, last := SplitLines(text) + Padding(text), batch[n];
    before := RecordAll(text, batch[..n], codec).value;
    OneRecord(before, last, codec);
    if n > 0 {
      var _ := RecordsSplit(text, batch[..n], codec);
      JoinLines(lines, Dumped(batch[..n]), [Dumps(last)]);
    } else {
      assert batch[..n] == [] && before == text;
      assert Dumped(batch) == [] + [Dumps(last)] == [Dumps(last)];
    }
  }

  lemma OneRecord(text: string, fs: Fields, codec: Codec)
    requires Faithful(codec) && AllPlain(fs)
    ensures var t := Appended(text, fs);
            && SplitLines(t) == SplitLines(text) + Padding(text) + [Dumps(fs)] && Padding(t) == []
            && Replayed(SplitLines(t), codec.decode) == Validated(text, fs, codec)
  {
    AppendAddsOneLine(text, fs);
    AppendReplays(text, fs, codec);
    var t := Appended(text, fs);
    assert t[|t| - 1] == '\n';
  }

  /** Reading more lines. */
  function GoOn(r: Result<Log, Refusal>, lines: seq<string>, decode: string -> Option<Event>): Result<Log, Refusal>
    decreases |lines|
  {
    if lines == [] || r.Err? then r else GoOn(Line(r.value, lines[0], decode), lines[1..], decode)
  }

  lemma {:induction false} ReplayGoesOn(a: seq<string>, b: seq<string>, decode: string -> Option<Event>)
    ensures Replayed(a + b, decode) == GoOn(Replayed(a, decode), b, decode)
    decreases |b|
  {
    if b == [] {
      assert a + b == a;
    } else {
      assert a + b == (a + [b[0]]) + b[1..];
      assert (a + [b[0]])[..|a|] == a;
      ReplayGoesOn(a + [b[0]], b[1..], decode);
    }
  }

  // ----- a name with a boundary in it -----

  /** No proper beginning of a written JSON object is a JSON document. */
  ghost predicate PrefixFree(codec: Codec) {
    forall fs: Fields, n: nat :: n < |Dumps(fs)| ==> codec.decode(Dumps(fs)[..n]) == None
  }

  /** The first line of a text is what comes before its first boundary. */
  lemma {:induction false} FirstLine(t: string) returns (n: nat)
    requires !OneLine(t)
    ensures n < |t| && Boundary(t[n]) && OneLine(t[..n])
    ensures SplitLines(t + "\n") != [] && SplitLines(t + "\n")[0] == t[..n]
  {
    assert (t + "\n")[1..] == t[1..] + "\n" && (t + "\n")[0] == t[0];
    if Boundary(t[0]) {
      n := 0;
    } else {
      var m := FirstLine(t[1..]);
      n := m + 1;
      assert t[..n] == [t[0]] + t[1..][..m];
    }
  }

  /** What the names leave behind in the log if they hold one of the three boundaries:
      a first line that is the beginning of the record and not blank. */
  lemma ExoticFirstLine(fs: Fields) returns (n: nat)
    requires !AllPlain(fs)
    ensures n < |Dumps(fs)| && SplitLines(Dumps(fs) + "\n") != []
    ensures SplitLines(Dumps(fs) + "\n")[0] == Dumps(fs)[..n] && !Blank(Dumps(fs)[..n])
  {
    DumpsIsOneLine(fs);
    n := FirstLine(Dumps(fs));
    assert Dumps(fs)[0] == '{' && !Boundary('{') && !IsSpace('{');
    assert Dumps(fs)[..n][0] == '{';
  }

  /** Written behind any text, such a record leaves a log that no reader accepts, for
      every JSON decoder. */
  lemma ExoticNameBreaksLog(text: string, fs: Fields, codec: Codec)
    requires PrefixFree(codec) && !AllPlain(fs)
    ensures Replayed(SplitLines(Appended(text, fs)), codec.decode).Err?
  {
    var closed, more := text + Separator(text), SplitLines(Dumps(fs) + "\n");
    ClosedLines(text);
    SplitAfterBoundary(closed, Dumps(fs) + "\n");
    var n := ExoticFirstLine(fs);
    ReplayGoesOn(SplitLines(closed), more, codec.decode);
  }

  /** Of the records that `record` accepts and writes, exactly those whose names are free
      of the three boundaries leave a log that replays. */
  lemma AcceptedReplaysIff(text: string, fs: Fields, codec: Codec)
    requires Faithful(codec) && PrefixFree(codec) && Validated(text, fs, codec).Ok?
    ensures Replayed(SplitLines(Appended(text, fs)), codec.decode).Ok? <==> AllPlain(fs)
  {
    if AllPlain(fs) { AppendReplays(text, fs, codec); } else { ExoticNameBreaksLog(text, fs, codec); }
  }

  /** And accepting does not depend on it: the task "a", U+2028, "b" has a valid name, and
      an event that starts its session is accepted into an empty log. */
  lemma ExoticNameIsAccepted(fs: Fields, codec: Codec, at: int)
    requires Faithful(codec)
    requires codec.decode(Dumps(fs)) == Some(StartOf("m", "a\U{2028}b", "r", at))
    ensures !Plain("a\U{2028}b") && Validated("", fs, codec).Ok?
  {
    var name := "a\U{2028}b";
    assert name[1] == '\U{2028}' && name[0] == 'a' && "m"[0] == 'm' && "r"[0] == 'r';
    assert Take(Log(map[], None), StartOf("m", name, "r", at)).Ok?;
    var line := codec.ascii(fs);
    assert codec.decode(line) == Some(StartOf("m", name, "r", at)) && !Blank(line);
    assert SplitLines("") + [line] == [line] && [line][..0] == [];
    assert Replayed([line], codec.decode) == Line(Log(map[], None), line, codec.decode);
  }

  function StartOf(model: string, task: string, run: string, at: int): Event {
    Event(Start, Some(SessionId(model, task, run)), at, Some(task), Some(model), Some(run))
  }
}
