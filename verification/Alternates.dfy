/**
 git's colon-separated list of object directories, with C-style quoted entries
 (apps/backend/deploy/sandbox/paw_git_front.py: `_alternates`, `_find`, `_unquote`).

 Paths are bytes to git, so the list is a sequence of bytes here.
 */
module Alternates {
  import opened Options

  type Byte = b: int | 0 <= b < 256
  type Bytes = seq<Byte>

  const NUL: Byte := 0
  const QUOTE: Byte := 34
  const HASH: Byte := 35
  const COLON: Byte := 58
  const BACKSLASH: Byte := 92

  // ----- the code -----

  /** `C_ESCAPES`: the byte a letter after a backslash stands for. */
  function Escaped(letter: Byte): Option<Byte> {
    match letter
    case 97 => Some(7)     // a
    case 98 => Some(8)     // b
    case 102 => Some(12)   // f
    case 110 => Some(10)   // n
    case 114 => Some(13)   // r
    case 116 => Some(9)    // t
    case 118 => Some(11)   // v
    case 92 => Some(92)
    case 34 => Some(34)
    case _ => None
  }

  predicate Digit(d: Byte) {
    48 <= d <= 55
  }

  function UpTo(s: Bytes, stop: Byte): Bytes {
    if s == [] || s[0] == stop then [] else [s[0]] + UpTo(s[1..], stop)
  }

  lemma {:induction false} UpToIs(s: Bytes, stop: Byte)
    ensures var n := |UpTo(s, stop)|;
            n <= |s| && UpTo(s, stop) == s[..n] && stop !in s[..n] && (n < |s| ==> s[n] == stop)
  {
    if s != [] && s[0] != stop { UpToIs(s[1..], stop); }
  }

  /** Inside a quoted path, `out` decoded so far: the path and what follows its
      closing quote, or `None` where it is not quoted correctly. */
  function Unquote(s: Bytes, out: Bytes): Option<(Bytes, Bytes)> {
    if s == [] then None
    else if s[0] == QUOTE then Some((UpTo(out, NUL), s[1..]))
    else if s[0] != BACKSLASH then Unquote(s[1..], out + [s[0]])
    else if |s| < 2 then None
    else if Escaped(s[1]).Some? then Unquote(s[2..], out + [Escaped(s[1]).value])
    else if 48 <= s[1] <= 51 && |s| >= 4 && Digit(s[2]) && Digit(s[3]) then
      Unquote(s[4..], out + [(s[1] - 48) * 64 + (s[2] - 48) * 8 + (s[3] - 48)])
    else None
  }

  lemma {:induction false} UnquoteShrinks(s: Bytes, out: Bytes)
    requires Unquote(s, out).Some?
    ensures var r := Unquote(s, out).value.1; |r| < |s| && r == s[|s| - |r|..]
  {
    if s[0] == QUOTE {
    } else if s[0] != BACKSLASH {
      UnquoteShrinks(s[1..], out + [s[0]]);
    } else if Escaped(s[1]).Some? {
      UnquoteShrinks(s[2..], out + [Escaped(s[1]).value]);
    } else {
      UnquoteShrinks(s[4..], out + [(s[1] - 48) * 64 + (s[2] - 48) * 8 + (s[3] - 48)]);
    }
  }

  /** The first entry (empty for a comment) and what follows it. */
  function Entry(s: Bytes): (Bytes, Bytes)
    requires s != []
  {
    var plain := UpTo(s, COLON);
    UpToIs(s, COLON);
    if s[0] == HASH then ([], s[|plain|..])
    else if s[0] == QUOTE && Unquote(s[1..], []).Some? then Unquote(s[1..], []).value
    else (plain, s[|plain|..])
  }

  lemma EntryShrinks(s: Bytes)
    requires s != []
    ensures var r := Entry(s).1; |r| <= |s| && r == s[|s| - |r|..]
  {
    UpToIs(s, COLON);
    if s[0] == QUOTE && Unquote(s[1..], []).Some? { UnquoteShrinks(s[1..], []); }
  }

  /** One byte after the entry, the separator, is skipped. */
  function Rest(s: Bytes): Bytes
    requires s != []
  {
    var r := Entry(s).1;
    if r == [] then [] else r[1..]
  }

  function Entries(s: Bytes): seq<Bytes>
    decreases |s|
  {
    if s == [] then []
    else
      EntryShrinks(s);
      (if Entry(s).0 == [] then [] else [Entry(s).0]) + Entries(Rest(s))
  }

  /** `_find`. */
  method Find(value: Bytes, b: Byte, start: nat) returns (found: nat)
    requires start <= |value|
    ensures start <= found <= |value| && value[start..found] == UpTo(value[start..], b)
    ensures found == start + |UpTo(value[start..], b)|
  {
    found := start;
    while found < |value| && value[found] != b
      invariant start <= found <= |value|
      invariant |UpTo(value[start..], b)| == found - start + |UpTo(value[found..], b)|
    {
      assert value[found..][1..] == value[found + 1..];
      found := found + 1;
    }
    UpToIs(value[start..], b);
    assert value[start..][..found - start] == value[start..found];
  }

  /** `_unquote`: the path and the index after the closing quote. */
  method UnquoteAt(value: Bytes, at: nat) returns (r: Option<(Bytes, nat)>)
    requires at < |value|
    ensures r.Some? <==> Unquote(value[at + 1..], []).Some?
    ensures r.Some? ==> at < r.value.1 <= |value|
                        && Unquote(value[at + 1..], []) == Some((r.value.0, value[r.value.1..]))
  {
    var out: Bytes := [];
    var i := at + 1;
    while i < |value|
      invariant at < i <= |value|
      invariant Unquote(value[i..], out) == Unquote(value[at + 1..], [])
      decreases |value| - i
    {
      ghost var s := value[i..];
      var character := value[i];
      i := i + 1;
      assert s[1..] == value[i..];
      if character == QUOTE {
        return Some((UpTo(out, NUL), i));
      }
      if character != BACKSLASH {
        out := out + [character];
        continue;
      }
      if i >= |value| {
        return None;
      }
      var escape := value[i];
      i := i + 1;
      assert s[1] == escape && s[2..] == value[i..];
      if Escaped(escape).Some? {
        out := out + [Escaped(escape).value];
      } else if 48 <= escape <= 51 && i + 2 <= |value| && Digit(value[i]) && Digit(value[i + 1]) {
        assert s[2] == value[i] && s[3] == value[i + 1] && s[4..] == value[i + 2..];
        out := out + [(escape - 48) * 64 + (value[i] - 48) * 8 + (value[i + 1] - 48)];
        i := i + 2;
      } else {
        assert |s| >= 4 ==> s[2] == value[i] && s[3] == value[i + 1];
        return None;
      }
    }
    return None;
  }

  /** One turn of the scan: the entry at `at` and where it ends. */
  method ReadEntry(value: Bytes, at: nat) returns (entry: Bytes, end: nat)
    requires at < |value|
    ensures at <= end <= |value| && Entry(value[at..]) == (entry, value[end..])
  {
    ghost var s := value[at..];
    UpToIs(s, COLON);
    if value[at] == HASH {
      end := Find(value, COLON, at);
      assert s[end - at..] == value[end..];
      return [], end;
    }
    var unquoted := None;
    if value[at] == QUOTE {
      assert s[1..] == value[at + 1..];
      unquoted := UnquoteAt(value, at);
    }
    if unquoted.Some? {
      return unquoted.value.0, unquoted.value.1;
    }
    end := Find(value, COLON, at);
    assert s[end - at..] == value[end..];
    entry := value[at..end];
  }

  /** What is left from index `at` on, which may be one past the end. */
  ghost function From(value: Bytes, at: nat): Bytes {
    if at <= |value| then value[at..] else []
  }

  lemma NextTurn(value: Bytes, at: nat, entries: seq<Bytes>, entry: Bytes, end: nat)
    requires at < |value| && at <= end <= |value| && Entry(value[at..]) == (entry, value[end..])
    ensures (if entry == [] then entries else entries + [entry]) + Entries(From(value, end + 1))
            == entries + Entries(From(value, at))
  {
    RestIs(value, at, entry, end);
    JoinEntries(entries, entry, Entries(From(value, end + 1)));
  }

  lemma RestIs(value: Bytes, at: nat, entry: Bytes, end: nat)
    requires at < |value| && at <= end <= |value| && Entry(value[at..]) == (entry, value[end..])
    ensures Entries(From(value, at)) == (if entry == [] then [] else [entry]) + Entries(From(value, end + 1))
  {
    assert Rest(value[at..]) == From(value, end + 1);
  }

  lemma JoinEntries(entries: seq<Bytes>, entry: Bytes, rest: seq<Bytes>)
    ensures (if entry == [] then entries else entries + [entry]) + rest
            == entries + ((if entry == [] then [] else [entry]) + rest)
  {
  }

  /** `_alternates`. Every turn advances, on every input. */
  method Parse(value: Bytes) returns (entries: seq<Bytes>)
    ensures entries == Entries(value)
  {
    entries := [];
    var at := 0;
    ghost var left := Entries(value);
    ghost var all := left;
    assert From(value, 0) == value;
    while at < |value|
      invariant left == Entries(From(value, at)) && entries + left == all
      decreases |value| - at
    {
      var entry, end := ReadEntry(value, at);
      NextTurn(value, at, entries, entry, end);
      if entry != [] {
        entries := entries + [entry];
      }
      at := end + 1;
      left := Entries(From(value, at));
    }
    assert left == [];
  }

  // ----- writing such a list -----

  /** How one byte of a quoted path is written. */
  datatype Style = Raw | Letter | Octal

  function LetterFor(b: Byte): Option<Byte> {
    match b
    case 7 => Some(97)
    case 8 => Some(98)
    case 12 => Some(102)
    case 10 => Some(110)
    case 13 => Some(114)
    case 9 => Some(116)
    case 11 => Some(118)
    case 92 => Some(92)
    case 34 => Some(34)
    case _ => None
  }

  predicate Fits(b: Byte, style: Style) {
    match style
    case Raw => b != QUOTE && b != BACKSLASH
    case Letter => LetterFor(b).Some?
    case Octal => true
  }

  function Encode(b: Byte, style: Style): Bytes
    requires Fits(b, style)
  {
    match style
    case Raw => [b]
    case Letter => [BACKSLASH, LetterFor(b).value]
    case Octal => [BACKSLASH, 48 + b / 64, 48 + b / 8 % 8, 48 + b % 8]
  }

  predicate AllFit(p: Bytes, styles: seq<Style>) {
    |styles| == |p| && forall i :: 0 <= i < |p| ==> Fits(p[i], styles[i])
  }

  function EncodeAll(p: Bytes, styles: seq<Style>): Bytes
    requires AllFit(p, styles)
  {
    if p == [] then [] else Encode(p[0], styles[0]) + EncodeAll(p[1..], styles[1..])
  }

  /** An entry of a list: a path as it is, a quoted path, or a comment. */
  datatype Item =
    | Plain(path: Bytes)
    | Quoted(path: Bytes, styles: seq<Style>)
    | Comment(text: Bytes)

  predicate Writable(it: Item) {
    match it
    case Plain(p) => COLON !in p && (p != [] ==> p[0] != QUOTE && p[0] != HASH)
    case Quoted(p, styles) => AllFit(p, styles) && NUL !in p
    case Comment(t) => COLON !in t && t != [] && t[0] == HASH
  }

  function Render(it: Item): Bytes
    requires Writable(it)
  {
    match it
    case Plain(p) => p
    case Quoted(p, styles) => [QUOTE] + EncodeAll(p, styles) + [QUOTE]
    case Comment(t) => t
  }

  function Join(items: seq<Item>): Bytes
    requires forall i :: 0 <= i < |items| ==> Writable(items[i])
  {
    if items == [] then []
    else if |items| == 1 then Render(items[0])
    else Render(items[0]) + [COLON] + Join(items[1..])
  }

  /** The directories a list names. */
  function Named(items: seq<Item>): seq<Bytes> {
    if items == [] then []
    else (if items[0].Comment? || items[0].path == [] then [] else [items[0].path]) + Named(items[1..])
  }

  lemma DecodesByte(b: Byte, style: Style, more: Bytes, out: Bytes)
    requires Fits(b, style)
    ensures Unquote(Encode(b, style) + more, out) == Unquote(more, out + [b])
  {
    var s := Encode(b, style) + more;
    match style
    case Raw => assert s[1..] == more;
    case Letter => assert s[2..] == more;
    case Octal =>
      assert s[4..] == more;
      assert (b / 64) * 64 + (b / 8 % 8) * 8 + b % 8 == b;
  }

  lemma {:induction false} DecodesPath(p: Bytes, styles: seq<Style>, more: Bytes, out: Bytes)
    requires AllFit(p, styles)
    ensures Unquote(EncodeAll(p, styles) + ([QUOTE] + more), out) == Some((UpTo(out + p, NUL), more))
    decreases |p|
  {
    var tail := [QUOTE] + more;
    if p == [] {
      assert EncodeAll(p, styles) + tail == tail && tail[1..] == more && out + p == out;
    } else {
      var rest := EncodeAll(p[1..], styles[1..]);
      assert EncodeAll(p, styles) + tail == Encode(p[0], styles[0]) + (rest + tail);
      DecodesByte(p[0], styles[0], rest + tail, out);
      DecodesPath(p[1..], styles[1..], more, out + [p[0]]);
      assert (out + [p[0]]) + p[1..] == out + p;
    }
  }

  /** And nothing else is taken for a quoted path: whatever unquotes is some path,
      written byte by byte in one of the three styles, and a closing quote. */
  lemma {:induction false} UnquotedIsQuoted(s: Bytes, out: Bytes) returns (p: Bytes, styles: seq<Style>)
    requires Unquote(s, out).Some?
    ensures AllFit(p, styles)
    ensures s == EncodeAll(p, styles) + ([QUOTE] + Unquote(s, out).value.1)
    ensures Unquote(s, out).value.0 == UpTo(out + p, NUL)
  {
    if s[0] == QUOTE {
      p, styles := [], [];
      assert out + p == out && s == [QUOTE] + s[1..];
      return;
    }
    var b, style := FirstByte(s, out);
    var n := |Encode(b, style)|;
    var q, more := UnquotedIsQuoted(s[n..], out + [b]);
    p, styles := [b] + q, [style] + more;
    EncodedFirst(b, style, q, more);
    assert (out + [b]) + q == out + p;
    Regroup(s, n, EncodeAll(q, more), [QUOTE] + Unquote(s, out).value.1);
  }

  lemma FirstByte(s: Bytes, out: Bytes) returns (b: Byte, style: Style)
    requires Unquote(s, out).Some? && s[0] != QUOTE
    ensures Fits(b, style) && 0 < |Encode(b, style)| <= |s| && s[..|Encode(b, style)|] == Encode(b, style)
    ensures Unquote(s, out) == Unquote(s[|Encode(b, style)|..], out + [b])
  {
    if s[0] != BACKSLASH {
      b, style := s[0], Raw;
    } else if Escaped(s[1]).Some? {
      b, style := Escaped(s[1]).value, Letter;
    } else {
      b, style := (s[1] - 48) * 64 + (s[2] - 48) * 8 + (s[3] - 48), Octal;
      OctalDigits(s[1] - 48, s[2] - 48, s[3] - 48);
    }
    var code := Encode(b, style);
    assert s[..|code|] == code;
    assert s == code + s[|code|..];
    DecodesByte(b, style, s[|code|..], out);
  }

  lemma OctalDigits(x: nat, y: nat, z: nat)
    requires x < 4 && y < 8 && z < 8
    ensures var b := x * 64 + y * 8 + z; b < 256 && b / 64 == x && b / 8 % 8 == y && b % 8 == z
  {
  }

  lemma EncodedFirst(b: Byte, style: Style, q: Bytes, more: seq<Style>)
    requires Fits(b, style) && AllFit(q, more)
    ensures AllFit([b] + q, [style] + more)
    ensures EncodeAll([b] + q, [style] + more) == Encode(b, style) + EncodeAll(q, more)
  {
    assert ([b] + q)[1..] == q && ([style] + more)[1..] == more;
  }

  lemma Regroup(s: Bytes, n: nat, code: Bytes, tail: Bytes)
    requires n <= |s| && s[n..] == code + tail
    ensures s == (s[..n] + code) + tail
  {
    assert s == s[..n] + s[n..];
  }

  /** A text after an opening quote is taken for a quoted path exactly if it is one; what
      is not is taken as it is, up to the next colon. */
  lemma QuotedIff(s: Bytes)
    requires s != [] && s[0] == QUOTE
    ensures (exists p, styles, more :: IsQuoting(s[1..], p, styles, more)) <==> Unquote(s[1..], []).Some?
    ensures !(exists p, styles, more :: IsQuoting(s[1..], p, styles, more)) ==>
              var n := |Entry(s).0|;
              n <= |s| && Entry(s) == (s[..n], s[n..]) && COLON !in s[..n] && (n < |s| ==> s[n] == COLON)
  {
    UpToIs(s, COLON);
    if Unquote(s[1..], []).Some? {
      var p, styles := UnquotedIsQuoted(s[1..], []);
      assert IsQuoting(s[1..], p, styles, Unquote(s[1..], []).value.1);
    }
    forall p, styles, more | IsQuoting(s[1..], p, styles, more) ensures Unquote(s[1..], []).Some? {
      DecodesPath(p, styles, more, []);
    }
  }

  ghost predicate IsQuoting(s: Bytes, p: Bytes, styles: seq<Style>, more: Bytes) {
    AllFit(p, styles) && s == EncodeAll(p, styles) + ([QUOTE] + more)
  }

  lemma {:induction false} UpToAll(p: Bytes, stop: Byte, more: Bytes)
    requires stop !in p && (more == [] || more[0] == stop)
    ensures UpTo(p + more, stop) == p
  {
    if p == [] {
      assert p + more == more;
    } else {
      assert (p + more)[1..] == p[1..] + more;
      UpToAll(p[1..], stop, more);
    }
  }

  lemma ReadsPlain(p: Bytes, more: Bytes)
    requires COLON !in p && p != [] && p[0] != QUOTE && p[0] != HASH && (more == [] || more[0] == COLON)
    ensures Entry(p + more) == (p, more)
  {
    UpToAll(p, COLON, more);
    assert (p + more)[|p|..] == more && (p + more)[0] == p[0];
  }

  lemma ReadsComment(t: Bytes, more: Bytes)
    requires COLON !in t && t != [] && t[0] == HASH && (more == [] || more[0] == COLON)
    ensures Entry(t + more) == ([], more)
  {
    UpToAll(t, COLON, more);
    assert (t + more)[|t|..] == more && (t + more)[0] == HASH;
  }

  lemma ReadsQuoted(p: Bytes, styles: seq<Style>, more: Bytes)
    requires AllFit(p, styles) && NUL !in p
    ensures Entry([QUOTE] + EncodeAll(p, styles) + [QUOTE] + more) == (p, more)
  {
    var code := EncodeAll(p, styles);
    var s := [QUOTE] + code + [QUOTE] + more;
    assert s[1..] == code + ([QUOTE] + more) && s[0] == QUOTE;
    DecodesPath(p, styles, more, []);
    UpToAll(p, NUL, []);
    assert [] + p == p && p + [] == p;
  }

  /** The first item of a list is read as such, up to its separator. */
  lemma ReadsItem(it: Item, more: Bytes)
    requires Writable(it) && Render(it) != [] && (more == [] || more[0] == COLON)
    ensures Entry(Render(it) + more) == (if it.Comment? then [] else it.path, more)
  {
    match it
    case Plain(p) => ReadsPlain(p, more);
    case Comment(t) => ReadsComment(t, more);
    case Quoted(p, styles) => ReadsQuoted(p, styles, more);
  }

  /** Whatever is written, byte by byte in any of the three styles, quoted, plain
      or as a comment, is read back as exactly the directories it names. */
  lemma {:induction false} RoundTrip(items: seq<Item>)
    requires forall i :: 0 <= i < |items| ==> Writable(items[i])
    ensures Entries(Join(items)) == Named(items)
    decreases |items|
  {
    if items != [] {
      var it, rest := items[0], items[1..];
      RoundTrip(rest);
      var more := if |items| == 1 then [] else [COLON] + Join(rest);
      assert Join(items) == Render(it) + more;
      if Render(it) == [] {
        assert Render(it) + more == more;
        if |items| > 1 { SkipsSeparator(Join(rest)); }
      } else {
        ReadsItem(it, more);
        assert Rest(Join(items)) == Join(rest);
      }
    }
  }

  lemma SkipsSeparator(s: Bytes)
    ensures Entries([COLON] + s) == Entries(s)
  {
    var t := [COLON] + s;
    assert UpTo(t, COLON) == [] && t[0..] == t && t[1..] == s;
    assert Entry(t) == ([], t);
  }
}
