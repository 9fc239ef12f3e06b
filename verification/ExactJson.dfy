/** Number protection before JSON decoding: exact_json in src/adapters/kraken/kraken_l2_parser.cpp. */
module ExactJson {
  import opened Base
  import opened Decimal
  import KrakenNumber

  const TAG: string := "#number"

  // ----- JSON strings -----

  /** Where a string token closes, given a position inside it; None when it never does. */
  function StringEnd(s: string, i: nat, escaped: bool): (end: Option<nat>)
    requires i <= |s|
    ensures end.Some? ==> i < end.value <= |s|
    decreases |s| - i
  {
    if i == |s| then None
    else if escaped then StringEnd(s, i + 1, false)
    else if s[i] == '\\' then StringEnd(s, i + 1, true)
    else if s[i] == '"' then Some(i + 1)
    else StringEnd(s, i + 1, false)
  }

  /** A complete string token, quotes included. */
  predicate StringToken(t: string)
  {
    |t| >= 2 && t[0] == '"' && StringEnd(t, 1, false) == Some(|t|)
  }

  function HexDigit(c: char): (v: Option<nat>)
  {
    if '0' <= c <= '9' then Some(c as int - '0' as int)
    else if 'a' <= c <= 'f' then Some(c as int - 'a' as int + 10)
    else if 'A' <= c <= 'F' then Some(c as int - 'A' as int + 10)
    else None
  }

  /** The code unit of a \uXXXX escape whose hex digits start at i. */
  function CodeUnit(s: string, i: nat): (v: Option<nat>)
  {
    if i + 4 > |s| then None
    else
      match (HexDigit(s[i]), HexDigit(s[i + 1]), HexDigit(s[i + 2]), HexDigit(s[i + 3]))
      case (Some(a), Some(b), Some(c), Some(d)) => Some(((a * 16 + b) * 16 + c) * 16 + d)
      case _ => None
  }

  function ShortEscape(c: char): (v: Option<nat>)
  {
    match c
    case '"' => Some('"' as int)
    case '\\' => Some('\\' as int)
    case '/' => Some('/' as int)
    case 'b' => Some(8)
    case 'f' => Some(12)
    case 'n' => Some(10)
    case 'r' => Some(13)
    case 't' => Some(9)
    case _ => None
  }

  /** The code points a JSON string body denotes; None for a bad escape, lone surrogate or control character. */
  function Decode(s: string, i: nat): (r: Option<seq<nat>>)
    requires i <= |s|
    decreases |s| - i
  {
    if i == |s| then Some([])
    else if s[i] as int < 0x20 then None
    else if s[i] != '\\' then Prepend(s[i] as int, Decode(s, i + 1))
    else if i + 1 == |s| then None
    else if s[i + 1] != 'u' then
      match ShortEscape(s[i + 1])
      case None => None
      case Some(c) => Prepend(c, Decode(s, i + 2))
    else
      match CodeUnit(s, i + 2)
      case None => None
      case Some(u) =>
        if !(0xD800 <= u < 0xE000) then Prepend(u, Decode(s, i + 6))
        else if u < 0xDC00 && i + 12 <= |s| && s[i + 6] == '\\' && s[i + 7] == 'u' then
          match CodeUnit(s, i + 8)
          case None => None
          case Some(v) =>
            if 0xDC00 <= v < 0xE000 then Prepend(0x10000 + (u - 0xD800) * 0x400 + (v - 0xDC00), Decode(s, i + 12))
            else None
        else None
  }

  function Prepend(c: nat, r: Option<seq<nat>>): (q: Option<seq<nat>>)
  {
    match r case None => None case Some(s) => Some([c] + s)
  }

  function CodePoints(s: string): (r: seq<nat>)
    ensures |r| == |s| && forall i :: 0 <= i < |s| ==> r[i] == s[i] as int
  {
    seq(|s|, i requires 0 <= i < |s| => s[i] as int)
  }

  /** What a string token denotes. */
  function Denoted(t: string): (r: Option<seq<nat>>)
    requires StringToken(t)
  {
    Decode(t[1..|t| - 1], 0)
  }

  /** A string token exact_json refuses: one that does not decode, or decodes to the private tag. */
  predicate Refused(t: string)
    requires StringToken(t)
  {
    Denoted(t).None? || Denoted(t).value == CodePoints(TAG)
  }

  function Quote(s: string): (t: string) { "\"" + s + "\"" }

  // ----- Segments -----

  datatype Segment = Text(c: char) | Quoted(token: string) | Number(lexeme: string)

  predicate NumberStart(c: char) { c == '-' || IsDigit(c) }

  predicate NumberChar(c: char)
  {
    IsDigit(c) || c == '.' || c == 'e' || c == 'E' || c == '+' || c == '-'
  }

  function NumberEnd(s: string, i: nat): (j: nat)
    requires i <= |s|
    ensures i <= j <= |s| && forall k :: i <= k < j ==> NumberChar(s[k])
    decreases |s| - i
  {
    if i < |s| && NumberChar(s[i]) then NumberEnd(s, i + 1) else i
  }

  /** -?(0|[1-9][0-9]*)(\.[0-9]+)?([eE][+-]?[0-9]+)? */
  predicate JsonNumber(t: string)
  {
    if t != "" && t[0] == '-' then KrakenNumber.Token(t[1..]) else KrakenNumber.Token(t)
  }

  /** The input as segments, or None where exact_json throws. */
  function Segments(raw: string): (r: Option<seq<Segment>>)
    decreases |raw|
  {
    if raw == "" then Some([])
    else if raw[0] == '"' then
      match StringEnd(raw, 1, false)
      case None => None
      case Some(j) =>
        Cut(raw, 1, false);
        if Refused(raw[..j]) then None
        else Cons(Quoted(raw[..j]), Segments(raw[j..]))
    else if NumberStart(raw[0]) then
      var j := NumberEnd(raw, 1);
      if JsonNumber(raw[..j]) then Cons(Number(raw[..j]), Segments(raw[j..])) else None
    else Cons(Text(raw[0]), Segments(raw[1..]))
  }

  function Cons(s: Segment, r: Option<seq<Segment>>): (q: Option<seq<Segment>>)
  {
    match r case None => None case Some(rest) => Some([s] + rest)
  }

  /** A token stays a token when what follows it is cut off or replaced. */
  lemma {:induction false} Cut(s: string, i: nat, escaped: bool)
    requires i <= |s| && StringEnd(s, i, escaped).Some?
    ensures StringEnd(s[..StringEnd(s, i, escaped).value], i, escaped) == StringEnd(s, i, escaped)
    decreases |s| - i
  {
    if escaped || s[i] != '"' {
      Cut(s, i + 1, !escaped && s[i] == '\\');
    }
  }

  lemma {:induction false} Extend(t: string, rest: string, i: nat, escaped: bool)
    requires i <= |t| && StringEnd(t, i, escaped).Some?
    ensures StringEnd(t + rest, i, escaped) == StringEnd(t, i, escaped)
    decreases |t| - i
  {
    if escaped || t[i] != '"' {
      Extend(t, rest, i + 1, !escaped && t[i] == '\\');
    }
  }

  function Original(s: Segment): (t: string)
  {
    match s case Text(c) => [c] case Quoted(t) => t case Number(t) => t
  }

  function Tagged(s: Segment): (t: string)
  {
    match s case Text(c) => [c] case Quoted(t) => t case Number(t) => "[\"#number\",\"" + t + "\"]"
  }

  function OriginalText(segments: seq<Segment>): (t: string)
  {
    if segments == [] then "" else Original(segments[0]) + OriginalText(segments[1..])
  }

  function TaggedText(segments: seq<Segment>): (t: string)
  {
    if segments == [] then "" else Tagged(segments[0]) + TaggedText(segments[1..])
  }

  /** The rewritten text handed to the JSON decoder, or None where exact_json throws. */
  function Rewritten(raw: string): (r: Option<string>)
  {
    match Segments(raw) case None => None case Some(segments) => Some(TaggedText(segments))
  }

  // ----- The scanning loop -----

  method ScanString(raw: string, start: nat) returns (closed: bool, i: nat)
    requires start < |raw| && raw[start] == '"'
    ensures closed <==> StringEnd(raw, start + 1, false).Some?
    ensures closed ==> Some(i) == StringEnd(raw, start + 1, false)
  {
    i := start + 1;
    var escaped := false;
    closed := false;
    while i < |raw|
      invariant start < i <= |raw|
      invariant StringEnd(raw, i, escaped) == StringEnd(raw, start + 1, false)
    {
      var v := raw[i];
      i := i + 1;
      if escaped {
        escaped := false;
      } else if v == '\\' {
        escaped := true;
      } else if v == '"' {
        closed := true;
        break;
      }
    }
  }

  method ScanNumber(raw: string, start: nat) returns (i: nat)
    requires start < |raw|
    ensures start < i <= |raw| && i == NumberEnd(raw, start + 1)
  {
    i := start + 1;
    while i < |raw| && NumberChar(raw[i])
      invariant start < i <= |raw|
      invariant NumberEnd(raw, i) == NumberEnd(raw, start + 1)
    {
      i := i + 1;
    }
  }

  lemma {:induction false} ShiftString(raw: string, start: nat, i: nat, escaped: bool)
    requires start <= i <= |raw|
    ensures var e := StringEnd(raw, i, escaped);
            StringEnd(raw[start..], i - start, escaped) == if e.None? then None else Some(e.value - start)
    decreases |raw| - i
  {
    if i < |raw| {
      ShiftString(raw, start, i + 1, !escaped && raw[i] == '\\');
    }
  }

  lemma {:induction false} ShiftNumber(raw: string, start: nat, i: nat)
    requires start <= i <= |raw|
    ensures NumberEnd(raw[start..], i - start) == NumberEnd(raw, i) - start
    decreases |raw| - i
  {
    if i < |raw| && NumberChar(raw[i]) {
      ShiftNumber(raw, start, i + 1);
    }
  }

  /** out followed by the tagged text of the segments still to come. */
  function Pending(out: string, later: Option<seq<Segment>>): (r: Option<string>)
  {
    match later case None => None case Some(segments) => Some(out + TaggedText(segments))
  }

  lemma PendingCons(out: string, first: Segment, later: Option<seq<Segment>>)
    ensures Pending(out, Cons(first, later)) == Pending(out + Tagged(first), later)
  {
    if later.Some? {
      assert ([first] + later.value)[1..] == later.value;
      assert out + (Tagged(first) + TaggedText(later.value)) == (out + Tagged(first)) + TaggedText(later.value);
    }
  }

  lemma NothingWritten(all: Option<seq<Segment>>)
    ensures Pending("", all) == match all case None => None case Some(segments) => Some(TaggedText(segments))
  {
    if all.Some? {
      assert "" + TaggedText(all.value) == TaggedText(all.value);
    }
  }

  lemma Slices(raw: string, i: nat, j: nat)
    requires i < j <= |raw|
    ensures raw[i..][0] == raw[i] && raw[i..] == raw[i..j] + raw[j..]
  {}

  lemma StringStep(raw: string, i: nat, j: nat)
    requires i < |raw| && raw[i] == '"' && StringEnd(raw, i + 1, false) == Some(j)
    ensures i < j <= |raw| && StringToken(raw[i..j])
    ensures Segments(raw[i..]) == StringFirst(raw[i..j], raw[j..])
  {
    Slices(raw, i, j);
    ShiftString(raw, i, i + 1, false);
    StringHead(raw[i..], raw[i..j], raw[j..]);
  }

  function StringFirst(token: string, rest: string): (r: Option<seq<Segment>>)
    requires StringToken(token)
  {
    if Refused(token) then None else Cons(Quoted(token), Segments(rest))
  }

  lemma StringHead(s: string, token: string, rest: string)
    requires s == token + rest && s != "" && s[0] == '"' && StringEnd(s, 1, false) == Some(|token|)
    ensures StringToken(token) && Segments(s) == StringFirst(token, rest)
  {
    assert s[..|token|] == token && s[|token|..] == rest;
    Cut(s, 1, false);
  }

  lemma NumberStep(raw: string, i: nat, j: nat)
    requires i < |raw| && NumberStart(raw[i]) && j == NumberEnd(raw, i + 1)
    ensures i < j <= |raw|
    ensures Segments(raw[i..]) == NumberFirst(raw[i..j], raw[j..])
  {
    Slices(raw, i, j);
    ShiftNumber(raw, i, i + 1);
    NumberHead(raw[i..], raw[i..j], raw[j..]);
  }

  function NumberFirst(token: string, rest: string): (r: Option<seq<Segment>>)
  {
    if JsonNumber(token) then Cons(Number(token), Segments(rest)) else None
  }

  lemma NumberHead(s: string, token: string, rest: string)
    requires s == token + rest && s != "" && NumberStart(s[0]) && NumberEnd(s, 1) == |token|
    ensures Segments(s) == NumberFirst(token, rest)
  {
    assert s[..|token|] == token && s[|token|..] == rest;
  }

  lemma StringAdvance(out: string, raw: string, i: nat, j: nat)
    requires i < |raw| && raw[i] == '"' && StringEnd(raw, i + 1, false) == Some(j)
    ensures i < j <= |raw| && StringToken(raw[i..j])
    ensures Pending(out, Segments(raw[i..])) ==
            if Refused(raw[i..j]) then None else Pending(out + raw[i..j], Segments(raw[j..]))
  {
    StringStep(raw, i, j);
    PendingCons(out, Quoted(raw[i..j]), Segments(raw[j..]));
  }

  lemma NumberAdvance(out: string, raw: string, i: nat, j: nat)
    requires i < |raw| && NumberStart(raw[i]) && j == NumberEnd(raw, i + 1)
    ensures i < j <= |raw|
    ensures Pending(out, Segments(raw[i..])) ==
            if JsonNumber(raw[i..j]) then Pending(out + Tagged(Number(raw[i..j])), Segments(raw[j..])) else None
  {
    NumberStep(raw, i, j);
    PendingCons(out, Number(raw[i..j]), Segments(raw[j..]));
  }

  lemma TextAdvance(out: string, raw: string, i: nat)
    requires i < |raw| && raw[i] != '"' && !NumberStart(raw[i])
    ensures Pending(out, Segments(raw[i..])) == Pending(out + [raw[i]], Segments(raw[i + 1..]))
  {
    assert raw[i..][1..] == raw[i + 1..];
    PendingCons(out, Text(raw[i]), Segments(raw[i + 1..]));
  }

  lemma Unclosed(raw: string, i: nat)
    requires i < |raw| && raw[i] == '"' && StringEnd(raw, i + 1, false).None?
    ensures Segments(raw[i..]) == None
  {
    ShiftString(raw, i, i + 1, false);
  }

  /** The rewriting loop produces exactly the tagged text, and throws exactly where it is undefined. */
  method Rewrite(raw: string) returns (r: Option<string>)
    ensures r == Rewritten(raw)
  {
    var out := "";
    var i := 0;
    ghost var goal := Rewritten(raw);
    assert raw[0..] == raw;
    NothingWritten(Segments(raw));
    while i < |raw|
      invariant 0 <= i <= |raw|
      invariant Pending(out, Segments(raw[i..])) == goal == Rewritten(raw)
      decreases |raw| - i
    {
      var c := raw[i];
      if c == '"' {
        var start := i;
        var closed;
        closed, i := ScanString(raw, start);
        if !closed {
          Unclosed(raw, start);
          return None;
        }
        StringAdvance(out, raw, start, i);
        var token := raw[start..i];
        if Refused(token) {
          return None;
        }
        out := out + token;
      } else if NumberStart(c) {
        var start := i;
        i := ScanNumber(raw, start);
        NumberAdvance(out, raw, start, i);
        var token := raw[start..i];
        if !JsonNumber(token) {
          return None;
        }
        out := out + ("[\"#number\",\"" + token + "\"]");
      } else {
        TextAdvance(out, raw, i);
        out := out + [c];
        i := i + 1;
      }
    }
    assert raw[i..] == "" && out + "" == out;
    r := Some(out);
  }

  // ----- Invertibility -----

  function QuoteIndex(s: string, i: nat): (j: nat)
    requires i <= |s|
    ensures i <= j <= |s|
    decreases |s| - i
  {
    if i == |s| || s[i] == '"' then i else QuoteIndex(s, i + 1)
  }

  const OPENING: string := "[\"#number\",\""

  /** Take every tagged array back to its lexeme and copy everything else. */
  function Erased(out: string): (raw: string)
    decreases |out|
  {
    if out == "" then ""
    else if OPENING <= out then
      var j := QuoteIndex(out, 12);
      out[12..j] + Erased(if j + 2 <= |out| then out[j + 2..] else "")
    else if out[0] == '"' && StringEnd(out, 1, false).Some? then
      var j := StringEnd(out, 1, false).value;
      out[..j] + Erased(out[j..])
    else [out[0]] + Erased(out[1..])
  }

  /** What the scanner guarantees of each segment it emits. */
  predicate Proper(s: Segment)
  {
    match s
    case Text(c) => c != '"' && !NumberStart(c)
    case Quoted(t) => StringToken(t) && !Refused(t)
    case Number(t) => t != "" && forall k :: 0 <= k < |t| ==> NumberChar(t[k])
  }

  predicate AllProper(segments: seq<Segment>)
  {
    segments == [] || (Proper(segments[0]) && AllProper(segments[1..]))
  }

  lemma {:induction false} SegmentsCoverInput(raw: string)
    requires Segments(raw).Some?
    ensures OriginalText(Segments(raw).value) == raw
    ensures AllProper(Segments(raw).value)
    decreases |raw|
  {
    if raw != "" {
      var first := Segments(raw).value[0];
      var n := |Original(first)|;
      HeadSegment(raw);
      SegmentsCoverInput(raw[n..]);
      Prepended(first, Segments(raw[n..]).value);
      assert Original(first) + raw[n..] == raw;
    }
  }

  lemma Prepended(first: Segment, later: seq<Segment>)
    requires Proper(first) && AllProper(later)
    ensures OriginalText([first] + later) == Original(first) + OriginalText(later) && AllProper([first] + later)
  {
    assert ([first] + later)[1..] == later;
  }

  lemma HeadSegment(raw: string)
    requires raw != "" && Segments(raw).Some?
    ensures Segments(raw).value != []
    ensures var first := Segments(raw).value[0];
            && Proper(first) && 0 < |Original(first)| && Original(first) <= raw
            && Segments(raw) == Cons(first, Segments(raw[|Original(first)|..]))
  {
    if raw[0] == '"' {
      Cut(raw, 1, false);
    }
  }

  lemma {:induction false} QuoteAfterNumber(t: string, rest: string, i: nat)
    requires i <= |t| && forall k :: 0 <= k < |t| ==> NumberChar(t[k])
    ensures QuoteIndex(OPENING + t + "\"" + rest, 12 + i) == 12 + |t|
    decreases |t| - i
  {
    var s := OPENING + t + "\"" + rest;
    if i < |t| {
      assert s[12 + i] == t[i];
      QuoteAfterNumber(t, rest, i + 1);
    } else {
      assert s[12 + i] == '"';
    }
  }

  /** The only string token that starts with "#number" and a closing quote is the tag itself. */
  lemma TagTokenDenotesTag(t: string)
    requires StringToken(t) && Quote(TAG) <= t
    ensures Denoted(t) == Some(CodePoints(TAG))
  {
    var q := Quote(TAG);
    assert t[..|q|] == q;
    assert t[8] == '"' && forall k :: 1 <= k < 8 ==> t[k] == q[k] && t[k] != '"' && t[k] != '\\';
    PlainUntilQuote(t, 1, 8);
    assert t[1..|t| - 1] == TAG;
    DecodePlain(TAG, 0);
    assert CodePoints(TAG)[0..] == CodePoints(TAG);
  }

  lemma {:induction false} PlainUntilQuote(t: string, i: nat, q: nat)
    requires i <= q < |t| && t[q] == '"' && forall k :: i <= k < q ==> t[k] != '"' && t[k] != '\\'
    ensures StringEnd(t, i, false) == Some(q + 1)
    decreases q - i
  {
    if i < q {
      PlainUntilQuote(t, i + 1, q);
    }
  }

  lemma {:induction false} DecodePlain(s: string, i: nat)
    requires i <= |s| && forall k :: 0 <= k < |s| ==> s[k] != '\\' && s[k] as int >= 0x20
    ensures Decode(s, i) == Some(CodePoints(s)[i..])
    decreases |s| - i
  {
    if i < |s| {
      DecodePlain(s, i + 1);
      assert CodePoints(s)[i..] == [s[i] as int] + CodePoints(s)[i + 1..];
    }
  }

  lemma QuotedHead(t: string, rest: string)
    requires StringToken(t) && !Refused(t)
    ensures !(Quote(TAG) <= t + rest)
  {
    var q, out := Quote(TAG), t + rest;
    if q <= out {
      assert out[..9] == q;
      assert out[8] == '"' && forall k :: 1 <= k < 8 ==> out[k] == q[k] && out[k] != '"' && out[k] != '\\';
      PlainUntilQuote(out, 1, 8);
      Extend(t, rest, 1, false);
      assert t == out[..9];
      TagTokenDenotesTag(t);
    }
  }

  lemma TaggedHead(segments: seq<Segment>)
    requires AllProper(segments)
    ensures !(Quote(TAG) <= TaggedText(segments))
  {
    if segments != [] {
      var rest := TaggedText(segments[1..]);
      match segments[0]
      case Text(c) => assert TaggedText(segments)[0] == c;
      case Quoted(t) => QuotedHead(t, rest);
      case Number(t) => assert TaggedText(segments)[0] == '[';
    }
  }

  lemma EraseText(c: char, rest: string)
    requires c != '"' && !(Quote(TAG) <= rest)
    ensures Erased([c] + rest) == [c] + Erased(rest)
  {
    var out := [c] + rest;
    assert out[1..] == rest;
    assert OPENING[1..10] == Quote(TAG);
  }

  lemma EraseQuoted(t: string, rest: string)
    requires StringToken(t)
    ensures Erased(t + rest) == t + Erased(rest)
  {
    var out := t + rest;
    Extend(t, rest, 1, false);
    assert out[0] == '"' && out[..|t|] == t && out[|t|..] == rest;
  }

  lemma EraseNumber(t: string, rest: string)
    requires forall k :: 0 <= k < |t| ==> NumberChar(t[k])
    ensures Erased(Tagged(Number(t)) + rest) == t + Erased(rest)
  {
    var out := Tagged(Number(t)) + rest;
    assert out == OPENING + t + "\"" + ("]" + rest);
    QuoteAfterNumber(t, "]" + rest, 0);
    assert OPENING <= out && out[12..12 + |t|] == t && out[12 + |t| + 2..] == rest;
  }

  lemma {:induction false} EraseSegments(segments: seq<Segment>)
    requires AllProper(segments)
    ensures Erased(TaggedText(segments)) == OriginalText(segments)
    decreases |segments|
  {
    if segments != [] {
      var rest := TaggedText(segments[1..]);
      EraseSegments(segments[1..]);
      match segments[0]
      case Text(c) =>
        TaggedHead(segments[1..]);
        EraseText(c, rest);
      case Quoted(t) => EraseQuoted(t, rest);
      case Number(t) => EraseNumber(t, rest);
    }
  }

  /** Erasing the tags restores the original text exactly, on every text the rewrite accepts. */
  lemma EraseInvertsRewrite(raw: string)
    requires Rewritten(raw).Some?
    ensures Erased(Rewritten(raw).value) == raw
  {
    SegmentsCoverInput(raw);
    EraseSegments(Segments(raw).value);
  }

  // ----- Provenance of the tags -----

  /** The string tokens of a text, in order. */
  function Strings(s: string): (r: seq<string>)
    decreases |s|
    ensures forall k :: 0 <= k < |r| ==> StringToken(r[k])
  {
    if s == "" then []
    else if s[0] == '"' then
      match StringEnd(s, 1, false)
      case None => []
      case Some(j) => Cut(s, 1, false); [s[..j]] + Strings(s[j..])
    else Strings(s[1..])
  }

  predicate IsTag(t: string)
    requires StringToken(t)
  {
    Denoted(t) == Some(CodePoints(TAG))
  }

  /** The string tokens a segment contributes to the output. */
  function Contributed(s: Segment): (r: seq<string>)
  {
    match s case Text(c) => [] case Quoted(t) => [t] case Number(t) => [Quote(TAG), Quote(t)]
  }

  function AllContributed(segments: seq<Segment>): (r: seq<string>)
  {
    if segments == [] then [] else Contributed(segments[0]) + AllContributed(segments[1..])
  }

  lemma NumberLexemeToken(t: string)
    requires t != "" && forall k :: 0 <= k < |t| ==> NumberChar(t[k])
    ensures StringToken(Quote(t)) && !IsTag(Quote(t))
    ensures StringToken(Quote(TAG)) && IsTag(Quote(TAG))
  {
    var q := Quote(t);
    assert forall k :: 1 <= k < |q| - 1 ==> q[k] == t[k - 1] && NumberChar(q[k]);
    PlainUntilQuote(q, 1, |q| - 1);
    assert q[1..|q| - 1] == t;
    DecodePlain(t, 0);
    assert NumberChar(t[0]) && CodePoints(t)[0..][0] != CodePoints(TAG)[0];
    PlainUntilQuote(Quote(TAG), 1, 8);
    TagTokenDenotesTag(Quote(TAG));
  }

  lemma StringsOfToken(t: string, rest: string)
    requires StringToken(t)
    ensures Strings(t + rest) == [t] + Strings(rest)
  {
    Extend(t, rest, 1, false);
    assert (t + rest)[..|t|] == t && (t + rest)[|t|..] == rest;
  }

  lemma StringsOfChar(c: char, rest: string)
    requires c != '"'
    ensures Strings([c] + rest) == Strings(rest)
  {
    assert ([c] + rest)[1..] == rest;
  }

  /** Scanning the output for strings finds exactly what the segments put there, in order. */
  lemma {:induction false} OutputStrings(segments: seq<Segment>)
    requires AllProper(segments)
    ensures Strings(TaggedText(segments)) == AllContributed(segments)
    decreases |segments|
  {
    if segments != [] {
      var rest := TaggedText(segments[1..]);
      OutputStrings(segments[1..]);
      match segments[0]
      case Text(c) => StringsOfChar(c, rest);
      case Quoted(t) => StringsOfToken(t, rest);
      case Number(t) => StringsOfNumber(t, rest);
    }
  }

  lemma StringsOfNumber(t: string, rest: string)
    requires t != "" && forall k :: 0 <= k < |t| ==> NumberChar(t[k])
    ensures Strings(Tagged(Number(t)) + rest) == [Quote(TAG), Quote(t)] + Strings(rest)
  {
    NumberLexemeToken(t);
    StringsOfPair(Quote(TAG), Quote(t), rest);
    TaggedIsPair(t, rest);
  }

  lemma Regroup(a: string, b: string, c: string, q: string, t: string, d: string, rest: string)
    ensures a + b + c + q + t + (q + d) + rest == a + (b + (c + ((q + t + q) + (d + rest))))
  {}

  lemma TaggedIsPair(t: string, rest: string)
    ensures Tagged(Number(t)) + rest == "[" + (Quote(TAG) + ("," + (Quote(t) + ("]" + rest))))
  {
    assert OPENING == "[" + Quote(TAG) + "," + "\"" && "\"]" == "\"" + "]";
    Regroup("[", Quote(TAG), ",", "\"", t, "]", rest);
  }

  lemma StringsAfter(c: char, t: string, rest: string)
    requires c != '"' && StringToken(t)
    ensures Strings([c] + (t + rest)) == [t] + Strings(rest)
  {
    StringsOfChar(c, t + rest);
    StringsOfToken(t, rest);
  }

  lemma StringsOfPair(a: string, b: string, rest: string)
    requires StringToken(a) && StringToken(b)
    ensures Strings("[" + (a + ("," + (b + ("]" + rest))))) == [a, b] + Strings(rest)
  {
    StringsAfter('[', a, "," + (b + ("]" + rest)));
    StringsAfter(',', b, "]" + rest);
    StringsOfChar(']', rest);
  }

  function Tags(strings: seq<string>): (n: nat)
  {
    if strings == [] then 0
    else (if StringToken(strings[0]) && IsTag(strings[0]) then 1 else 0) + Tags(strings[1..])
  }

  function Numbers(segments: seq<Segment>): (n: nat)
  {
    if segments == [] then 0 else (if segments[0].Number? then 1 else 0) + Numbers(segments[1..])
  }

  lemma {:induction false} TagsAreNumbers(segments: seq<Segment>)
    requires AllProper(segments)
    ensures Tags(AllContributed(segments)) == Numbers(segments)
  {
    if segments != [] {
      TagsAreNumbers(segments[1..]);
      var later := AllContributed(segments[1..]);
      match segments[0]
      case Text(c) => assert AllContributed(segments) == later;
      case Quoted(t) => TagsCons(t, later);
      case Number(t) =>
        NumberLexemeToken(t);
        TagsCons(Quote(t), later);
        TagsCons(Quote(TAG), [Quote(t)] + later);
        assert AllContributed(segments) == [Quote(TAG)] + ([Quote(t)] + later);
    }
  }

  lemma TagsCons(t: string, later: seq<string>)
    requires StringToken(t)
    ensures Tags([t] + later) == (if IsTag(t) then 1 else 0) + Tags(later)
  {
    assert ([t] + later)[1..] == later;
  }

  /** Every string of the output that denotes "#number" was introduced by the rewrite: there are exactly as
      many as number tokens in the input, whatever the input's own strings say. */
  lemma TagsComeFromNumbers(raw: string)
    requires Rewritten(raw).Some?
    ensures Tags(Strings(Rewritten(raw).value)) == Numbers(Segments(raw).value)
    ensures Strings(Rewritten(raw).value) == AllContributed(Segments(raw).value)
  {
    SegmentsCoverInput(raw);
    OutputStrings(Segments(raw).value);
    TagsAreNumbers(Segments(raw).value);
  }
}
