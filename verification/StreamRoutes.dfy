/** The websocket route of a stream: percent-decoding and the parser of the request target. */
module StreamRoutes {
  import opened Common
  import opened SessionStreams

  /** Thrown by the number parser on a bad escape. */
  datatype RouteError = InvalidEscape

  // ----- percent-decoding -----

  function HexDigit(c: char): Option<nat> {
    if '0' <= c <= '9' then Some(c as int - '0' as int)
    else if 'a' <= c <= 'f' then Some(c as int - 'a' as int + 10)
    else if 'A' <= c <= 'F' then Some(c as int - 'A' as int + 10)
    else None
  }

  predicate IsSpace(c: char) {
    c == ' ' || 9 <= c as int <= 13
  }

  /**
   * `std::stoi(..., 16)` on two characters, cast to a byte: white space or a sign may stand for the
   * first digit, and anything after the first digit that is no digit is ignored.
   */
  function HexByte(first: char, second: char): (byte: Option<nat>)
    ensures byte.Some? ==> byte.value < 256
  {
    match (HexDigit(first), HexDigit(second))
    case (Some(high), Some(low)) => Some(16 * high + low)
    case (Some(digit), None) => Some(digit)
    case (None, Some(digit)) =>
      if IsSpace(first) || first == '+' then Some(digit)
      else if first == '-' then Some(if digit == 0 then 0 else 256 - digit)
      else None
    case (None, None) => None
  }

  /** An escape needs two characters after the percent sign; a plus sign stands for a space. */
  function Decode(text: string): Result<string, RouteError> {
    if text == "" then Ok("")
    else if text[0] == '%' && |text| > 2 then
      match HexByte(text[1], text[2])
      case Some(byte) => After([byte as char], Decode(text[3..]))
      case None => Err(InvalidEscape)
    else After([if text[0] == '+' then ' ' else text[0]], Decode(text[1..]))
  }

  function After(first: string, rest: Result<string, RouteError>): Result<string, RouteError> {
    match rest case Ok(text) => Ok(first + text) case Err(error) => Err(error)
  }

  lemma AfterAppends(first: string, c: char, rest: Result<string, RouteError>)
    ensures After(first, After([c], rest)) == After(first + [c], rest)
  {
    match rest
    case Ok(text) => assert first + ([c] + text) == first + [c] + text;
    case Err(_) =>
  }

  lemma AfterNothing(rest: Result<string, RouteError>)
    ensures After("", rest) == rest
  {
    match rest
    case Ok(text) => assert "" + text == text;
    case Err(_) =>
  }

  method DecodePercentEncoded(value: string) returns (decoded: Result<string, RouteError>)
    ensures decoded == Decode(value)
  {
    var buffer := "";
    var index := 0;
    assert value[0..] == value;
    AfterNothing(Decode(value));
    while index < |value|
      invariant 0 <= index <= |value|
      invariant Decode(value) == After(buffer, Decode(value[index..]))
    {
      var ch := value[index];
      assert value[index..][1..] == value[index + 1..];
      AfterAppends(buffer, ch, Decode(value[index + 1..]));
      AfterAppends(buffer, ' ', Decode(value[index + 1..]));
      if ch == '%' && index + 2 < |value| {
        assert value[index..][3..] == value[index + 3..];
        var byte := HexByte(value[index + 1], value[index + 2]);
        if byte.None? { return Err(InvalidEscape); }
        AfterAppends(buffer, byte.value as char, Decode(value[index + 3..]));
        buffer := buffer + [byte.value as char];
        index := index + 2;
      } else if ch == '+' {
        buffer := buffer + [' '];
      } else {
        buffer := buffer + [ch];
      }
      index := index + 1;
    }
    assert value[index..] == "" && buffer + "" == buffer;
    return Ok(buffer);
  }

  // ----- the target parser -----

  /** The text before the first question mark. */
  function BeforeQuery(target: string): string {
    if target == "" || target[0] == '?' then "" else [target[0]] + BeforeQuery(target[1..])
  }

  /** The first position at or after `from` where the pattern occurs. */
  function Find(text: string, pattern: string, from: nat): (position: Option<nat>)
    ensures position.Some? ==> from <= position.value <= |text| && pattern <= text[position.value..]
    ensures position.Some? ==> forall i :: from <= i < position.value ==> !(pattern <= text[i..])
    ensures position.None? ==> forall i :: from <= i <= |text| ==> !(pattern <= text[i..])
    decreases |text| + 1 - from
  {
    if from > |text| then None
    else if pattern <= text[from..] then Some(from)
    else Find(text, pattern, from + 1)
  }

  const PREFIX: string := "/sessions/"
  const INFIX: string := "/streams/"
  const SUFFIX: string := "/ws"

  predicate EndsWith(text: string, suffix: string) {
    |suffix| <= |text| && text[|text| - |suffix|..] == suffix
  }

  /** The session id and the decoded stream id; `None` when the target is no websocket route. */
  function ParseTarget(target: string): Result<Option<(string, string)>, RouteError> {
    var route := BeforeQuery(target);
    if !(PREFIX <= route) || !EndsWith(route, SUFFIX) then Ok(None)
    else
      match Find(route, INFIX, |PREFIX|)
      case None => Ok(None)
      case Some(at) =>
        if at <= |PREFIX| then Ok(None)
        else
          var begin, end := at + |INFIX|, |route| - |SUFFIX|;
          if begin >= end || '/' in route[|PREFIX|..at] then Ok(None)
          else Outcome(route[|PREFIX|..at], Decode(route[begin..end]))
  }

  function Outcome(sessionId: string, decoded: Result<string, RouteError>): Result<Option<(string, string)>, RouteError> {
    match decoded case Ok(streamId) => Ok(Some((sessionId, streamId))) case Err(error) => Err(error)
  }

  // ----- the encoder: percent-encoding of RFC 3986, section 2.1 -----

  predicate Unreserved(c: char) {
    'A' <= c <= 'Z' || 'a' <= c <= 'z' || '0' <= c <= '9' || c in "-_.~"
  }

  function UpperHex(digit: nat): char
    requires digit < 16
  {
    if digit < 10 then ('0' as int + digit) as char else ('A' as int + digit - 10) as char
  }

  predicate IsBytes(text: string) {
    forall i :: 0 <= i < |text| ==> text[i] as int < 256
  }

  function EncodeByte(c: char): string
    requires c as int < 256
  {
    if Unreserved(c) then [c] else ['%', UpperHex(c as int / 16), UpperHex(c as int % 16)]
  }

  function Encode(text: string): string
    requires IsBytes(text)
  {
    if text == "" then "" else EncodeByte(text[0]) + Encode(text[1..])
  }

  // ----- round trips -----

  lemma HexDigitsReadBack(n: nat)
    requires n < 16
    ensures HexDigit(UpperHex(n)) == Some(n)
  {
  }

  lemma EncodedByteReadsBack(c: char, rest: string)
    requires c as int < 256
    ensures Decode(EncodeByte(c) + rest) == After([c], Decode(rest))
  {
    var all := EncodeByte(c) + rest;
    if Unreserved(c) {
      assert c != '%' && c != '+';
      assert all[0] == c && all[1..] == rest;
    } else {
      HexDigitsReadBack(c as int / 16);
      HexDigitsReadBack(c as int % 16);
      assert all[0] == '%' && all[1] == UpperHex(c as int / 16) && all[2] == UpperHex(c as int % 16) && all[3..] == rest;
      assert HexByte(all[1], all[2]) == Some(c as int);
    }
  }

  /** Decoding undoes encoding on every byte string. */
  lemma {:induction false} DecodeUndoesEncode(text: string)
    requires IsBytes(text)
    ensures Decode(Encode(text)) == Ok(text)
  {
    if text != "" {
      DecodeUndoesEncode(text[1..]);
      EncodedByteReadsBack(text[0], Encode(text[1..]));
      assert text == [text[0]] + text[1..];
    }
  }

  // ----- every spelling of a text -----

  /** The character is the hexadecimal digit `n`, in either case. */
  predicate IsHex(c: char, n: nat) {
    n < 16 && (c == "0123456789abcdef"[n] || c == "0123456789ABCDEF"[n])
  }

  predicate NoHex(c: char) {
    c !in "0123456789abcdef" && c !in "0123456789ABCDEF"
  }

  /** What a client may write for one byte: the byte itself, a plus sign for a space, or an escape in either case. */
  ghost predicate Spells(piece: string, c: char) {
    || (piece == [c] && c != '%' && c != '+')
    || (piece == "+" && c == ' ')
    || (|piece| == 3 && piece[0] == '%'
        && exists high: nat, low: nat :: IsHex(piece[1], high) && IsHex(piece[2], low) && c as int == 16 * high + low)
  }

  function Joined(pieces: seq<string>): string {
    if pieces == [] then "" else pieces[0] + Joined(pieces[1..])
  }

  lemma HexMeans(c: char, n: nat)
    ensures HexDigit(c) == Some(n) <==> IsHex(c, n)
    ensures HexDigit(c).None? <==> NoHex(c)
  {
  }

  lemma EscapeDecodes(first: char, second: char, high: nat, low: nat, rest: string)
    requires IsHex(first, high) && IsHex(second, low)
    ensures Decode(['%', first, second] + rest) == After([(16 * high + low) as char], Decode(rest))
  {
    hide HexDigit;
    HexMeans(first, high);
    HexMeans(second, low);
    var all := ['%', first, second] + rest;
    assert all[0] == '%' && all[1] == first && all[2] == second && all[3..] == rest;
  }

  lemma OneCharacterDecodes(first: char, rest: string)
    requires first != '%'
    ensures Decode([first] + rest) == After([if first == '+' then ' ' else first], Decode(rest))
  {
    assert ([first] + rest)[1..] == rest;
  }

  lemma SpellingDecodes(piece: string, c: char, rest: string)
    requires Spells(piece, c)
    ensures Decode(piece + rest) == After([c], Decode(rest))
  {
    hide IsHex, Decode;
    if |piece| == 3 {
      var high: nat, low: nat :| IsHex(piece[1], high) && IsHex(piece[2], low) && c as int == 16 * high + low;
      assert piece == ['%', piece[1], piece[2]];
      EscapeDecodes(piece[1], piece[2], high, low, rest);
    } else {
      OneCharacterDecodes(piece[0], rest);
    }
  }

  /** Whatever way each byte of a text is spelled, the text is what is decoded. */
  lemma {:induction false} EverySpellingDecodes(pieces: seq<string>, text: string)
    requires |pieces| == |text| && forall i :: 0 <= i < |text| ==> Spells(pieces[i], text[i])
    ensures Decode(Joined(pieces)) == Ok(text)
  {
    if pieces != [] {
      EverySpellingDecodes(pieces[1..], text[1..]);
      SpellingDecodes(pieces[0], text[0], Joined(pieces[1..]));
      assert text == [text[0]] + text[1..];
    }
  }

  /**
   * Escapes that no client should write are read as the number parser has it: one digit will do, with
   * something ignored after it or with white space or a sign before it; a minus sign counts down from 256.
   */
  lemma OddEscapes(first: char, second: char, digit: nat, rest: string)
    ensures IsHex(first, digit) && NoHex(second) ==> Decode(['%', first, second] + rest) == After([digit as char], Decode(rest))
    ensures first in " \t\n\r+" && IsHex(second, digit) ==> Decode(['%', first, second] + rest) == After([digit as char], Decode(rest))
    ensures first == '-' && IsHex(second, digit) ==>
      Decode(['%', first, second] + rest) == After([if digit == 0 then 0 as char else (256 - digit) as char], Decode(rest))
    ensures NoHex(first) && NoHex(second) ==> Decode(['%', first, second] + rest) == Err(InvalidEscape)
    ensures NoHex(first) && !IsSpace(first) && first !in "+-" ==> Decode(['%', first, second] + rest) == Err(InvalidEscape)
  {
    var all := ['%', first, second] + rest;
    assert all[0] == '%' && all[1] == first && all[2] == second && all[3..] == rest;
    HexMeans(first, digit);
    HexMeans(second, digit);
    assert first in " \t\n\r+-" ==> HexDigit(first).None?;
    hide HexDigit;
  }

  /** An encoded text has no question mark. */
  lemma {:induction false} EncodedTextHasNoQuery(text: string)
    requires IsBytes(text)
    ensures '?' !in Encode(text) && (text != "" ==> Encode(text) != "")
  {
    if text != "" {
      EncodedTextHasNoQuery(text[1..]);
      HexIsUnreserved(text[0] as int / 16);
      HexIsUnreserved(text[0] as int % 16);
      assert '?' !in EncodeByte(text[0]);
    }
  }

  lemma HexIsUnreserved(n: nat)
    requires n < 16
    ensures UpperHex(n) != '?'
  {
  }

  lemma {:induction false} BeforeQueryStops(text: string, query: string)
    requires '?' !in text && (query == "" || query[0] == '?')
    ensures BeforeQuery(text + query) == text
  {
    if text == "" {
      assert text + query == query;
    } else {
      assert (text + query)[1..] == text[1..] + query;
      BeforeQueryStops(text[1..], query);
    }
  }

  /** The first occurrence is unique, so `Find` need not be unrolled. */
  lemma FindsFirst(text: string, pattern: string, from: nat, at: nat)
    requires from <= at <= |text| && pattern <= text[at..]
    requires forall i :: from <= i < at ==> !(pattern <= text[i..])
    ensures Find(text, pattern, from) == Some(at)
  {
    hide Find;
    var found := Find(text, pattern, from);
    assert found.Some?;
    assert found.value == at;
  }

  lemma PartsOf(a: string, b: string, c: string, d: string, e: string)
    ensures var all := a + b + c + d + e;
      && a <= all && all[|all| - |e|..] == e && c <= all[|a| + |b|..]
      && all[|a|..|a| + |b|] == b && all[|a| + |b| + |c|..|all| - |e|] == d
      && forall k :: 0 <= k < |b| ==> all[|a| + k] == b[k]
  {
    var all := a + b + c + d + e;
    assert all == a + (b + c + d + e);
    assert all[|a| + |b|..] == c + (d + e);
    assert all[|a|..|a| + |b|] == b;
    assert all[|a| + |b| + |c|..|all| - |e|] == d;
    assert all[|all| - |e|..] == e;
  }

  /** A route built from a slash-free session id splits where it was put together. */
  lemma RouteSplits(sessionId: string, stream: string)
    requires sessionId != "" && '/' !in sessionId
    ensures var route := PREFIX + sessionId + INFIX + stream + SUFFIX;
      && PREFIX <= route && EndsWith(route, SUFFIX)
      && Find(route, INFIX, |PREFIX|) == Some(|PREFIX| + |sessionId|)
      && route[|PREFIX|..|PREFIX| + |sessionId|] == sessionId
      && route[|PREFIX| + |sessionId| + |INFIX|..|route| - |SUFFIX|] == stream
  {
    hide Find;
    var route := PREFIX + sessionId + INFIX + stream + SUFFIX;
    var at := |PREFIX| + |sessionId|;
    PartsOf(PREFIX, sessionId, INFIX, stream, SUFFIX);
    forall i | |PREFIX| <= i < at ensures !(INFIX <= route[i..]) {
      assert route[i..][0] == route[|PREFIX| + (i - |PREFIX|)] == sessionId[i - |PREFIX|];
      assert sessionId[i - |PREFIX|] in sessionId;
      assert INFIX[0] == '/';
    }
    FindsFirst(route, INFIX, |PREFIX|, at);
  }

  /** Parsing the route of an encoded stream id, with any query, gives the two ids back. */
  lemma RouteRoundTrip(sessionId: string, streamId: string, query: string)
    requires sessionId != "" && '/' !in sessionId && '?' !in sessionId
    requires streamId != "" && IsBytes(streamId)
    requires query == "" || query[0] == '?'
    ensures ParseTarget(PREFIX + sessionId + INFIX + Encode(streamId) + SUFFIX + query) == Ok(Some((sessionId, streamId)))
  {
    var route := PREFIX + sessionId + INFIX + Encode(streamId) + SUFFIX;
    EncodedTextHasNoQuery(streamId);
    assert '?' !in PREFIX && '?' !in INFIX && '?' !in SUFFIX;
    BeforeQueryStops(route, query);
    RouteSplits(sessionId, Encode(streamId));
    DecodeUndoesEncode(streamId);
  }

  /** The route grammar: prefix, slash-free session id, infix, raw stream id, suffix, then any query. */
  predicate IsRouteOf(target: string, sessionId: string, raw: string) {
    sessionId != "" && '/' !in sessionId && raw != "" &&
    BeforeQuery(target) == PREFIX + sessionId + INFIX + raw + SUFFIX
  }

  /** The parser accepts exactly the routes of the grammar, and reads the ids from where they stand. */
  lemma ParserAcceptsExactlyTheRoutes(target: string, sessionId: string, streamId: string)
    ensures ParseTarget(target) == Ok(Some((sessionId, streamId))) <==>
            exists raw :: IsRouteOf(target, sessionId, raw) && Decode(raw) == Ok(streamId)
    ensures ParseTarget(target).Err? <==> exists id, raw :: IsRouteOf(target, id, raw) && Decode(raw).Err?
  {
    hide Decode, Find, BeforeQuery;
    var route := BeforeQuery(target);
    forall id, raw | IsRouteOf(target, id, raw)
      ensures ParseTarget(target) == Outcome(id, Decode(raw))
    {
      RouteSplits(id, raw);
    }
    if ParseTarget(target) != Ok(None) {
      var at := Find(route, INFIX, |PREFIX|).value;
      var raw := route[at + |INFIX|..|route| - |SUFFIX|];
      Reassembles(route, at);
      assert IsRouteOf(target, route[|PREFIX|..at], raw);
    }
  }

  lemma Reassembles(route: string, at: nat)
    requires |PREFIX| < at && at + |INFIX| < |route| - |SUFFIX|
    requires PREFIX <= route && EndsWith(route, SUFFIX) && INFIX <= route[at..]
    ensures route == PREFIX + route[|PREFIX|..at] + INFIX + route[at + |INFIX|..|route| - |SUFFIX|] + SUFFIX
  {
    assert route[..|PREFIX|] == PREFIX;
    assert route[at..at + |INFIX|] == route[at..][..|INFIX|] == INFIX;
  }

  // ----- ids that need no encoding -----

  /** No plus sign, and no percent sign with two characters after it. */
  predicate Plain(text: string) {
    forall i :: 0 <= i < |text| ==> text[i] != '+' && (text[i] == '%' ==> |text| - i <= 2)
  }

  lemma {:induction false} DecodeNeverGrows(text: string)
    requires Decode(text).Ok?
    ensures |Decode(text).value| <= |text|
  {
    if text != "" {
      if text[0] == '%' && |text| > 2 { DecodeNeverGrows(text[3..]); } else { DecodeNeverGrows(text[1..]); }
    }
  }

  lemma {:induction false} DecodeKeepsIff(text: string)
    ensures Decode(text) == Ok(text) <==> Plain(text)
  {
    if text != "" {
      if text[0] == '%' && |text| > 2 {
        if Decode(text).Ok? { DecodeNeverGrows(text[3..]); }
      } else {
        DecodeKeepsIff(text[1..]);
        assert text == [text[0]] + text[1..];
        assert forall i :: 1 <= i < |text| ==> text[i] == text[1..][i - 1];
        assert forall i :: 0 <= i < |text[1..]| ==> text[1..][i] == text[i + 1];
      }
    }
  }

  lemma {:induction false} BeforeQueryCuts(text: string, rest: string)
    requires '?' in text
    ensures |BeforeQuery(text + rest)| < |text| && BeforeQuery(text + rest) <= text
  {
    if text[0] != '?' {
      assert (text + rest)[1..] == text[1..] + rest;
      BeforeQueryCuts(text[1..], rest);
    }
  }

  /** What a parsed target says about the text it was read from. */
  lemma ParsedStreamIsShort(target: string)
    ensures match ParseTarget(target)
      case Ok(Some((sessionId, streamId))) =>
        |PREFIX| + |sessionId| + |INFIX| + |streamId| + |SUFFIX| <= |BeforeQuery(target)|
      case _ => true
  {
    hide Find;
    var route := BeforeQuery(target);
    match ParseTarget(target)
    case Ok(Some((sessionId, streamId))) =>
      var at := Find(route, INFIX, |PREFIX|).value;
      DecodeNeverGrows(route[at + |INFIX|..|route| - |SUFFIX|]);
    case _ =>
  }

  /**
   * The advertised websocket path carries the stream id as it is: it leads back to the stream exactly
   * when the id has no question mark, no plus sign and no percent sign that starts an escape.
   */
  lemma AdvertisedPathRoundTripsIff(sessionId: string, streamId: string)
    requires sessionId != "" && '/' !in sessionId && '?' !in sessionId && streamId != ""
    ensures (ParseTarget(StreamPath(sessionId, streamId, "websocket")) == Ok(Some((sessionId, streamId)))) <==>
            ('?' !in streamId && Plain(streamId))
  {
    hide Decode, Plain, Find;
    var route := StreamPath(sessionId, streamId, "websocket");
    assert route == PREFIX + sessionId + INFIX + streamId + SUFFIX;
    if '?' in streamId {
      var text := PREFIX + sessionId + INFIX + streamId;
      assert '?' in text;
      BeforeQueryCuts(text, SUFFIX);
      ParsedStreamIsShort(route);
    } else {
      assert '?' !in PREFIX && '?' !in INFIX && '?' !in SUFFIX;
      BeforeQueryStops(route, "");
      assert route + "" == route;
      RouteSplits(sessionId, streamId);
      DecodeKeepsIff(streamId);
    }
  }
}
