/** The Redis client's wire codec: writeCommand and respReader (internal/store/redis/client.go),
    for version 2 of the Redis serialization protocol. */
module Resp {
  import opened Wrappers

  type Byte = b: int | 0 <= b < 256
  type Bytes = seq<Byte>

  const LF: Byte := 10
  const CR: Byte := 13
  const DOLLAR: Byte := 36
  const STAR: Byte := 42
  const PLUS: Byte := 43
  const MINUS: Byte := 45
  const COLON: Byte := 58
  const CRLF: Bytes := [CR, LF]

  const MIN_INT64 := -0x8000_0000_0000_0000
  const MAX_INT64 := 0x7FFF_FFFF_FFFF_FFFF

  /** What a reply holds. The client hands out simple and bulk strings alike as strings, a null
      bulk string as the empty string and a null array as the empty array. */
  datatype Value = Str(bytes: Bytes) | Int(n: int) | Arr(items: seq<Value>)

  datatype Error =
    | EndOfInput
    | UnexpectedEnd
    | BadNumber
    | BadPrefix(prefix: Byte)
    | ServerError(message: Bytes)

  // ---- Decimal numbers: strconv.Itoa, FormatInt, Atoi and ParseInt ----

  function Digits(n: nat): Bytes {
    if n < 10 then [48 + n] else Digits(n / 10) + [48 + n % 10]
  }

  function Decimal(n: int): Bytes {
    if n < 0 then [MINUS] + Digits(-n) else Digits(n)
  }

  /** ASCII '0' to '9'. */
  predicate AllDigits(s: Bytes) {
    forall i :: 0 <= i < |s| ==> 48 <= s[i] <= 57
  }

  function Magnitude(s: Bytes): nat
    requires AllDigits(s)
  {
    if s == [] then 0 else 10 * Magnitude(s[..|s| - 1]) + (s[|s| - 1] - 48)
  }

  function Atoi(s: Bytes): Option<int> {
    var signed := s != [] && s[0] in {PLUS, MINUS};
    var digits := if signed then s[1..] else s;
    if digits == [] || !AllDigits(digits) then None
    else
      var magnitude: int := Magnitude(digits);
      var n := if s[0] == MINUS then -magnitude else magnitude;
      if MIN_INT64 <= n <= MAX_INT64 then Some(n) else None
  }

  lemma {:induction false} DigitsRoundTrip(n: nat)
    ensures Digits(n) != [] && AllDigits(Digits(n)) && Magnitude(Digits(n)) == n
  {
    if n < 10 {
      assert Digits(n)[..0] == [];
    } else {
      DigitsRoundTrip(n / 10);
      var front := Digits(n / 10);
      assert Digits(n)[..|front|] == front;
    }
  }

  /** Reading back a printed number gives the number, for every 64-bit integer; its text has no
      line feed in it. */
  lemma DecimalRoundTrip(n: int)
    requires MIN_INT64 <= n <= MAX_INT64
    ensures Atoi(Decimal(n)) == Some(n)
    ensures LF !in Decimal(n)
  {
    hide Digits, Magnitude;
    DigitsRoundTrip(if n < 0 then -n else n);
    if n < 0 {
      assert Decimal(n)[1..] == Digits(-n);
    }
  }

  // ---- Lines ----

  /** The position of the first line feed, or the length of s. */
  function LineFeed(s: Bytes): (n: nat)
    ensures n <= |s|
    ensures LF !in s[..n]
    ensures n < |s| ==> s[n] == LF
  {
    if s == [] || s[0] == LF then 0
    else
      assert s == [s[0]] + s[1..];
      1 + LineFeed(s[1..])
  }

  function DropCR(line: Bytes): Bytes {
    if line != [] && line[|line| - 1] == CR then line[..|line| - 1] else line
  }

  datatype Header = Header(prefix: Byte, line: Bytes, rest: Bytes) | NoHeader

  /** The first byte, the rest of its line without its line ending, and what follows the line. */
  function ReadHeader(s: Bytes): (h: Header)
    ensures h.Header? ==> |h.rest| < |s|
  {
    if s == [] then NoHeader
    else
      var n := LineFeed(s[1..]);
      if n == |s| - 1 then NoHeader
      else Header(s[0], DropCR(s[1..][..n]), s[1..][n + 1..])
  }

  lemma HeaderOfPrinted(prefix: Byte, line: Bytes, rest: Bytes)
    requires LF !in line
    ensures ReadHeader([prefix] + line + CRLF + rest) == Header(prefix, line, rest)
  {
    var s := [prefix] + line + CRLF + rest;
    var t := s[1..];
    assert t == line + CRLF + rest;
    var n := LineFeed(t);
    forall i | 0 <= i <= |line| ensures t[i] != LF {
      assert t[i] == (line + [CR])[i];
    }
    assert t[|line| + 1] == LF;
    assert n == |line| + 1;
    assert t[..n] == line + [CR];
    assert t[n + 1..] == rest;
  }

  // ---- The parser ----

  datatype Parsed = Parsed(value: Value, rest: Bytes) | Failed(error: Error)
  datatype ParsedItems = Items(items: seq<Value>, rest: Bytes) | ItemsFailed(error: Error)

  /** One reply at the front of s: its value and the bytes after it, or why there is none. */
  function Parse(s: Bytes): (r: Parsed)
    ensures r.Parsed? ==> |r.rest| < |s|
    decreases |s|, 0
  {
    match ReadHeader(s)
    case NoHeader => Failed(EndOfInput)
    case Header(prefix, line, rest) =>
      if prefix == PLUS then Parsed(Str(line), rest)
      else if prefix == MINUS then Failed(ServerError(line))
      else if prefix == COLON then
        match Atoi(line)
        case None => Failed(BadNumber)
        case Some(n) => Parsed(Int(n), rest)
      else if prefix == DOLLAR then
        match Atoi(line)
        case None => Failed(BadNumber)
        case Some(size) => ParseBulk(size, rest)
      else if prefix == STAR then
        match Atoi(line)
        case None => Failed(BadNumber)
        case Some(size) => ParseArray(size, rest)
      else Failed(BadPrefix(prefix))
  }

  /** A bulk string of the given size and the two bytes after it, whatever they are. */
  function ParseBulk(size: int, s: Bytes): (r: Parsed)
    ensures r.Parsed? ==> |r.rest| <= |s|
  {
    if size < 0 then Parsed(Str([]), s)
    else if s == [] then Failed(EndOfInput)
    else if |s| < size + 2 then Failed(UnexpectedEnd)
    else Parsed(Str(s[..size]), s[size + 2..])
  }

  function ParseArray(size: int, s: Bytes): (r: Parsed)
    ensures r.Parsed? ==> |r.rest| <= |s|
    decreases |s|, 2
  {
    if size < 0 then Parsed(Arr([]), s)
    else
      match ParseItems(size, s)
      case Items(items, after) => Parsed(Arr(items), after)
      case ItemsFailed(e) => Failed(e)
  }

  function ParseItems(n: nat, s: Bytes): (r: ParsedItems)
    ensures r.Items? ==> |r.rest| <= |s| && |r.items| == n
    decreases |s|, 1
  {
    if n == 0 then Items([], s)
    else
      match Parse(s)
      case Failed(e) => ItemsFailed(e)
      case Parsed(v, rest) =>
        match ParseItems(n - 1, rest)
        case ItemsFailed(e) => ItemsFailed(e)
        case Items(items, after) => Items([v] + items, after)
  }

  /** A connection's unread bytes, consumed from the front. */
  class RespReader {
    var unread: Bytes

    constructor (input: Bytes)
      ensures unread == input
    {
      unread := input;
    }

    /** Reads one reply: exactly its bytes are consumed. */
    method Read() returns (r: Result<Value, Error>)
      modifies this
      ensures match Parse(old(unread))
              case Parsed(v, rest) => r == Ok(v) && unread == rest
              case Failed(e) => r == Err(e) && |unread| <= |old(unread)|
      decreases |unread|, 0
    {
      var header := ReadHeader(unread);
      if header.NoHeader? {
        unread := [];
        return Err(EndOfInput);
      }
      unread := header.rest;
      var prefix, line := header.prefix, header.line;
      if prefix == PLUS {
        return Ok(Str(line));
      } else if prefix == MINUS {
        return Err(ServerError(line));
      } else if prefix == COLON {
        var number := Atoi(line);
        return if number.None? then Err(BadNumber) else Ok(Int(number.value));
      } else if prefix == DOLLAR {
        r := ReadBulkString(line);
      } else if prefix == STAR {
        r := ReadArray(line);
      } else {
        return Err(BadPrefix(prefix));
      }
    }

    method ReadBulkString(line: Bytes) returns (r: Result<Value, Error>)
      modifies this
      ensures match Atoi(line)
              case None => r == Err(BadNumber) && unread == old(unread)
              case Some(size) =>
                && (match ParseBulk(size, old(unread))
                    case Parsed(v, rest) => r == Ok(v) && unread == rest
                    case Failed(e) => r == Err(e) && |unread| <= |old(unread)|)
                && (size < 0 ==> r == Ok(Str([])) && unread == old(unread))
                && (0 <= size <= |old(unread)| - 2 ==> r == Ok(Str(old(unread)[..size])) && unread == old(unread)[size + 2..])
                && (0 <= size && |old(unread)| - 2 < size ==> r.Err?)
    {
      var number := Atoi(line);
      if number.None? {
        return Err(BadNumber);
      }
      var size := number.value;
      if size < 0 {
        return Ok(Str([]));
      }
      if |unread| < size + 2 {
        r := Err(if unread == [] then EndOfInput else UnexpectedEnd);
        unread := [];
        return;
      }
      var buffer := unread[..size + 2];
      unread := unread[size + 2..];
      assert buffer[..size] == old(unread)[..size];
      return Ok(Str(buffer[..size]));
    }

    method ReadArray(line: Bytes) returns (r: Result<Value, Error>)
      modifies this
      ensures match Atoi(line)
              case None => r == Err(BadNumber) && unread == old(unread)
              case Some(size) =>
                match ParseArray(size, old(unread))
                case Parsed(v, rest) => r == Ok(v) && unread == rest
                case Failed(e) => r == Err(e) && |unread| <= |old(unread)|
      decreases |unread|, 2
    {
      var number := Atoi(line);
      if number.None? {
        return Err(BadNumber);
      }
      var size := number.value;
      if size < 0 {
        return Ok(Arr([]));
      }
      r := ReadItems(size);
    }

    method ReadItems(size: nat) returns (r: Result<Value, Error>)
      modifies this
      ensures match ParseItems(size, old(unread))
              case Items(items, rest) => r == Ok(Arr(items)) && unread == rest
              case ItemsFailed(e) => r == Err(e) && |unread| <= |old(unread)|
      decreases |unread|, 1
    {
      hide Parse, ParseItems;
      var items: seq<Value> := [];
      for i := 0 to size
        invariant |unread| <= |old(unread)| && |items| == i
        invariant ParseItems(size, old(unread)) == Prepend(items, ParseItems(size - i, unread))
      {
        PrependStep(items, size - i, unread);
        var item := Read();
        if item.Err? {
          return Err(item.error);
        }
        items := items + [item.value];
      }
      NoItemsLeft(items, unread);
      r := Ok(Arr(items));
    }
  }

  lemma NoItemsLeft(items: seq<Value>, s: Bytes)
    ensures Prepend(items, ParseItems(0, s)) == Items(items, s)
  {
    assert items + [] == items;
  }

  function Prepend(items: seq<Value>, r: ParsedItems): ParsedItems {
    if r.Items? then r.(items := items + r.items) else r
  }

  lemma PrependStep(items: seq<Value>, n: nat, s: Bytes)
    requires n > 0
    ensures Prepend(items, ParseItems(n, s)) ==
            match Parse(s)
            case Failed(e) => ItemsFailed(e)
            case Parsed(v, rest) => Prepend(items + [v], ParseItems(n - 1, rest))
  {
    hide Parse;
    if Parse(s).Parsed? {
      var tail := ParseItems(n - 1, Parse(s).rest);
      if tail.Items? {
        assert items + ([Parse(s).value] + tail.items) == items + [Parse(s).value] + tail.items;
      }
    }
  }

  // ---- The printer ----

  /** A reply as the server writes it. */
  datatype Wire =
    | Simple(line: Bytes)
    | Integer(n: int)
    | Bulk(bytes: Bytes)
    | NullBulk
    | Array(elements: seq<Wire>)
    | NullArray

  predicate WellFormed(w: Wire) {
    match w
    case Simple(line) => LF !in line
    case Integer(n) => MIN_INT64 <= n <= MAX_INT64
    case Bulk(bytes) => |bytes| <= MAX_INT64
    case Array(elements) => |elements| <= MAX_INT64 && forall e :: e in elements ==> WellFormed(e)
    case _ => true
  }

  function Print(w: Wire): Bytes {
    match w
    case Simple(line) => [PLUS] + line + CRLF
    case Integer(n) => [COLON] + Decimal(n) + CRLF
    case Bulk(bytes) => [DOLLAR] + Decimal(|bytes|) + CRLF + bytes + CRLF
    case NullBulk => [DOLLAR] + Decimal(-1) + CRLF
    case Array(elements) => [STAR] + Decimal(|elements|) + CRLF + PrintAll(elements)
    case NullArray => [STAR] + Decimal(-1) + CRLF
  }

  function PrintAll(ws: seq<Wire>): Bytes {
    if ws == [] then [] else Print(ws[0]) + PrintAll(ws[1..])
  }

  /** What a client holds after reading w. */
  function Denote(w: Wire): Value {
    match w
    case Simple(line) => Str(line)
    case Integer(n) => Int(n)
    case Bulk(bytes) => Str(bytes)
    case NullBulk => Str([])
    case Array(elements) => Arr(DenoteAll(elements))
    case NullArray => Arr([])
  }

  function DenoteAll(ws: seq<Wire>): (vs: seq<Value>)
    ensures |vs| == |ws|
  {
    if ws == [] then [] else [Denote(ws[0])] + DenoteAll(ws[1..])
  }

  lemma SimpleRoundTrip(line: Bytes, rest: Bytes)
    requires LF !in line
    ensures Parse(Print(Simple(line)) + rest) == Parsed(Str(line), rest)
  {
    hide ReadHeader;
    assert Print(Simple(line)) + rest == [PLUS] + line + CRLF + rest;
    HeaderOfPrinted(PLUS, line, rest);
  }

  lemma IntegerRoundTrip(n: int, rest: Bytes)
    requires MIN_INT64 <= n <= MAX_INT64
    ensures Parse(Print(Integer(n)) + rest) == Parsed(Int(n), rest)
  {
    hide ReadHeader, Atoi, Decimal;
    DecimalRoundTrip(n);
    assert Print(Integer(n)) + rest == [COLON] + Decimal(n) + CRLF + rest;
    HeaderOfPrinted(COLON, Decimal(n), rest);
  }

  /** A size line selects the bulk string or the array that follows it. */
  lemma SizeHeader(prefix: Byte, size: int, after: Bytes)
    requires prefix in {DOLLAR, STAR} && MIN_INT64 <= size <= MAX_INT64
    ensures Parse([prefix] + Decimal(size) + CRLF + after) ==
            if prefix == DOLLAR then ParseBulk(size, after) else ParseArray(size, after)
  {
    hide ReadHeader, Atoi, Decimal, ParseBulk, ParseArray;
    DecimalRoundTrip(size);
    HeaderOfPrinted(prefix, Decimal(size), after);
  }

  lemma BulkRoundTrip(bytes: Bytes, rest: Bytes)
    requires |bytes| <= MAX_INT64
    ensures Parse(Print(Bulk(bytes)) + rest) == Parsed(Str(bytes), rest)
  {
    hide Parse, Decimal;
    var after := bytes + CRLF + rest;
    assert Print(Bulk(bytes)) + rest == [DOLLAR] + Decimal(|bytes|) + CRLF + after;
    SizeHeader(DOLLAR, |bytes|, after);
    assert after[..|bytes|] == bytes;
    assert after[|bytes| + 2..] == rest;
  }

  /** Reading a printed reply returns its value and leaves exactly the bytes that follow it. */
  lemma {:induction false} ReplyRoundTrip(w: Wire, rest: Bytes)
    requires WellFormed(w)
    ensures Parse(Print(w) + rest) == Parsed(Denote(w), rest)
    decreases w
  {
    hide Parse, Decimal;
    match w
    case Simple(line) => SimpleRoundTrip(line, rest);
    case Integer(n) => IntegerRoundTrip(n, rest);
    case Bulk(bytes) => BulkRoundTrip(bytes, rest);
    case NullBulk => SizeHeader(DOLLAR, -1, rest);
    case NullArray => SizeHeader(STAR, -1, rest);
    case Array(elements) =>
      ItemsRoundTrip(elements, rest);
      var size, items := [STAR] + Decimal(|elements|) + CRLF, PrintAll(elements);
      assert (size + items) + rest == size + (items + rest);
      SizeHeader(STAR, |elements|, items + rest);
  }

  lemma {:induction false} ItemsRoundTrip(ws: seq<Wire>, rest: Bytes)
    requires forall w :: w in ws ==> WellFormed(w)
    ensures ParseItems(|ws|, PrintAll(ws) + rest) == Items(DenoteAll(ws), rest)
    decreases ws
  {
    hide Parse, Print, WellFormed;
    if ws == [] {
      assert PrintAll(ws) + rest == rest;
    } else {
      var after := PrintAll(ws[1..]) + rest;
      assert PrintAll(ws) + rest == Print(ws[0]) + after;
      ReplyRoundTrip(ws[0], after);
      ItemsRoundTrip(ws[1..], rest);
    }
  }

  /** An error reply surfaces its own message. */
  lemma ErrorReply(message: Bytes, rest: Bytes)
    requires LF !in message
    ensures Parse([MINUS] + message + CRLF + rest) == Failed(ServerError(message))
  {
    HeaderOfPrinted(MINUS, message, rest);
  }

  // ---- Commands ----

  function BulkStrings(parts: seq<Bytes>): (ws: seq<Wire>)
    ensures |ws| == |parts|
  {
    if parts == [] then [] else [Bulk(parts[0])] + BulkStrings(parts[1..])
  }

  function Strings(parts: seq<Bytes>): seq<Value> {
    if parts == [] then [] else [Str(parts[0])] + Strings(parts[1..])
  }

  method WriteCommand(command: seq<Bytes>) returns (builder: Bytes)
    ensures builder == Print(Array(BulkStrings(command)))
  {
    hide Decimal;
    builder := [STAR];
    builder := builder + Decimal(|command|);
    builder := builder + CRLF;
    ghost var whole := builder + PrintAll(BulkStrings(command));
    for i := 0 to |command|
      invariant whole == builder + PrintAll(BulkStrings(command[i..]))
    {
      var part := command[i];
      ghost var before, after := builder, PrintAll(BulkStrings(command[i + 1..]));
      builder := builder + [DOLLAR];
      builder := builder + Decimal(|part|);
      builder := builder + CRLF;
      builder := builder + part;
      builder := builder + CRLF;
      PrintedPart(command, i, before, builder, after);
    }
    assert command[|command|..] == [];
    assert builder + [] == builder;
  }

  lemma PrintedPart(command: seq<Bytes>, i: nat, before: Bytes, builder: Bytes, after: Bytes)
    requires i < |command| && after == PrintAll(BulkStrings(command[i + 1..]))
    requires builder == before + [DOLLAR] + Decimal(|command[i]|) + CRLF + command[i] + CRLF
    ensures before + PrintAll(BulkStrings(command[i..])) == builder + after
  {
    hide Decimal;
    assert command[i..][1..] == command[i + 1..];
    var printed := Print(Bulk(command[i]));
    assert builder == before + printed;
    assert before + (printed + after) == (before + printed) + after;
  }

  /** A command's arguments come back byte for byte, line endings inside them included. */
  lemma CommandRoundTrip(command: seq<Bytes>, rest: Bytes)
    requires |command| <= MAX_INT64 && forall part :: part in command ==> |part| <= MAX_INT64
    ensures Parse(Print(Array(BulkStrings(command))) + rest) == Parsed(Arr(Strings(command)), rest)
  {
    BulkStringsDenoteStrings(command);
    ReplyRoundTrip(Array(BulkStrings(command)), rest);
  }

  lemma {:induction false} BulkStringsDenoteStrings(parts: seq<Bytes>)
    requires forall part :: part in parts ==> |part| <= MAX_INT64
    ensures forall w :: w in BulkStrings(parts) ==> WellFormed(w)
    ensures DenoteAll(BulkStrings(parts)) == Strings(parts)
  {
    if parts != [] {
      BulkStringsDenoteStrings(parts[1..]);
    }
  }

  lemma {:induction false} StringsInjective(a: seq<Bytes>, b: seq<Bytes>)
    requires Strings(a) == Strings(b)
    ensures a == b
  {
    if a != [] && b != [] {
      assert Strings(a)[0] == Strings(b)[0] && Strings(a)[1..] == Strings(b)[1..];
      StringsInjective(a[1..], b[1..]);
    }
  }

  /** No command's bytes begin another command's bytes: a written stream splits in one way only. */
  lemma CommandsAreUnambiguous(a: seq<Bytes>, b: seq<Bytes>, afterA: Bytes, afterB: Bytes)
    requires |a| <= MAX_INT64 && forall part :: part in a ==> |part| <= MAX_INT64
    requires |b| <= MAX_INT64 && forall part :: part in b ==> |part| <= MAX_INT64
    requires Print(Array(BulkStrings(a))) + afterA == Print(Array(BulkStrings(b))) + afterB
    ensures a == b && afterA == afterB
  {
    CommandRoundTrip(a, afterA);
    CommandRoundTrip(b, afterB);
    StringsInjective(a, b);
  }

  // ---- Input that has not all arrived ----

  lemma {:induction false} LineFeedStays(s: Bytes, more: Bytes)
    requires LineFeed(s) < |s|
    ensures LineFeed(s + more) == LineFeed(s)
  {
    if s[0] != LF {
      assert (s + more)[1..] == s[1..] + more;
      LineFeedStays(s[1..], more);
    }
  }

  lemma HeaderStays(s: Bytes, more: Bytes)
    requires ReadHeader(s).Header?
    ensures var h := ReadHeader(s); ReadHeader(s + more) == Header(h.prefix, h.line, h.rest + more)
  {
    hide DropCR, LineFeed;
    var t, n := s[1..], LineFeed(s[1..]);
    assert (s + more)[1..] == t + more;
    LineFeedStays(t, more);
    assert (t + more)[..n] == t[..n];
    assert (t + more)[n + 1..] == t[n + 1..] + more;
  }

  lemma BulkStays(size: int, s: Bytes, more: Bytes)
    requires ParseBulk(size, s).Parsed?
    ensures var r := ParseBulk(size, s); ParseBulk(size, s + more) == Parsed(r.value, r.rest + more)
  {
    if size >= 0 {
      assert (s + more)[..size] == s[..size];
      assert (s + more)[size + 2..] == s[size + 2..] + more;
    }
  }

  /** A reply that has been read is the same whatever arrives after it. */
  lemma {:induction false} ReplyStays(s: Bytes, more: Bytes)
    requires Parse(s).Parsed?
    ensures var r := Parse(s); Parse(s + more) == Parsed(r.value, r.rest + more)
    decreases |s|, 0
  {
    hide ReadHeader, ParseBulk, Atoi;
    HeaderStays(s, more);
    var h := ReadHeader(s);
    if h.prefix == DOLLAR {
      BulkStays(Atoi(h.line).value, h.rest, more);
    } else if h.prefix == STAR && Atoi(h.line).value >= 0 {
      ItemsStay(Atoi(h.line).value, h.rest, more);
    }
  }

  lemma {:induction false} ItemsStay(n: nat, s: Bytes, more: Bytes)
    requires ParseItems(n, s).Items?
    ensures var r := ParseItems(n, s); ParseItems(n, s + more) == Items(r.items, r.rest + more)
    decreases |s|, 1
  {
    hide Parse;
    if n > 0 {
      ReplyStays(s, more);
      ItemsStay(n - 1, Parse(s).rest, more);
    }
  }

  /** A reply that is cut short, wherever and however deeply nested, is never taken for a whole one. */
  lemma CutRepliesAreRefused(w: Wire, k: nat)
    requires WellFormed(w) && k < |Print(w)|
    ensures Parse(Print(w)[..k]).Failed?
  {
    hide Parse, Print, WellFormed;
    var all := Print(w);
    ReplyRoundTrip(w, []);
    assert all + [] == all == all[..k] + all[k..];
    if Parse(all[..k]).Parsed? {
      ReplyStays(all[..k], all[k..]);
      assert false;
    }
  }

  /** The texts that are read as a number: digits, at least one, after one sign or none, of a value that fits
      in 64 bits; leading zeros do not matter. */
  lemma NumbersRead(digits: Bytes, sign: Bytes)
    requires digits != [] && AllDigits(digits) && sign in {[], [PLUS], [MINUS]}
    ensures
      var magnitude: int := Magnitude(digits);
      var n := if sign == [MINUS] then -magnitude else magnitude;
      Atoi(sign + digits) == if MIN_INT64 <= n <= MAX_INT64 then Some(n) else None
  {
    hide Magnitude;
    if sign == [] {
      assert sign + digits == digits && digits[0] !in {PLUS, MINUS};
    } else {
      assert (sign + digits)[1..] == digits && (sign + digits)[0] == sign[0];
    }
  }

  lemma {:induction false} LeadingZero(digits: Bytes)
    requires AllDigits(digits)
    ensures AllDigits([48] + digits) && Magnitude([48] + digits) == Magnitude(digits)
  {
    if digits != [] {
      var front := digits[..|digits| - 1];
      assert ([48] + digits)[..|digits|] == [48] + front;
      LeadingZero(front);
    } else {
      assert ([48] + digits)[..0] == [];
    }
  }

  lemma OtherTextsAreNoNumbers(s: Bytes, i: nat)
    requires i < |s| && !(48 <= s[i] <= 57) && (i > 0 || s[0] !in {PLUS, MINUS} || |s| == 1)
    ensures Atoi(s) == None && Atoi([]) == None
  {
    if i > 0 && s[0] in {PLUS, MINUS} {
      assert s[1..][i - 1] == s[i];
    }
  }
}
