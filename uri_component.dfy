/** `encodeURIComponent` and its inverse `decodeURIComponent`, as ECMAScript
    defines them (ECMA-262, section 19.2.6, "URI Handling Functions"): every
    character outside the unreserved set is written as the "%XY" escapes of
    its UTF-8 bytes, with upper-case hexadecimal digits. A Dafny `char` is a
    Unicode scalar value, so the lone-surrogate error of the JavaScript
    function cannot arise here. */
module UriComponent {
  import opened Wrappers

  type Byte = b: int | 0 <= b < 256

  /** The characters `encodeURIComponent` copies unchanged. */
  predicate Unreserved(c: char) {
    || 'A' <= c <= 'Z' || 'a' <= c <= 'z' || '0' <= c <= '9'
    || c == '-' || c == '_' || c == '.' || c == '!' || c == '~'
    || c == '*' || c == '\'' || c == '(' || c == ')'
  }

  /** UTF-8 encoding of one scalar value, six payload bits per continuation byte. */
  function Utf8(c: char): (bs: seq<Byte>)
    ensures 1 <= |bs| <= 4
  {
    var n := c as int;
    var q1, r0 := n / 64, n % 64;
    var q2, r1 := q1 / 64, q1 % 64;
    var q3, r2 := q2 / 64, q2 % 64;
    if n < 0x80 then [n]
    else if n < 0x800 then [0xC0 + q1, 0x80 + r0]
    else if n < 0x10000 then [0xE0 + q2, 0x80 + r1, 0x80 + r0]
    else [0xF0 + q3, 0x80 + r2, 0x80 + r1, 0x80 + r0]
  }

  /** How many bytes a UTF-8 sequence starting with `b` has; 0 if `b` cannot start one. */
  function LeadLength(b: Byte): nat {
    if b < 0x80 then 1
    else if 0xC0 <= b < 0xE0 then 2
    else if 0xE0 <= b < 0xF0 then 3
    else if 0xF0 <= b < 0xF8 then 4
    else 0
  }

  /** The marker bits of a lead byte of a sequence of `len` bytes. */
  function LeadBase(len: nat): nat {
    if len == 2 then 0xC0 else if len == 3 then 0xE0 else 0xF0
  }

  /** The smallest scalar value that needs `len` bytes (anything smaller is overlong). */
  function MinScalar(len: nat): nat {
    if len == 2 then 0x80 else if len == 3 then 0x800 else 0x10000
  }

  predicate IsContinuation(b: Byte) {
    0x80 <= b < 0xC0
  }

  /** Appends the six payload bits of each continuation byte to `acc`. */
  function Accumulate(acc: int, conts: seq<Byte>): int
    decreases |conts|
  {
    if conts == [] then acc else Accumulate(64 * acc + (conts[0] as int - 0x80), conts[1..])
  }

  /** The scalar value a complete UTF-8 sequence stands for; `None` for a
      malformed, overlong or surrogate sequence. */
  function FromUtf8(bs: seq<Byte>): Option<char> {
    if |bs| == 0 || LeadLength(bs[0]) != |bs| then None
    else if |bs| == 1 then Some(bs[0] as char)
    else if exists i :: 1 <= i < |bs| && !IsContinuation(bs[i]) then None
    else
      var n := Accumulate(bs[0] as int - LeadBase(|bs|), bs[1..]);
      if MinScalar(|bs|) <= n <= 0x10FFFF && !(0xD800 <= n < 0xE000) then Some(n as char) else None
  }

  /** The UTF-8 encoding of a character decodes back to that character. */
  lemma Utf8RoundTrip(c: char)
    ensures LeadLength(Utf8(c)[0]) == |Utf8(c)|
    ensures FromUtf8(Utf8(c)) == Some(c)
  {
    var n := c as int;
    var bs := Utf8(c);
    var q1, r0 := n / 64, n % 64;
    var q2, r1 := q1 / 64, q1 % 64;
    var q3, r2 := q2 / 64, q2 % 64;
    assert n == 64 * q1 + r0 && q1 == 64 * q2 + r1 && q2 == 64 * q3 + r2;
    if n < 0x80 {
    } else if n < 0x800 {
      assert bs[1..] == [0x80 + r0];
      assert Accumulate(q1, bs[1..]) == n by {
        assert Accumulate(64 * q1 + r0, []) == n;
      }
    } else if n < 0x10000 {
      assert bs[1..] == [0x80 + r1, 0x80 + r0];
      assert [0x80 + r1, 0x80 + r0][1..] == [0x80 + r0];
      assert Accumulate(64 * q2 + r1, [0x80 + r0]) == n by {
        assert Accumulate(64 * q1 + r0, []) == n;
      }
    } else {
      assert bs == [0xF0 + q3, 0x80 + r2, 0x80 + r1, 0x80 + r0];
      assert bs[1..] == [0x80 + r2, 0x80 + r1, 0x80 + r0];
      assert [0x80 + r2, 0x80 + r1, 0x80 + r0][1..] == [0x80 + r1, 0x80 + r0];
      assert [0x80 + r1, 0x80 + r0][1..] == [0x80 + r0];
      assert Accumulate(64 * q2 + r1, [0x80 + r0]) == n by {
        assert Accumulate(64 * q1 + r0, []) == n;
      }
      assert Accumulate(64 * q3 + r2, [0x80 + r1, 0x80 + r0]) == n;
      assert Accumulate(q3, bs[1..]) == n;
    }
  }

  function HexDigit(d: nat): (c: char)
    requires d < 16
    ensures Unreserved(c)
  {
    "0123456789ABCDEF"[d]
  }

  /** The value of a hexadecimal digit of either case. */
  function HexValue(c: char): Option<nat> {
    if '0' <= c <= '9' then Some(c as int - '0' as int)
    else if 'A' <= c <= 'F' then Some(c as int - 'A' as int + 10)
    else if 'a' <= c <= 'f' then Some(c as int - 'a' as int + 10)
    else None
  }

  lemma HexRoundTrip(d: nat)
    requires d < 16
    ensures HexValue(HexDigit(d)) == Some(d)
  {
  }

  /** One byte written as "%XY". */
  function Escape(b: Byte): (s: string)
    ensures |s| == 3
  {
    ['%', HexDigit(b / 16), HexDigit(b % 16)]
  }

  function EscapeAll(bs: seq<Byte>): (s: string)
    ensures |s| == 3 * |bs|
  {
    if bs == [] then "" else Escape(bs[0]) + EscapeAll(bs[1..])
  }

  /** `encodeURIComponent(s)`. */
  function Encode(s: string): string {
    if s == [] then "" else EncodeChar(s[0]) + Encode(s[1..])
  }

  function EncodeChar(c: char): string {
    if Unreserved(c) then [c] else EscapeAll(Utf8(c))
  }

  /** The byte escaped as "%XY" at the front of `s`, if it starts with one. */
  function EscapedByte(s: string): Option<Byte> {
    if |s| < 3 || s[0] != '%' then None
    else match (HexValue(s[1]), HexValue(s[2]))
      case (Some(hi), Some(lo)) => Some(16 * hi + lo)
      case _ => None
  }

  /** The `k` escaped bytes at the front of `s`. */
  function EscapedBytes(s: string, k: nat): (r: Option<seq<Byte>>)
    ensures r.Some? ==> |r.value| == k && 3 * k <= |s|
  {
    if k == 0 then Some([])
    else match EscapedByte(s)
      case None => None
      case Some(b) =>
        match EscapedBytes(s[3..], k - 1)
        case None => None
        case Some(bs) => Some([b] + bs)
  }

  /** The character written as escapes at the front of `s`, with the number
      of characters of `s` it takes up. */
  function DecodeEscapes(s: string): (r: Option<(char, nat)>)
    ensures r.Some? ==> 3 <= r.value.1 <= |s|
  {
    match EscapedByte(s)
    case None => None
    case Some(b0) =>
      var len := LeadLength(b0);
      if len == 0 then None
      else match EscapedBytes(s, len)
        case None => None
        case Some(bs) =>
          match FromUtf8(bs)
          case None => None
          case Some(c) => Some((c, 3 * len))
  }

  function Prepend(c: char, r: Option<string>): Option<string> {
    match r
    case None => None
    case Some(t) => Some([c] + t)
  }

  /** `decodeURIComponent(s)`; `None` where JavaScript throws a URIError. */
  function Decode(s: string): Option<string>
    decreases |s|
  {
    if s == [] then Some("")
    else if s[0] != '%' then Prepend(s[0], Decode(s[1..]))
    else match DecodeEscapes(s)
      case None => None
      case Some((c, used)) => Prepend(c, Decode(s[used..]))
  }

  lemma EscapedByteOf(b: Byte, rest: string)
    ensures EscapedByte(Escape(b) + rest) == Some(b)
  {
    HexRoundTrip(b / 16);
    HexRoundTrip(b % 16);
  }

  lemma {:induction false} EscapedBytesOf(bs: seq<Byte>, rest: string)
    ensures EscapedBytes(EscapeAll(bs) + rest, |bs|) == Some(bs)
  {
    if bs != [] {
      var tail := EscapeAll(bs[1..]) + rest;
      var s := Escape(bs[0]) + tail;
      assert EscapeAll(bs) + rest == s;
      EscapedByteOf(bs[0], tail);
      assert s[3..] == tail;
      EscapedBytesOf(bs[1..], rest);
      assert [bs[0]] + bs[1..] == bs;
    }
  }

  /** The escapes of a character's UTF-8 bytes decode to that character. */
  lemma DecodeEscapesOf(c: char, rest: string)
    ensures DecodeEscapes(EscapeAll(Utf8(c)) + rest) == Some((c, 3 * |Utf8(c)|))
  {
    var bs := Utf8(c);
    var s := EscapeAll(bs) + rest;
    Utf8RoundTrip(c);
    assert s == Escape(bs[0]) + (EscapeAll(bs[1..]) + rest);
    EscapedByteOf(bs[0], EscapeAll(bs[1..]) + rest);
    EscapedBytesOf(bs, rest);
  }

  /** Decoding reads one encoded character back and goes on with the rest. */
  lemma DecodeEncodedChar(c: char, rest: string)
    ensures Decode(EncodeChar(c) + rest) == Prepend(c, Decode(rest))
  {
    var s := EncodeChar(c) + rest;
    if Unreserved(c) {
      assert s[1..] == rest;
    } else {
      DecodeEscapesOf(c, rest);
      assert s[3 * |Utf8(c)|..] == rest;
    }
  }

  /** `decodeURIComponent(encodeURIComponent(s)) == s`. */
  lemma {:induction false} DecodeEncode(s: string)
    ensures Decode(Encode(s)) == Some(s)
  {
    if s != [] {
      DecodeEncode(s[1..]);
      DecodeEncodedChar(s[0], Encode(s[1..]));
      assert [s[0]] + s[1..] == s;
    }
  }

  /** The encoding uses only unreserved characters and '%': no '?', '&', '#',
      '=' or space can end up in a query string built from it. */
  lemma {:induction false} EncodeAlphabet(s: string)
    ensures forall c :: c in Encode(s) ==> Unreserved(c) || c == '%'
  {
    if s != [] {
      EncodeAlphabet(s[1..]);
      if !Unreserved(s[0]) {
        EscapeAllAlphabet(Utf8(s[0]));
      }
    }
  }

  lemma {:induction false} EscapeAllAlphabet(bs: seq<Byte>)
    ensures forall c :: c in EscapeAll(bs) ==> Unreserved(c) || c == '%'
  {
    if bs != [] {
      EscapeAllAlphabet(bs[1..]);
    }
  }
}
