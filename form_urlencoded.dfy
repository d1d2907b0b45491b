// The application/x-www-form-urlencoded byte codec that serde_urlencoded and
// the url crate's `query_pairs_mut` both write names and values with
// (`form_urlencoded::byte_serialize`), and that `form_urlencoded::parse`
// reads them back with. A text is written as its UTF-8 bytes: the bytes of
// `*`, `-`, `.`, `_`, the digits and the ASCII letters stay as they are, a
// space becomes `+`, and every other byte becomes `%` and two upper-case
// hex digits. Reading undoes that and decodes the bytes as UTF-8.
module FormUrlencoded {
  type byte = x: int | 0 <= x < 0x100

  // UTF-8

  /** The UTF-8 encoding of one scalar value: one byte below 0x80, otherwise a lead byte and continuation bytes. */
  function Utf8(c: char): (bs: seq<byte>)
    ensures 1 <= |bs| <= 4
    ensures |bs| == 1 <==> c as int < 0x80
    ensures |bs| == 1 ==> bs[0] == c as int
    ensures |bs| > 1 ==> 0xC0 <= bs[0]
  {
    var n := c as int;
    if n < 0x80 then [n]
    else if n < 0x800 then [0xC0 + n / 0x40, 0x80 + n % 0x40]
    else if n < 0x1_0000 then [0xE0 + n / 0x1000, 0x80 + n / 0x40 % 0x40, 0x80 + n % 0x40]
    else [0xF0 + n / 0x4_0000, 0x80 + n / 0x1000 % 0x40, 0x80 + n / 0x40 % 0x40, 0x80 + n % 0x40]
  }

  /** `str::as_bytes`: the UTF-8 bytes of a text, character by character. */
  function Utf8Bytes(s: string): (bs: seq<byte>)
    ensures |bs| >= |s|
  {
    if s == [] then [] else Utf8(s[0]) + Utf8Bytes(s[1..])
  }

  lemma {:induction false} Utf8BytesAppend(a: string, b: string)
    ensures Utf8Bytes(a + b) == Utf8Bytes(a) + Utf8Bytes(b)
  {
    if a == [] {
      assert a + b == b;
    } else {
      assert (a + b)[1..] == a[1..] + b;
      Utf8BytesAppend(a[1..], b);
    }
  }

  predicate Continuation(b: byte)
  {
    0x80 <= b < 0xC0
  }

  /** What a byte that starts no well-formed sequence reads as: U+FFFD, taking that one byte. */
  const Replacement: (char, nat) := (0xFFFD as char, 1)

  /**
   * The scalar value at the front of `bs` and the number of bytes it takes.
   * Overlong forms, surrogates and values past U+10FFFF are not well formed.
   */
  function ReadChar(bs: seq<byte>): (r: (char, nat))
    requires |bs| > 0
    ensures 1 <= r.1 <= |bs|
  {
    var b0: int, b1: int, b2: int, b3: int :=
      bs[0], if |bs| > 1 then bs[1] else 0, if |bs| > 2 then bs[2] else 0, if |bs| > 3 then bs[3] else 0;
    if b0 < 0x80 then (b0 as char, 1)
    else if 0xC0 <= b0 < 0xE0 && |bs| >= 2 && Continuation(bs[1]) then
      var n := (b0 - 0xC0) * 0x40 + (b1 - 0x80);
      if 0x80 <= n then (n as char, 2) else Replacement
    else if 0xE0 <= b0 < 0xF0 && |bs| >= 3 && Continuation(bs[1]) && Continuation(bs[2]) then
      var n := (b0 - 0xE0) * 0x1000 + (b1 - 0x80) * 0x40 + (b2 - 0x80);
      if 0x800 <= n && !(0xD800 <= n < 0xE000) then (n as char, 3) else Replacement
    else if 0xF0 <= b0 < 0xF8 && |bs| >= 4 && Continuation(bs[1]) && Continuation(bs[2]) && Continuation(bs[3]) then
      var n := (b0 - 0xF0) * 0x4_0000 + (b1 - 0x80) * 0x1000 + (b2 - 0x80) * 0x40 + (b3 - 0x80);
      if 0x1_0000 <= n < 0x11_0000 then (n as char, 4) else Replacement
    else Replacement
  }

  /** `decode_utf8_lossy`: the bytes read as UTF-8, one replacement character per byte that starts no well-formed sequence. */
  function Utf8Decode(bs: seq<byte>): string
    decreases |bs|
  {
    if bs == [] then []
    else
      var r := ReadChar(bs);
      [r.0] + Utf8Decode(bs[r.1..])
  }

  /** The encoding of a character, followed by anything, reads back as that character and takes exactly its bytes. */
  lemma ReadUtf8(c: char, rest: seq<byte>)
    ensures ReadChar(Utf8(c) + rest) == (c, |Utf8(c)|)
  {
    var n := c as int;
    if n < 0x80 {
    } else if n < 0x800 {
      ReadTwo(c, rest);
    } else if n < 0x1_0000 {
      ReadThree(c, rest);
    } else {
      ReadFour(c, rest);
    }
  }

  lemma ReadTwo(c: char, rest: seq<byte>)
    requires 0x80 <= c as int < 0x800
    ensures ReadChar(Utf8(c) + rest) == (c, 2)
  {
    var n := c as int;
    var q, r := n / 0x40, n % 0x40;
    assert n == q * 0x40 + r && 0 <= r < 0x40 && 2 <= q < 0x20;
    var bs := Utf8(c) + rest;
    assert bs[0] == 0xC0 + q && bs[1] == 0x80 + r;
  }

  lemma ReadThree(c: char, rest: seq<byte>)
    requires 0x800 <= c as int < 0x1_0000
    ensures ReadChar(Utf8(c) + rest) == (c, 3)
  {
    var n := c as int;
    var q, m, r := n / 0x1000, n / 0x40 % 0x40, n % 0x40;
    Digits3(n);
    var bs := Utf8(c) + rest;
    assert bs[0] == 0xE0 + q && bs[1] == 0x80 + m && bs[2] == 0x80 + r;
  }

  lemma Digits3(n: int)
    requires 0x800 <= n < 0x1_0000
    ensures n == n / 0x1000 * 0x1000 + n / 0x40 % 0x40 * 0x40 + n % 0x40
    ensures 0 <= n / 0x1000 < 0x10 && 0 <= n / 0x40 % 0x40 < 0x40 && 0 <= n % 0x40 < 0x40
  {
    var h := n / 0x40;
    assert n == h * 0x40 + n % 0x40;
    assert h == h / 0x40 * 0x40 + h % 0x40;
    assert h / 0x40 == n / 0x1000;
  }

  lemma ReadFour(c: char, rest: seq<byte>)
    requires 0x1_0000 <= c as int
    ensures ReadChar(Utf8(c) + rest) == (c, 4)
  {
    var n := c as int;
    var q, m1, m2, r := n / 0x4_0000, n / 0x1000 % 0x40, n / 0x40 % 0x40, n % 0x40;
    Digits4(n);
    var bs := Utf8(c) + rest;
    assert bs[0] == 0xF0 + q && bs[1] == 0x80 + m1 && bs[2] == 0x80 + m2 && bs[3] == 0x80 + r;
  }

  lemma Digits4(n: int)
    requires 0x1_0000 <= n < 0x11_0000
    ensures n == n / 0x4_0000 * 0x4_0000 + n / 0x1000 % 0x40 * 0x1000 + n / 0x40 % 0x40 * 0x40 + n % 0x40
    ensures 0 <= n / 0x4_0000 <= 4 && 0 <= n / 0x1000 % 0x40 < 0x40 && 0 <= n / 0x40 % 0x40 < 0x40 && 0 <= n % 0x40 < 0x40
  {
    var h := n / 0x40;
    assert n == h * 0x40 + n % 0x40;
    var g := h / 0x40;
    assert h == g * 0x40 + h % 0x40;
    assert g == n / 0x1000;
    assert g == g / 0x40 * 0x40 + g % 0x40;
    assert g / 0x40 == n / 0x4_0000;
  }

  /** Decoding the UTF-8 bytes of a text gives the text. */
  lemma {:induction false} Utf8RoundTrip(s: string)
    ensures Utf8Decode(Utf8Bytes(s)) == s
  {
    if s != [] {
      var bs := Utf8Bytes(s);
      ReadUtf8(s[0], Utf8Bytes(s[1..]));
      assert bs[|Utf8(s[0])|..] == Utf8Bytes(s[1..]);
      Utf8RoundTrip(s[1..]);
    }
  }

  // Percent-encoding

  /** The bytes written as they are: `*`, `-`, `.`, `_`, the digits and the ASCII letters. */
  predicate Unreserved(b: int)
  {
    b == 0x2A || b == 0x2D || b == 0x2E || b == 0x5F
    || 0x30 <= b <= 0x39 || 0x41 <= b <= 0x5A || 0x61 <= b <= 0x7A
  }

  /** A text of unreserved characters only. */
  predicate UnreservedText(s: string)
  {
    forall i :: 0 <= i < |s| ==> Unreserved(s[i] as int)
  }

  /** A character of the encoded alphabet: an unreserved character, `+` or `%`. */
  predicate FormChar(c: char)
  {
    Unreserved(c as int) || c == '+' || c == '%'
  }

  /** An upper-case hex digit. */
  function HexDigit(d: int): (c: char)
    requires 0 <= d < 16
    ensures Unreserved(c as int)
  {
    if d < 10 then (0x30 + d) as char else (0x41 + d - 10) as char
  }

  predicate IsHex(b: int)
  {
    0x30 <= b <= 0x39 || 0x41 <= b <= 0x46 || 0x61 <= b <= 0x66
  }

  /** The value of a hex digit of either case. */
  function HexValue(b: int): (d: int)
    requires IsHex(b)
    ensures 0 <= d < 16
  {
    if b <= 0x39 then b - 0x30 else if b <= 0x46 then b - 0x41 + 10 else b - 0x61 + 10
  }

  lemma HexDigitValue(d: int)
    requires 0 <= d < 16
    ensures IsHex(HexDigit(d) as int) && HexValue(HexDigit(d) as int) == d
  {
  }

  /** One byte as the serialiser writes it. */
  function EncodeByte(b: byte): (s: string)
    ensures 1 <= |s| <= 3
  {
    if Unreserved(b) then [b as char]
    else if b == 0x20 then "+"
    else ['%', HexDigit(b / 16), HexDigit(b % 16)]
  }

  function EncodeBytes(bs: seq<byte>): (s: string)
    ensures |s| >= |bs|
  {
    if bs == [] then "" else EncodeByte(bs[0]) + EncodeBytes(bs[1..])
  }

  /** One character as the serialiser writes its UTF-8 bytes; a character below 0x80 is its own byte. */
  function EncodeChar(c: char): (e: string)
    ensures 1 <= |e|
  {
    if c as int < 0x80 then EncodeByte(c as int) else EncodeBytes(Utf8(c))
  }

  /** `byte_serialize`: a name or a value as the form serialiser writes it, character by character. */
  function Encode(s: string): (e: string)
    ensures |e| >= |s|
  {
    if s == [] then "" else EncodeChar(s[0]) + Encode(s[1..])
  }

  lemma EncodeCharBytes(c: char)
    ensures EncodeChar(c) == EncodeBytes(Utf8(c))
  {
    if c as int < 0x80 {
      assert EncodeBytes(Utf8(c)) == EncodeByte(c as int) + EncodeBytes([]);
    }
  }

  /** Writing character by character is writing the UTF-8 bytes of the whole text. */
  lemma {:induction false} EncodeIsBytes(s: string)
    ensures Encode(s) == EncodeBytes(Utf8Bytes(s))
  {
    if s != [] {
      EncodeCharBytes(s[0]);
      EncodeIsBytes(s[1..]);
      EncodeBytesAppend(Utf8(s[0]), Utf8Bytes(s[1..]));
    }
  }

  /** Every byte is written in the encoded alphabet. */
  lemma EncodeByteAlphabet(b: byte)
    ensures forall i :: 0 <= i < |EncodeByte(b)| ==> FormChar(EncodeByte(b)[i])
  {
  }

  lemma {:induction false} EncodeBytesAlphabet(bs: seq<byte>)
    ensures forall i :: 0 <= i < |EncodeBytes(bs)| ==> FormChar(EncodeBytes(bs)[i])
  {
    if bs != [] {
      EncodeByteAlphabet(bs[0]);
      EncodeBytesAlphabet(bs[1..]);
      var a, b := EncodeByte(bs[0]), EncodeBytes(bs[1..]);
      forall i | 0 <= i < |a + b| ensures FormChar((a + b)[i]) {
        if i >= |a| {
          assert (a + b)[i] == b[i - |a|];
        }
      }
    }
  }

  /** An encoded text holds no `&` and no `=`, so it never splits a pair or a piece. */
  lemma EncodeNoSeparators(s: string)
    ensures '&' !in Encode(s) && '=' !in Encode(s)
  {
    EncodeIsBytes(s);
    EncodeBytesAlphabet(Utf8Bytes(s));
    assert !FormChar('&') && !FormChar('=');
  }

  lemma {:induction false} EncodeBytesAppend(a: seq<byte>, b: seq<byte>)
    ensures EncodeBytes(a + b) == EncodeBytes(a) + EncodeBytes(b)
  {
    if a == [] {
      assert a + b == b;
    } else {
      assert (a + b)[1..] == a[1..] + b;
      EncodeBytesAppend(a[1..], b);
    }
  }

  /** Encoding goes character by character. */
  lemma {:induction false} EncodeAppend(a: string, b: string)
    ensures Encode(a + b) == Encode(a) + Encode(b)
  {
    if a == [] {
      assert a + b == b;
    } else {
      assert (a + b)[1..] == a[1..] + b;
      EncodeAppend(a[1..], b);
    }
  }

  /** A character is written as itself exactly when it is unreserved; anything else takes another form. */
  lemma EncodeCharShape(c: char)
    ensures EncodeChar(c) == [c] <==> Unreserved(c as int)
  {
    if c as int >= 0x80 {
      var bs := Utf8(c);
      assert EncodeBytes(bs) == EncodeByte(bs[0]) + EncodeBytes(bs[1..]);
    }
  }

  /** A text is written unchanged exactly when every character of it is unreserved. */
  lemma {:induction false} EncodeUnchanged(s: string)
    ensures Encode(s) == s <==> UnreservedText(s)
  {
    if s != [] {
      EncodeCharShape(s[0]);
      EncodeUnchanged(s[1..]);
      var e0 := EncodeChar(s[0]);
      var er := Encode(s[1..]);
      if Encode(s) == s {
        assert |e0| == 1 && |er| == |s| - 1;
        assert e0 == Encode(s)[..1] && er == Encode(s)[1..];
        assert e0 == [s[0]];
        forall i | 0 <= i < |s| ensures Unreserved(s[i] as int) {
          if i > 0 {
            assert s[i] == s[1..][i - 1];
          }
        }
      }
      if UnreservedText(s) {
        assert Unreserved(s[0] as int);
        forall i | 0 <= i < |s[1..]| ensures Unreserved(s[1..][i] as int) {
          assert s[1..][i] == s[i + 1];
        }
        assert s == [s[0]] + s[1..];
      }
    }
  }

  /** A text of unreserved characters is written as it is. */
  lemma UnreservedUnchanged(s: string)
    requires UnreservedText(s)
    ensures Encode(s) == s
  {
    EncodeUnchanged(s);
  }

  // Decoding

  /**
   * `percent_decode` after `replace_plus`, on the bytes of a name or value:
   * `%` and two hex digits of either case give that byte, `+` gives a space,
   * any other byte (a `%` not followed by two hex digits too) stays.
   */
  function PercentDecode(bs: seq<byte>): seq<byte>
  {
    if bs == [] then []
    else if bs[0] == 0x25 && |bs| >= 3 && IsHex(bs[1]) && IsHex(bs[2]) then
      [HexValue(bs[1]) * 16 + HexValue(bs[2])] + PercentDecode(bs[3..])
    else [if bs[0] == 0x2B then 0x20 else bs[0]] + PercentDecode(bs[1..])
  }

  /** A name or value as the form parser reads it. */
  function Decode(s: string): string
  {
    Utf8Decode(PercentDecode(Utf8Bytes(s)))
  }

  /** The bytes of one written byte, followed by anything, decode to that byte first. */
  lemma DecodeEncodedByte(b: byte, rest: seq<byte>)
    ensures PercentDecode(Utf8Bytes(EncodeByte(b)) + rest) == [b] + PercentDecode(rest)
  {
    var e := EncodeByte(b);
    if Unreserved(b) || b == 0x20 {
      assert e[1..] == [];
      assert Utf8Bytes(e) == Utf8(e[0]) + [];
      assert (Utf8Bytes(e) + rest)[1..] == rest;
    } else {
      assert e[1..][1..][1..] == [];
      assert Utf8Bytes(e[1..][1..]) == [HexDigit(b % 16) as int] + [];
      assert Utf8Bytes(e[1..]) == [HexDigit(b / 16) as int] + Utf8Bytes(e[1..][1..]);
      assert Utf8Bytes(e) == [0x25] + Utf8Bytes(e[1..]);
      assert Utf8Bytes(e) == [0x25, HexDigit(b / 16) as int, HexDigit(b % 16) as int];
      HexDigitValue(b / 16);
      HexDigitValue(b % 16);
      assert (Utf8Bytes(e) + rest)[3..] == rest;
    }
  }

  lemma {:induction false} DecodeEncodedBytes(bs: seq<byte>)
    ensures PercentDecode(Utf8Bytes(EncodeBytes(bs))) == bs
  {
    if bs != [] {
      Utf8BytesAppend(EncodeByte(bs[0]), EncodeBytes(bs[1..]));
      DecodeEncodedByte(bs[0], Utf8Bytes(EncodeBytes(bs[1..])));
      DecodeEncodedBytes(bs[1..]);
    }
  }

  /** Reading back what the serialiser wrote gives the text it was given. */
  lemma DecodeEncode(s: string)
    ensures Decode(Encode(s)) == s
  {
    EncodeIsBytes(s);
    DecodeEncodedBytes(Utf8Bytes(s));
    Utf8RoundTrip(s);
  }

  /** Encoding is one-to-one. */
  lemma EncodeInjective(s: string, t: string)
    requires Encode(s) == Encode(t)
    ensures s == t
  {
    DecodeEncode(s);
    DecodeEncode(t);
  }

  /** A reserved character is written starting with `+` or `%`, neither of them unreserved. */
  lemma EncodeCharReserved(c: char)
    requires !Unreserved(c as int)
    ensures EncodeChar(c)[0] == '+' || EncodeChar(c)[0] == '%'
  {
    if c as int >= 0x80 {
      var bs := Utf8(c);
      assert EncodeBytes(bs) == EncodeByte(bs[0]) + EncodeBytes(bs[1..]);
    }
  }

  /** What the serialiser writes is unreserved only when what it was given was. */
  lemma {:induction false} EncodedUnreserved(s: string)
    requires UnreservedText(Encode(s))
    ensures UnreservedText(s)
  {
    if s != [] {
      var e := Encode(s);
      assert e == EncodeChar(s[0]) + Encode(s[1..]);
      assert Unreserved(s[0] as int) by {
        assert e[0] == EncodeChar(s[0])[0];
        if !Unreserved(s[0] as int) {
          EncodeCharReserved(s[0]);
        }
      }
      forall i | 0 <= i < |Encode(s[1..])| ensures Unreserved(Encode(s[1..])[i] as int) {
        assert Encode(s[1..])[i] == e[|EncodeChar(s[0])| + i];
      }
      EncodedUnreserved(s[1..]);
      forall i | 0 <= i < |s| ensures Unreserved(s[i] as int) {
        if i > 0 {
          assert s[i] == s[1..][i - 1];
        }
      }
    }
  }

  /** Encoding twice gives the once-encoded text back exactly when there was nothing to encode. */
  lemma EncodeTwice(s: string)
    ensures Encode(Encode(s)) == Encode(s) <==> UnreservedText(s)
  {
    EncodeUnchanged(Encode(s));
    if UnreservedText(s) {
      UnreservedUnchanged(s);
    }
    if UnreservedText(Encode(s)) {
      EncodedUnreserved(s);
    }
  }

  /** Between two unreserved texts, only the middle part changes. */
  lemma EncodeInfix(a: string, m: string, b: string)
    requires UnreservedText(a) && UnreservedText(b)
    ensures Encode(a + m + b) == a + Encode(m) + b
  {
    UnreservedUnchanged(a);
    UnreservedUnchanged(b);
    EncodeAppend(a, m);
    EncodeAppend(a + m, b);
  }

  /** A colon is written `%3A`, and the `%` of that is written `%25` in turn. */
  lemma ColonExamples()
    ensures Encode(":") == "%3A"
    ensures Encode("%") == "%25"
    ensures Encode("&") == "%26"
    ensures Encode("=") == "%3D"
    ensures Encode("+") == "%2B"
    ensures Encode(" ") == "+"
  {
    assert Utf8Bytes(":") == [0x3A];
    assert Utf8Bytes("%") == [0x25];
    assert Utf8Bytes("&") == [0x26];
    assert Utf8Bytes("=") == [0x3D];
    assert Utf8Bytes("+") == [0x2B];
    assert Utf8Bytes(" ") == [0x20];
  }
}
