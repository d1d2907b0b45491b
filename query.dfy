// Query-string building blocks shared by every options serialiser: the
// ordered (key, value) pair list, the decimal and boolean renderings of
// scalar values, the form-urlencoded text of a pair list, and the '&' / '='
// splitting that the live-streaming request applies to such a text.
//
// A pair list in a URL stands for the pairs handed to `append_pair`; the
// url crate writes each of them with the form encoding of FormUrlencoded,
// which `QueryString` and `UrlString` apply.
module Query {
  import opened Wrappers
  import opened FormUrlencoded

  type Pair = (string, string)

  type u16 = x: nat | x < 0x1_0000
  type u32 = x: nat | x < 0x1_0000_0000
  type usize = x: nat | x < 0x1_0000_0000_0000_0000
  type i32 = x: int | -0x8000_0000 <= x < 0x8000_0000

  /** The decimal text of a `usize`. */
  function UsizeString(n: usize): string
  {
    NatString(n)
  }

  /** The values paired with key `k`, in the order they occur. */
  function Values(ps: seq<Pair>, k: string): (vs: seq<string>)
    ensures |vs| <= |ps|
    ensures forall v :: v in vs ==> (k, v) in ps
  {
    if ps == [] then []
    else (if ps[0].0 == k then [ps[0].1] else []) + Values(ps[1..], k)
  }

  /** The keys of a pair list, in order. */
  function Keys(ps: seq<Pair>): (ks: seq<string>)
    ensures |ks| == |ps|
    ensures forall i :: 0 <= i < |ps| ==> ks[i] == ps[i].0
  {
    if ps == [] then [] else [ps[0].0] + Keys(ps[1..])
  }

  lemma {:induction false} ValuesAppend(a: seq<Pair>, b: seq<Pair>, k: string)
    ensures Values(a + b, k) == Values(a, k) + Values(b, k)
  {
    if a != [] {
      assert (a + b)[1..] == a[1..] + b;
      ValuesAppend(a[1..], b, k);
    } else {
      assert a + b == b;
    }
  }

  lemma {:induction false} KeysAppend(a: seq<Pair>, b: seq<Pair>)
    ensures Keys(a + b) == Keys(a) + Keys(b)
  {
    if a != [] {
      assert (a + b)[1..] == a[1..] + b;
      KeysAppend(a[1..], b);
    } else {
      assert a + b == b;
    }
  }

  /** A key that does not occur has no values. */
  lemma {:induction false} ValuesAbsent(ps: seq<Pair>, k: string)
    requires k !in Keys(ps)
    ensures Values(ps, k) == []
  {
    if ps != [] {
      assert Keys(ps)[1..] == Keys(ps[1..]);
      ValuesAbsent(ps[1..], k);
    }
  }

  /** Pairs without key `k` on the right contribute nothing to its values. */
  lemma ValuesDropRight(a: seq<Pair>, b: seq<Pair>, k: string)
    requires Values(b, k) == []
    ensures Values(a + b, k) == Values(a, k)
  {
    ValuesAppend(a, b, k);
    assert Values(a, k) + [] == Values(a, k);
  }

  /** The empty list is a left unit of concatenation. */
  lemma EmptyLeft<T>(s: seq<T>)
    ensures [] + s == s
  {
  }

  /** The values of a two-part list when only the left part has the key. */
  lemma SpliceLeft(a: seq<string>, b: seq<string>, m: seq<string>)
    requires a == m && b == []
    ensures a + b == m
  {
  }

  /** The values of a two-part list when only the right part has the key. */
  lemma SpliceRight(a: seq<string>, b: seq<string>, m: seq<string>)
    requires a == [] && b == m
    ensures a + b == m
  {
  }

  /** Pairs without key `k` on the left contribute nothing to its values. */
  lemma ValuesDropLeft(a: seq<Pair>, b: seq<Pair>, k: string)
    requires Values(a, k) == []
    ensures Values(a + b, k) == Values(b, k)
  {
    ValuesAppend(a, b, k);
    assert [] + Values(b, k) == Values(b, k);
  }

  /** One pair with key `k` per value, in order (a `for` loop over a list field). */
  function Repeat(k: string, vs: seq<string>): (ps: seq<Pair>)
    ensures |ps| == |vs|
    ensures forall i :: 0 <= i < |vs| ==> ps[i] == (k, vs[i])
  {
    if vs == [] then [] else [(k, vs[0])] + Repeat(k, vs[1..])
  }

  lemma {:induction false} RepeatValues(k: string, vs: seq<string>, k': string)
    ensures Values(Repeat(k, vs), k') == if k == k' then vs else []
  {
    if vs != [] {
      assert Repeat(k, vs)[1..] == Repeat(k, vs[1..]);
      RepeatValues(k, vs[1..], k');
    }
  }

  lemma RepeatAppend(k: string, a: seq<string>, b: seq<string>)
    ensures Repeat(k, a + b) == Repeat(k, a) + Repeat(k, b)
  {
  }

  /** The pair (k, v) when the field is set, nothing otherwise. */
  function IfSome(k: string, o: Option<string>): (ps: seq<Pair>)
    ensures ps == [] <==> o.None?
    ensures o.Some? ==> ps == [(k, o.value)]
  {
    if o.Some? then [(k, o.value)] else []
  }

  lemma ValuesIfSome(k0: string, o: Option<string>, k: string)
    ensures Values(IfSome(k0, o), k) == if k0 == k && o.Some? then [o.value] else []
  {
  }

  /** Rust's `bool::to_string`. */
  function BoolString(b: bool): (s: string)
    ensures b ==> s == "true"
    ensures !b ==> s == "false"
  {
    if b then "true" else "false"
  }

  /** `f` applied to every element, in order (`iter().map(f)`). */
  function Map<T>(f: T -> string, xs: seq<T>): (ys: seq<string>)
    ensures |ys| == |xs|
    ensures forall i :: 0 <= i < |xs| ==> ys[i] == f(xs[i])
  {
    if xs == [] then [] else [f(xs[0])] + Map(f, xs[1..])
  }

  function Identity(s: string): string
  {
    s
  }

  lemma {:induction false} MapIdentity(xs: seq<string>)
    ensures Map(Identity, xs) == xs
  {
    if xs != [] {
      MapIdentity(xs[1..]);
    }
  }

  /** `Option::map`. */
  function MapOpt<T>(f: T -> string, o: Option<T>): (r: Option<string>)
    ensures r.Some? <==> o.Some?
    ensures o.Some? ==> r.value == f(o.value)
  {
    if o.Some? then Some(f(o.value)) else None
  }

  /**
   * The serialiser's `for element in list { seq.serialize_element((k, f(element))) }`
   * loop: appends one pair per element to what has been emitted so far.
   */
  method PushEach<T>(ps: seq<Pair>, k: string, xs: seq<T>, f: T -> string) returns (r: seq<Pair>)
    ensures r == ps + Repeat(k, Map(f, xs))
  {
    r := ps;
    var i := 0;
    while i < |xs|
      invariant 0 <= i <= |xs|
      invariant r == ps + Repeat(k, Map(f, xs[..i]))
    {
      assert Map(f, xs[..i + 1]) == Map(f, xs[..i]) + [f(xs[i])];
      RepeatAppend(k, Map(f, xs[..i]), [f(xs[i])]);
      r := r + [(k, f(xs[i]))];
      i := i + 1;
    }
    assert xs[..i] == xs;
  }

  /** The serialiser's `for (param, value) in list { seq.serialize_element((param, value)) }` loop. */
  method PushPairs(ps: seq<Pair>, qs: seq<Pair>) returns (r: seq<Pair>)
    ensures r == ps + qs
  {
    r := ps;
    var i := 0;
    while i < |qs|
      invariant 0 <= i <= |qs|
      invariant r == ps + qs[..i]
    {
      assert qs[..i + 1] == qs[..i] + [qs[i]];
      r := r + [qs[i]];
      i := i + 1;
    }
    assert qs[..i] == qs;
  }

  predicate IsDigit(c: char)
  {
    '0' <= c <= '9'
  }

  function DigitChar(d: nat): (c: char)
    requires d < 10
    ensures IsDigit(c) && c as int - '0' as int == d
  {
    (d + '0' as int) as char
  }

  /** Decimal rendering of a natural number (`to_string` on the unsigned integer types). */
  function NatString(n: nat): (s: string)
    ensures |s| >= 1
    ensures forall i :: 0 <= i < |s| ==> IsDigit(s[i])
    ensures |s| > 1 ==> s[0] != '0'
    decreases n
  {
    if n < 10 then [DigitChar(n)] else NatString(n / 10) + [DigitChar(n % 10)]
  }

  /** Decimal rendering of a signed integer (`to_string` on the signed integer types). */
  function IntString(i: int): (s: string)
    ensures |s| >= 1
    ensures i >= 0 <==> s[0] != '-'
  {
    if i < 0 then "-" + NatString(-i) else NatString(i)
  }

  /** Different signed numbers are rendered differently. */
  lemma IntStringInjective(i: int, j: int)
    requires IntString(i) == IntString(j)
    ensures i == j
  {
    if i < 0 {
      assert IntString(i)[1..] == NatString(-i);
      assert IntString(j)[1..] == NatString(-j);
      NatStringInjective(-i, -j);
    } else {
      NatStringInjective(i, j);
    }
  }

  /** The value of a non-empty string of decimal digits (leading zeros allowed). */
  function DigitsValue(s: string): (n: nat)
    requires forall i :: 0 <= i < |s| ==> IsDigit(s[i])
  {
    if s == [] then 0
    else
      var last := s[|s| - 1];
      assert IsDigit(last);
      DigitsValue(s[..|s| - 1]) * 10 + (last as int - '0' as int)
  }

  /** Reads a decimal natural number; the inverse of NatString. */
  function ParseNat(s: string): Option<nat>
  {
    if s != [] && forall i :: 0 <= i < |s| ==> IsDigit(s[i])
    then Some(DigitsValue(s))
    else None
  }

  lemma {:induction false} NatStringValue(n: nat)
    ensures DigitsValue(NatString(n)) == n
    decreases n
  {
    if n >= 10 {
      var s := NatString(n);
      assert s[..|s| - 1] == NatString(n / 10);
      NatStringValue(n / 10);
    }
  }

  /** NatString renders the number in decimal: reading it back gives the number. */
  lemma NatStringRoundTrip(n: nat)
    ensures ParseNat(NatString(n)) == Some(n)
  {
    NatStringValue(n);
  }

  /** Different numbers are rendered differently. */
  lemma NatStringInjective(m: nat, n: nat)
    requires NatString(m) == NatString(n)
    ensures m == n
  {
    NatStringRoundTrip(m);
    NatStringRoundTrip(n);
  }

  /** `parts.join(sep)`. */
  function Join(parts: seq<string>, sep: string): (s: string)
  {
    if |parts| == 0 then ""
    else if |parts| == 1 then parts[0]
    else parts[0] + sep + Join(parts[1..], sep)
  }

  lemma {:induction false} JoinLength(parts: seq<string>, sep: string)
    requires |parts| >= 1
    ensures |Join(parts, sep)| == Sum(parts) + (|parts| - 1) * |sep|
  {
    if |parts| > 1 {
      JoinLength(parts[1..], sep);
    }
  }

  function Sum(parts: seq<string>): nat
  {
    if parts == [] then 0 else |parts[0]| + Sum(parts[1..])
  }

  /** Rust's `str::split(sep)`: the pieces between separators; always at least one. */
  function Split(s: string, sep: char): (parts: seq<string>)
    ensures |parts| >= 1
    ensures forall i :: 0 <= i < |parts| ==> sep !in parts[i]
  {
    if s == [] then [""]
    else
      var rest := Split(s[1..], sep);
      if s[0] == sep then [""] + rest
      else [[s[0]] + rest[0]] + rest[1..]
  }

  lemma {:induction false} SplitNoSeparator(a: string, sep: char, s: string)
    requires sep !in a
    ensures Split(a + s, sep) == [a + Split(s, sep)[0]] + Split(s, sep)[1..]
  {
    if a != [] {
      assert (a + s)[1..] == a[1..] + s;
      SplitNoSeparator(a[1..], sep, s);
      assert [a[0]] + (a[1..] + Split(s, sep)[0]) == a + Split(s, sep)[0];
    } else {
      assert a + s == s;
      assert a + Split(s, sep)[0] == Split(s, sep)[0];
      assert Split(s, sep) == [Split(s, sep)[0]] + Split(s, sep)[1..];
    }
  }

  /** Splitting a joined list gives the list back, when no part holds the separator. */
  lemma {:induction false} SplitJoin(parts: seq<string>, sep: char)
    requires |parts| >= 1
    requires forall i :: 0 <= i < |parts| ==> sep !in parts[i]
    ensures Split(Join(parts, [sep]), sep) == parts
  {
    if |parts| == 1 {
      SplitNoSeparator(parts[0], sep, "");
      assert parts[0] + "" == parts[0];
    } else {
      var tail := Join(parts[1..], [sep]);
      SplitJoin(parts[1..], sep);
      assert Join(parts, [sep]) == parts[0] + ([sep] + tail);
      SplitNoSeparator(parts[0], sep, [sep] + tail);
      assert ([sep] + tail)[1..] == tail;
      assert Split([sep] + tail, sep) == [""] + parts[1..];
      assert parts[0] + "" == parts[0];
    }
  }

  /** Rust's `splitn(2, sep)` read as (first piece, rest or ""). */
  function SplitOnce(s: string, sep: char): (kv: Pair)
    ensures sep !in s ==> kv == (s, "")
  {
    if s == [] then ("", "")
    else if s[0] == sep then ("", s[1..])
    else
      var kv := SplitOnce(s[1..], sep);
      assert s == [s[0]] + s[1..];
      ([s[0]] + kv.0, kv.1)
  }

  lemma {:induction false} SplitOnceJoin(k: string, sep: char, v: string)
    requires sep !in k
    ensures SplitOnce(k + [sep] + v, sep) == (k, v)
  {
    if k != [] {
      assert (k + [sep] + v)[1..] == k[1..] + [sep] + v;
      SplitOnceJoin(k[1..], sep, v);
      assert [k[0]] + k[1..] == k;
    } else {
      assert k + [sep] + v == [sep] + v;
    }
  }

  /** One pair as the form serialiser writes it: the encoded key, `=`, the encoded value. */
  function PairText(p: Pair): string
  {
    Encode(p.0) + "=" + Encode(p.1)
  }

  function PairTexts(ps: seq<Pair>): (ts: seq<string>)
    ensures |ts| == |ps|
    ensures forall i :: 0 <= i < |ps| ==> ts[i] == PairText(ps[i])
  {
    if ps == [] then [] else [PairText(ps[0])] + PairTexts(ps[1..])
  }

  /** `serde_urlencoded::to_string` of a pair list: the encoded pairs joined by '&'. */
  function Urlencoded(ps: seq<Pair>): string
  {
    Join(PairTexts(ps), "&")
  }

  /** Each key and value of a pair list replaced by its form encoding. */
  function Encoded(ps: seq<Pair>): (es: seq<Pair>)
    ensures |es| == |ps|
    ensures forall i :: 0 <= i < |ps| ==> es[i] == (Encode(ps[i].0), Encode(ps[i].1))
  {
    if ps == [] then [] else [(Encode(ps[0].0), Encode(ps[0].1))] + Encoded(ps[1..])
  }

  /** A pair that the form encoding leaves as it is: only unreserved characters in its key and value. */
  predicate UnchangedPair(p: Pair)
  {
    UnreservedText(p.0) && UnreservedText(p.1)
  }

  lemma UnchangedPairEncoded(p: Pair)
    ensures UnchangedPair(p) <==> (Encode(p.0), Encode(p.1)) == p
  {
    EncodeUnchanged(p.0);
    EncodeUnchanged(p.1);
  }

  /** A pair list is its own encoding exactly when every key and value holds only unreserved characters. */
  lemma EncodedUnchanged(ps: seq<Pair>)
    ensures Encoded(ps) == ps <==> forall i :: 0 <= i < |ps| ==> UnchangedPair(ps[i])
  {
    var es := Encoded(ps);
    forall i | 0 <= i < |ps|
      ensures UnchangedPair(ps[i]) <==> es[i] == ps[i]
    {
      UnchangedPairEncoded(ps[i]);
    }
  }

  /** The live-streaming request's reading of a query string: split on '&', then each piece at its first '='. */
  function QueryPairs(q: string): (ps: seq<Pair>)
    ensures |ps| >= 1
  {
    SplitPieces(Split(q, '&'))
  }

  function SplitPieces(pieces: seq<string>): (ps: seq<Pair>)
    ensures |ps| == |pieces|
    ensures forall i :: 0 <= i < |pieces| ==> ps[i] == SplitOnce(pieces[i], '=')
  {
    if pieces == [] then [] else [SplitOnce(pieces[0], '=')] + SplitPieces(pieces[1..])
  }

  /** The written pairs hold no '&', so the '&' pieces of the text are the written pairs. */
  lemma PiecesOfUrlencoded(ps: seq<Pair>)
    requires |ps| >= 1
    ensures Split(Urlencoded(ps), '&') == PairTexts(ps)
  {
    var ts := PairTexts(ps);
    forall i | 0 <= i < |ts|
      ensures '&' !in ts[i]
    {
      EncodeNoSeparators(ps[i].0);
      EncodeNoSeparators(ps[i].1);
      assert ts[i] == Encode(ps[i].0) + "=" + Encode(ps[i].1);
    }
    SplitJoin(ts, '&');
  }

  /**
   * Splitting a non-empty serialised pair list back on '&' and '=' does not
   * give the pairs but their encodings: the split undoes the joining and
   * none of the encoding.
   */
  lemma QueryPairsEncoded(ps: seq<Pair>)
    requires |ps| >= 1
    ensures QueryPairs(Urlencoded(ps)) == Encoded(ps)
  {
    PiecesOfUrlencoded(ps);
    var pieces := Split(Urlencoded(ps), '&');
    forall i | 0 <= i < |ps|
      ensures SplitOnce(pieces[i], '=') == Encoded(ps)[i]
    {
      assert pieces[i] == Encode(ps[i].0) + ['='] + Encode(ps[i].1);
      EncodeNoSeparators(ps[i].0);
      SplitOnceJoin(Encode(ps[i].0), '=', Encode(ps[i].1));
    }
  }

  /** An empty query string is read as one pair of empty strings. */
  lemma QueryPairsEmpty()
    ensures QueryPairs("") == [("", "")]
  {
  }

  /**
   * `form_urlencoded::parse`, which `serde_urlencoded::from_str` reads with:
   * the '&' pieces, empty ones skipped, each split at its first '=' and the
   * two halves decoded.
   */
  function ParsePairs(q: string): seq<Pair>
  {
    ParsePieces(Split(q, '&'))
  }

  function ParsePieces(pieces: seq<string>): (ps: seq<Pair>)
    ensures |ps| <= |pieces|
  {
    if pieces == [] then []
    else
      var kv := SplitOnce(pieces[0], '=');
      (if pieces[0] == "" then [] else [(Decode(kv.0), Decode(kv.1))]) + ParsePieces(pieces[1..])
  }

  lemma {:induction false} ParseTexts(ps: seq<Pair>)
    ensures ParsePieces(PairTexts(ps)) == ps
  {
    if ps != [] {
      var ts := PairTexts(ps);
      assert ts[0] == Encode(ps[0].0) + ['='] + Encode(ps[0].1);
      EncodeNoSeparators(ps[0].0);
      SplitOnceJoin(Encode(ps[0].0), '=', Encode(ps[0].1));
      DecodeEncode(ps[0].0);
      DecodeEncode(ps[0].1);
      assert ts[1..] == PairTexts(ps[1..]);
      ParseTexts(ps[1..]);
    }
  }

  /** Parsing what the serialiser wrote gives back every pair list, the empty one included. */
  lemma ParseUrlencoded(ps: seq<Pair>)
    ensures ParsePairs(Urlencoded(ps)) == ps
  {
    if ps == [] {
      assert Urlencoded(ps) == "";
    } else {
      PiecesOfUrlencoded(ps);
      ParseTexts(ps);
    }
  }

  /** A pair of unreserved texts is written as `key=value`; `t` names that text so a caller can pass it whole. */
  lemma PlainPairText(k: string, v: string, t: string)
    requires UnreservedText(k) && UnreservedText(v) && t == k + "=" + v
    ensures PairText((k, v)) == t
  {
    UnreservedUnchanged(k);
    UnreservedUnchanged(v);
  }

  /** One pair of unreserved texts is written as `key=value`. */
  lemma PlainText1(k: string, v: string, t: string)
    requires UnreservedText(k) && UnreservedText(v) && t == k + "=" + v
    ensures Urlencoded([(k, v)]) == t
  {
    PlainPairText(k, v, t);
  }

  /** Two pairs written as `t1` and `t2` are sent as `t1&t2`. */
  lemma Text2(p1: Pair, p2: Pair, t1: string, t2: string, t: string)
    requires PairText(p1) == t1 && PairText(p2) == t2 && t == t1 + "&" + t2
    ensures Urlencoded([p1, p2]) == t
  {
    assert PairTexts([p1, p2]) == [t1, t2];
    assert Join([t1, t2], "&") == t1 + "&" + Join([t2], "&");
  }

  /** Two pairs of unreserved texts are written as `k1=v1&k2=v2`. */
  lemma PlainText2(k1: string, v1: string, k2: string, v2: string, t: string)
    requires UnreservedText(k1) && UnreservedText(v1) && UnreservedText(k2) && UnreservedText(v2)
    requires t == k1 + "=" + v1 + "&" + k2 + "=" + v2
    ensures Urlencoded([(k1, v1), (k2, v2)]) == t
  {
    PlainPairText(k1, v1, k1 + "=" + v1);
    PlainPairText(k2, v2, k2 + "=" + v2);
    Text2((k1, v1), (k2, v2), k1 + "=" + v1, k2 + "=" + v2, t);
  }
}
