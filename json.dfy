/**
 * The text format of the browser's storage. The storefront writes
 * JSON.stringify(state) and reads JSON.parse(text). The model uses a small
 * self-delimiting value format instead of the JSON grammar. Every value is
 * written with a one-letter tag. Numbers end with ';'. Strings and arrays
 * carry a length prefix. What the providers rely on is kept: parsing what was
 * stringified gives the value back. The parser also accepts some spellings
 * Stringify never writes (leading zeros, "-0"), as JSON.parse accepts
 * whitespace JSON.stringify never writes.
 */
module Json {
  import opened Wrappers
  import opened Text

  datatype Value = Null | Bool(b: bool) | Num(n: int) | Str(s: string) | Arr(elems: seq<Value>)

  function Abs(n: int): nat { if n < 0 then -n else n }

  function Stringify(v: Value): (t: string)
    ensures |t| >= 1
    decreases v
  {
    match v
    case Null => "n"
    case Bool(b) => if b then "t" else "f"
    case Num(n) => "i" + (if n < 0 then "-" else "") + NatToString(Abs(n)) + ";"
    case Str(s) => "s" + NatToString(|s|) + ":" + s
    case Arr(vs) => "a" + NatToString(|vs|) + ":" + StringifyAll(vs)
  }

  function StringifyAll(vs: seq<Value>): string
    decreases vs
  {
    if vs == [] then "" else Stringify(vs[0]) + StringifyAll(vs[1..])
  }

  /** Number of leading decimal digits. */
  function SpanDigits(s: string): (k: nat)
    ensures k <= |s|
    ensures AllDigits(s[..k])
    ensures k < |s| ==> !IsDigit(s[k])
  {
    if |s| > 0 && IsDigit(s[0]) then 1 + SpanDigits(s[1..]) else 0
  }

  /** Reads a non-empty run of digits closed by `term`; returns its value and what follows. */
  function ReadNat(s: string, term: char): (r: Option<(nat, string)>)
    ensures r.Some? ==> |r.value.1| < |s|
  {
    var k := SpanDigits(s);
    if 0 < k < |s| && s[k] == term then Some((DigitsValue(s[..k]), s[k + 1..])) else None
  }

  /** Reads one value from the front of `s`; returns it and the unread rest. */
  function Decode(s: string): (r: Option<(Value, string)>)
    ensures r.Some? ==> |r.value.1| < |s|
    decreases |s|, 0
  {
    if |s| == 0 then None
    else if s[0] == 'n' then Some((Null, s[1..]))
    else if s[0] == 't' then Some((Bool(true), s[1..]))
    else if s[0] == 'f' then Some((Bool(false), s[1..]))
    else if s[0] == 'i' then
      var t := s[1..];
      if |t| > 0 && t[0] == '-' then
        match ReadNat(t[1..], ';')
        case None => None
        case Some((m, rest)) => Some((Num(0 - m), rest))
      else
        match ReadNat(t, ';')
        case None => None
        case Some((m, rest)) => Some((Num(m), rest))
    else if s[0] == 's' then
      match ReadNat(s[1..], ':')
      case None => None
      case Some((len, rest)) =>
        if len <= |rest| then Some((Str(rest[..len]), rest[len..])) else None
    else if s[0] == 'a' then
      match ReadNat(s[1..], ':')
      case None => None
      case Some((n, rest)) =>
        match DecodeAll(n, rest)
        case None => None
        case Some((vs, rest')) => Some((Arr(vs), rest'))
    else None
  }

  /** Reads `n` consecutive values. */
  function DecodeAll(n: nat, s: string): (r: Option<(seq<Value>, string)>)
    ensures r.Some? ==> |r.value.1| <= |s| && |r.value.0| == n
    decreases |s|, 1, n
  {
    if n == 0 then Some(([], s))
    else
      match Decode(s)
      case None => None
      case Some((v, rest)) =>
        match DecodeAll(n - 1, rest)
        case None => None
        case Some((vs, rest')) => Some(([v] + vs, rest'))
  }

  /** JSON.parse: the whole text must be one value. */
  function Parse(text: string): Option<Value> {
    match Decode(text)
    case Some((v, rest)) => if rest == "" then Some(v) else None
    case None => None
  }

  lemma {:induction false} SpanDigitsOf(d: string, rest: string)
    requires AllDigits(d)
    requires |rest| > 0 && !IsDigit(rest[0])
    ensures SpanDigits(d + rest) == |d|
    decreases |d|
  {
    if |d| > 0 {
      assert (d + rest)[1..] == d[1..] + rest;
      SpanDigitsOf(d[1..], rest);
    } else {
      assert d + rest == rest;
    }
  }

  lemma ReadNatOf(n: nat, term: char, rest: string)
    requires !IsDigit(term)
    ensures ReadNat(NatToString(n) + [term] + rest, term) == Some((n, rest))
  {
    var d := NatToString(n);
    var s := d + [term] + rest;
    assert s == d + ([term] + rest);
    SpanDigitsOf(d, [term] + rest);
    assert s[..|d|] == d;
    assert s[|d| + 1..] == rest;
    DigitsValueOfNatToString(n);
  }

  lemma DecodeNum(n: int, rest: string)
    ensures Decode(Stringify(Num(n)) + rest) == Some((Num(n), rest))
  {
    var d := NatToString(Abs(n));
    var s := Stringify(Num(n)) + rest;
    ReadNatOf(Abs(n), ';', rest);
    if n < 0 {
      assert s == "i" + ("-" + (d + [';'] + rest));
      assert s[1..][1..] == d + [';'] + rest;
    } else {
      assert s == "i" + (d + [';'] + rest);
      assert s[1..] == d + [';'] + rest;
      assert IsDigit(d[0]);
    }
  }

  lemma DecodeStr(t: string, rest: string)
    ensures Decode(Stringify(Str(t)) + rest) == Some((Str(t), rest))
  {
    var s := Stringify(Str(t)) + rest;
    assert s == "s" + (NatToString(|t|) + [':'] + (t + rest));
    assert s[1..] == NatToString(|t|) + [':'] + (t + rest);
    ReadNatOf(|t|, ':', t + rest);
    assert (t + rest)[..|t|] == t;
    assert (t + rest)[|t|..] == rest;
  }

  /** Reading back what was written yields the value and leaves the rest unread. */
  lemma {:induction false} DecodeStringify(v: Value, rest: string)
    ensures Decode(Stringify(v) + rest) == Some((v, rest))
    decreases v, 1
  {
    match v
    case Null =>
    case Bool(b) =>
    case Num(n) => DecodeNum(n, rest);
    case Str(t) => DecodeStr(t, rest);
    case Arr(vs) =>
      var s := Stringify(v) + rest;
      var body := StringifyAll(vs) + rest;
      assert s == "a" + (NatToString(|vs|) + [':'] + body);
      assert s[1..] == NatToString(|vs|) + [':'] + body;
      ReadNatOf(|vs|, ':', body);
      DecodeAllStringifyAll(vs, rest);
  }

  lemma {:induction false} DecodeAllStringifyAll(vs: seq<Value>, rest: string)
    ensures DecodeAll(|vs|, StringifyAll(vs) + rest) == Some((vs, rest))
    decreases vs, 0
  {
    if vs != [] {
      var tail := StringifyAll(vs[1..]) + rest;
      var s := StringifyAll(vs) + rest;
      assert s == Stringify(vs[0]) + tail;
      DecodeStringify(vs[0], tail);
      assert Decode(s) == Some((vs[0], tail));
      DecodeAllStringifyAll(vs[1..], rest);
      assert DecodeAll(|vs| - 1, tail) == Some((vs[1..], rest));
      assert [vs[0]] + vs[1..] == vs;
    } else {
      assert StringifyAll(vs) + rest == rest;
    }
  }

  /** JSON.parse(JSON.stringify(v)) gives v back. */
  lemma ParseStringify(v: Value)
    ensures Parse(Stringify(v)) == Some(v)
  {
    DecodeStringify(v, "");
    assert Stringify(v) + "" == Stringify(v);
  }
}

/** Encoding sequences of records through a per-record codec. */
module JsonList {
  import opened Wrappers
  import opened Json

  function EncodeList<T>(xs: seq<T>, enc: T -> Value): (v: Value)
    ensures v.Arr? && |v.elems| == |xs|
    ensures forall i :: 0 <= i < |xs| ==> v.elems[i] == enc(xs[i])
  {
    Arr(seq(|xs|, i requires 0 <= i < |xs| => enc(xs[i])))
  }

  /** Decodes every element, failing as a whole if one element fails. */
  function DecodeAllWith<T>(vs: seq<Value>, dec: Value -> Option<T>): (r: Option<seq<T>>)
    ensures r.Some? ==> |r.value| == |vs|
    ensures r.Some? ==> forall i :: 0 <= i < |vs| ==> dec(vs[i]) == Some(r.value[i])
  {
    if vs == [] then Some([])
    else
      match dec(vs[0])
      case None => None
      case Some(x) =>
        match DecodeAllWith(vs[1..], dec)
        case None => None
        case Some(xs) => Some([x] + xs)
  }

  function DecodeList<T>(v: Value, dec: Value -> Option<T>): Option<seq<T>> {
    if v.Arr? then DecodeAllWith(v.elems, dec) else None
  }

  /** A record codec that round-trips lifts to sequences of records. */
  lemma {:induction false} DecodeEncodeList<T>(xs: seq<T>, enc: T -> Value, dec: Value -> Option<T>)
    requires forall x :: dec(enc(x)) == Some(x)
    ensures DecodeList(EncodeList(xs, enc), dec) == Some(xs)
  {
    DecodeAllEncoded(xs, enc, dec);
  }

  lemma {:induction false} DecodeAllEncoded<T>(xs: seq<T>, enc: T -> Value, dec: Value -> Option<T>)
    requires forall x :: dec(enc(x)) == Some(x)
    ensures DecodeAllWith(EncodeList(xs, enc).elems, dec) == Some(xs)
  {
    if xs != [] {
      var vs := EncodeList(xs, enc).elems;
      assert vs[1..] == EncodeList(xs[1..], enc).elems;
      DecodeAllEncoded(xs[1..], enc, dec);
      assert dec(vs[0]) == Some(xs[0]);
      assert [xs[0]] + xs[1..] == xs;
    }
  }
}
