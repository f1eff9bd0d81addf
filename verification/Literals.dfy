/** String literals as the reader lexes them and the disassembler prints them,
    and the UTF-8 both rest on. */
module Literals {
  import opened Options
  import opened Bytes

  /** A Unicode scalar value. */
  predicate Scalar(cp: nat) { cp < 0xD800 || 0xE000 <= cp < 0x11_0000 }

  /** `cp` in UTF-8. */
  function AppendUtf8(cp: nat): (r: seq<byte>)
    requires cp < 0x11_0000
  {
    if cp < 0x80 then [cp as byte]
    else if cp < 0x800 then [(0xC0 + cp / 64) as byte, (0x80 + cp % 64) as byte]
    else if cp < 0x1_0000 then [(0xE0 + cp / 4096) as byte, (0x80 + cp / 64 % 64) as byte, (0x80 + cp % 64) as byte]
    else [(0xF0 + cp / 262144) as byte, (0x80 + cp / 4096 % 64) as byte, (0x80 + cp / 64 % 64) as byte, (0x80 + cp % 64) as byte]
  }

  predicate Trail(b: byte) { 0x80 <= b < 0xC0 }

  /** The value of the `n` trail bytes from `pos` on after `value`, if they are
      trail bytes. */
  function Trails(s: seq<byte>, pos: nat, n: nat, value: nat): Option<nat>
    requires pos + n <= |s|
    decreases n
  {
    if n == 0 then Some(value)
    else if !Trail(s[pos]) then None
    else Trails(s, pos + 1, n - 1, value * 64 + (s[pos] as int - 0x80))
  }

  /** The length of the sequence a lead byte begins, its bits, and the least
      value that needs that many bytes. */
  function Lead(b: byte): Option<(nat, nat, nat)> {
    if b < 0x80 then Some((1, b as int, 0))
    else if 0xC0 <= b < 0xE0 then Some((2, b as int - 0xC0, 0x80))
    else if 0xE0 <= b < 0xF0 then Some((3, b as int - 0xE0, 0x800))
    else if 0xF0 <= b < 0xF8 then Some((4, b as int - 0xF0, 0x1_0000))
    else None
  }

  /** The length and code point of the well-formed sequence at `pos`. */
  function DecodeUtf8(s: seq<byte>, pos: nat): Option<(nat, nat)>
    requires pos < |s|
  {
    match Lead(s[pos])
    case None => None
    case Some((len, bits, minimum)) =>
      if len > |s| - pos then None else
      match Trails(s, pos + 1, len - 1, bits)
      case None => None
      case Some(value) =>
        if value < minimum || value > 0x10_FFFF || 0xD800 <= value <= 0xDFFF then None else Some((len, value))
  }

  /** decodeUtf8, its loop over the trail bytes included. */
  method Decode(s: seq<byte>, pos: nat) returns (len: nat, cp: nat)
    requires pos < |s|
    ensures match DecodeUtf8(s, pos) case None => len == 0 case Some((n, v)) => len == n > 0 && cp == v
  {
    var b0 := s[pos];
    cp := 0;
    var minimum: nat;
    if b0 < 0x80 { return 1, b0 as int; }
    if 0xC0 <= b0 < 0xE0 { len, cp, minimum := 2, b0 as int - 0xC0, 0x80; }
    else if 0xE0 <= b0 < 0xF0 { len, cp, minimum := 3, b0 as int - 0xE0, 0x800; }
    else if 0xF0 <= b0 < 0xF8 { len, cp, minimum := 4, b0 as int - 0xF0, 0x1_0000; }
    else { return 0, 0; }
    if len > |s| - pos { return 0, 0; }
    for i := 1 to len
      invariant Trails(s, pos + 1, len - 1, Lead(b0).value.1) == Trails(s, pos + i, len - i, cp)
    {
      var b := s[pos + i];
      if !Trail(b) { return 0, 0; }
      cp := cp * 64 + (b as int - 0x80);
    }
    if cp < minimum || cp > 0x10_FFFF || 0xD800 <= cp <= 0xDFFF { return 0, 0; }
  }

  lemma Split(cp: nat)
    ensures cp == cp / 64 * 64 + cp % 64 && cp / 64 == cp / 4096 * 64 + cp / 64 % 64 && cp / 4096 == cp / 262144 * 64 + cp / 4096 % 64
  {
  }

  /** Decoding what encoding wrote gives the scalar value back. */
  lemma DecodeEncoded(cp: nat, s: seq<byte>, pos: nat)
    requires Scalar(cp) && pos + |AppendUtf8(cp)| <= |s| && s[pos..pos + |AppendUtf8(cp)|] == AppendUtf8(cp)
    ensures DecodeUtf8(s, pos) == Some((|AppendUtf8(cp)|, cp))
  {
    var e := AppendUtf8(cp);
    Split(cp);
    assert forall i | 0 <= i < |e| :: s[pos + i] == e[i];
    if |e| == 2 {
      assert Trails(s, pos + 1, 1, cp / 64) == Trails(s, pos + 2, 0, cp);
    } else if |e| == 3 {
      assert Trails(s, pos + 2, 1, cp / 64) == Trails(s, pos + 3, 0, cp);
      assert Trails(s, pos + 1, 2, cp / 4096) == Trails(s, pos + 2, 1, cp / 64);
    } else if |e| == 4 {
      assert Trails(s, pos + 3, 1, cp / 64) == Trails(s, pos + 4, 0, cp);
      assert Trails(s, pos + 2, 2, cp / 4096) == Trails(s, pos + 3, 1, cp / 64);
      assert Trails(s, pos + 1, 3, cp / 262144) == Trails(s, pos + 2, 2, cp / 4096);
    }
  }

  /** Only encodings of scalar values decode, and each in one way. */
  lemma DecodedEncodes(s: seq<byte>, pos: nat)
    requires pos < |s| && DecodeUtf8(s, pos).Some?
    ensures var (len, cp) := DecodeUtf8(s, pos).value;
            Scalar(cp) && pos + len <= |s| && s[pos..pos + len] == AppendUtf8(cp)
  {
    var (len, cp) := DecodeUtf8(s, pos).value;
    var (n, bits, _) := Lead(s[pos]).value;
    hide AppendUtf8;
    if len == 1 {
      One(s[pos]);
    } else if len == 2 {
      TrailsOne(s, pos + 1, 1, bits);
      Two(bits, s[pos + 1], cp);
      assert s[pos..pos + 2] == [s[pos], s[pos + 1]];
    } else if len == 3 {
      TrailsOne(s, pos + 1, 2, bits);
      TrailsOne(s, pos + 2, 1, bits * 64 + (s[pos + 1] as int - 0x80));
      Three(bits, s[pos + 1], s[pos + 2], cp);
      assert s[pos..pos + 3] == [s[pos], s[pos + 1], s[pos + 2]];
    } else {
      TrailsOne(s, pos + 1, 3, bits);
      TrailsOne(s, pos + 2, 2, bits * 64 + (s[pos + 1] as int - 0x80));
      TrailsOne(s, pos + 3, 1, (bits * 64 + (s[pos + 1] as int - 0x80)) * 64 + (s[pos + 2] as int - 0x80));
      Four(bits, s[pos + 1], s[pos + 2], s[pos + 3], cp);
      assert s[pos..pos + 4] == [s[pos], s[pos + 1], s[pos + 2], s[pos + 3]];
    }
  }

  lemma One(b: byte)
    requires b < 0x80
    ensures AppendUtf8(b as int) == [b]
  {
  }

  lemma Two(bits: nat, b: byte, cp: nat)
    requires bits < 32 && Trail(b) && cp == bits * 64 + (b as int - 0x80) && cp >= 0x80
    ensures AppendUtf8(cp) == [(0xC0 + bits) as byte, b]
  {
  }

  lemma Three(bits: nat, b: byte, c: byte, cp: nat)
    requires bits < 16 && Trail(b) && Trail(c) && cp == (bits * 64 + (b as int - 0x80)) * 64 + (c as int - 0x80) && cp >= 0x800
    ensures cp < 0x1_0000 && AppendUtf8(cp) == [(0xE0 + bits) as byte, b, c]
  {
    assert cp / 64 == bits * 64 + (b as int - 0x80);
  }

  lemma Four(bits: nat, b: byte, c: byte, d: byte, cp: nat)
    requires bits < 8 && Trail(b) && Trail(c) && Trail(d) && 0x1_0000 <= cp < 0x11_0000
    requires cp == ((bits * 64 + (b as int - 0x80)) * 64 + (c as int - 0x80)) * 64 + (d as int - 0x80)
    ensures AppendUtf8(cp) == [(0xF0 + bits) as byte, b, c, d]
  {
    var p := (bits * 64 + (b as int - 0x80)) * 64 + (c as int - 0x80);
    assert cp / 64 == p && cp % 64 == d as int - 0x80;
    assert p / 64 == bits * 64 + (b as int - 0x80) && p % 64 == c as int - 0x80;
    assert cp / 4096 == p / 64 && cp / 262144 == p / 64 / 64;
  }

  lemma TrailsOne(s: seq<byte>, pos: nat, n: nat, value: nat)
    requires n > 0 && pos + n <= |s| && Trails(s, pos, n, value).Some?
    ensures Trail(s[pos]) && Trails(s, pos, n, value) == Trails(s, pos + 1, n - 1, value * 64 + (s[pos] as int - 0x80))
  {
  }

  const QUOTE: byte := 34
  const BACKSLASH: byte := 92

  /** What is wrong with a literal. */
  datatype Fault =
    | UnterminatedLiteral | UnterminatedEscape | FourDigits | UnpairedSurrogate | OctalRange | UnsupportedEscape

  /** The bytes of a literal and where it ends, or the fault and its place. */
  datatype Lexed = Text(bytes: seq<byte>, end: nat) | Bad(fault: Fault, at: nat)

  function HexDigit(c: byte): Option<nat> {
    if 48 <= c <= 57 then Some(c as int - 48)
    else if 97 <= c <= 102 then Some(c as int - 87)
    else if 65 <= c <= 70 then Some(c as int - 55)
    else None
  }

  /** The value of `n` hexadecimal digits at `pos` after `v`. */
  function Hex(s: seq<byte>, pos: nat, n: nat, v: nat): Option<nat>
    decreases n
  {
    if n == 0 then Some(v)
    else if pos >= |s| || HexDigit(s[pos]).None? then None
    else Hex(s, pos + 1, n - 1, v * 16 + HexDigit(s[pos]).value)
  }

  predicate Octal(c: byte) { 48 <= c <= 55 }

  /** The value of up to `n` octal digits at `pos` after `v`, and their end. */
  function Octals(s: seq<byte>, pos: nat, n: nat, v: nat): (nat, nat)
    decreases n
  {
    if n == 0 || pos >= |s| || !Octal(s[pos]) then (v, pos) else Octals(s, pos + 1, n - 1, v * 8 + (s[pos] as int - 48))
  }

  function Simple(c: byte): Option<byte> {
    if c == 110 then Some(10) else if c == 116 then Some(9) else if c == 114 then Some(13)
    else if c == 98 then Some(8) else if c == 102 then Some(12)
    else if c == BACKSLASH then Some(BACKSLASH) else if c == QUOTE then Some(QUOTE) else None
  }

  predicate High(v: nat) { 0xD800 <= v <= 0xDBFF }
  predicate Low(v: nat) { 0xDC00 <= v <= 0xDFFF }

  /** The scalar value of a surrogate pair. */
  function Paired(hi: nat, lo: nat): nat
    requires High(hi) && Low(lo)
  {
    0x1_0000 + (hi - 0xD800) * 1024 + (lo - 0xDC00)
  }

  /** A second `\uXXXX` at `pos`. */
  function Follower(s: seq<byte>, pos: nat): Option<nat> {
    if pos + 1 < |s| && s[pos] == BACKSLASH && s[pos + 1] == 117 then Hex(s, pos + 2, 4, 0) else None
  }

  /** The escape whose letter is at `p`. */
  function Escape(s: seq<byte>, p: nat): Lexed
    requires p < |s|
  {
    var c := s[p];
    if Simple(c).Some? then Text([Simple(c).value], p + 1)
    else if c == 117 then
      (match Hex(s, p + 1, 4, 0)
       case None => Bad(FourDigits, p)
       case Some(v) =>
         if High(v) then
           var lo := Follower(s, p + 5);
           if lo.Some? && Low(lo.value) then Text(AppendUtf8(Paired(v, lo.value)), p + 11) else Bad(UnpairedSurrogate, p)
         else if Low(v) then Bad(UnpairedSurrogate, p)
         else if v < 0x11_0000 then Text(AppendUtf8(v), p + 5) else Bad(FourDigits, p))
    else if Octal(c) then
      var (v, next) := Octals(s, p, 3, 0);
      if v > 255 then Bad(OctalRange, p) else Text(AppendUtf8(v), next)
    else Bad(UnsupportedEscape, p)
  }

  lemma {:induction false} OctalsGo(s: seq<byte>, pos: nat, n: nat, v: nat)
    ensures Octals(s, pos, n, v).1 >= pos && (n > 0 && pos < |s| && Octal(s[pos]) ==> Octals(s, pos, n, v).1 > pos)
    decreases n
  {
    if n > 0 && pos < |s| && Octal(s[pos]) { OctalsGo(s, pos + 1, n - 1, v * 8 + (s[pos] as int - 48)); }
  }

  lemma EscapeGoes(s: seq<byte>, p: nat)
    requires p < |s| && Escape(s, p).Text?
    ensures Escape(s, p).end > p
  {
    OctalsGo(s, p, 3, 0);
    hide AppendUtf8, Octals;
  }

  /** A literal that opens at `start`, read from `pos` on after `out`. */
  function ReadString(s: seq<byte>, start: nat, pos: nat, out: seq<byte>): Lexed
    decreases |s| - pos
  {
    if pos >= |s| then Bad(UnterminatedLiteral, start)
    else if s[pos] == QUOTE then Text(out, pos + 1)
    else if s[pos] != BACKSLASH then ReadString(s, start, pos + 1, out + [s[pos]])
    else if pos + 1 >= |s| then Bad(UnterminatedEscape, start)
    else
      match Escape(s, pos + 1)
      case Bad(fault, at) => Bad(fault, at)
      case Text(bytes, next) =>
        EscapeGoes(s, pos + 1);
        ReadString(s, start, next, out + bytes)
  }

  function HexByte(d: nat): byte
    requires d < 16
  {
    if d < 10 then (48 + d) as byte else (87 + d) as byte
  }

  /** One byte as the disassembler prints it. */
  function QuoteByte(c: byte): seq<byte> {
    if c == QUOTE then [BACKSLASH, QUOTE]
    else if c == BACKSLASH then [BACKSLASH, BACKSLASH]
    else if c == 10 then [BACKSLASH, 110]
    else if c == 9 then [BACKSLASH, 116]
    else if c == 13 then [BACKSLASH, 114]
    else if c < 0x20 then [BACKSLASH, 117, 48, 48, HexByte(c as int / 16), HexByte(c as int % 16)]
    else [c]
  }

  function QuoteBytes(b: seq<byte>): seq<byte> {
    if |b| == 0 then [] else QuoteBytes(b[..|b| - 1]) + QuoteByte(b[|b| - 1])
  }

  function Quoted(b: seq<byte>): seq<byte> { [QUOTE] + QuoteBytes(b) + [QUOTE] }

  /** The disassembler's loop. */
  method Quote(b: seq<byte>) returns (out: seq<byte>)
    ensures out == Quoted(b)
  {
    out := [QUOTE];
    for i := 0 to |b|
      invariant out == [QUOTE] + QuoteBytes(b[..i])
    {
      assert b[..i + 1][..i] == b[..i];
      out := out + QuoteByte(b[i]);
    }
    assert b[..|b|] == b;
    out := out + [QUOTE];
  }

  /** Reading one printed byte gives it back. */
  lemma ReadQuotedByte(s: seq<byte>, start: nat, pos: nat, out: seq<byte>, c: byte)
    requires At(s, pos, QuoteByte(c))
    ensures ReadString(s, start, pos, out) == ReadString(s, start, pos + |QuoteByte(c)|, out + [c])
  {
    var q := QuoteByte(c);
    assert forall i | 0 <= i < |q| :: s[pos + i] == q[i];
    if |q| == 6 {
      HexOfByte(s, pos + 2, c);
      assert Escape(s, pos + 1) == Text(AppendUtf8(c as int), pos + 6);
    } else if |q| == 2 {
      assert s[pos + 1] == q[1];
      assert Simple(s[pos + 1]) == Some(c);
    }
    hide Hex, AppendUtf8;
  }

  lemma HexOfByte(s: seq<byte>, pos: nat, c: byte)
    requires c < 0x20 && pos + 4 <= |s| && s[pos] == 48 && s[pos + 1] == 48
    requires s[pos + 2] == HexByte(c as int / 16) && s[pos + 3] == HexByte(c as int % 16)
    ensures Hex(s, pos, 4, 0) == Some(c as int) && AppendUtf8(c as int) == [c]
  {
    var h, l := c as int / 16, c as int % 16;
    assert HexDigit(HexByte(h)) == Some(h) && HexDigit(HexByte(l)) == Some(l);
    assert Hex(s, pos + 4, 0, c as int) == Some(c as int);
    assert Hex(s, pos + 3, 1, h) == Some(c as int);
    assert Hex(s, pos + 2, 2, 0) == Some(c as int);
    assert Hex(s, pos + 1, 3, 0) == Some(c as int);
  }

  predicate At(s: seq<byte>, pos: nat, part: seq<byte>) { pos + |part| <= |s| && s[pos..pos + |part|] == part }

  lemma AtBoth(s: seq<byte>, pos: nat, a: seq<byte>, b: seq<byte>)
    ensures At(s, pos, a + b) <==> At(s, pos, a) && At(s, pos + |a|, b)
  {
    if At(s, pos, a + b) {
      assert s[pos..pos + |a|] == (a + b)[..|a|] == a;
      assert s[pos + |a|..pos + |a| + |b|] == (a + b)[|a|..] == b;
    }
    if pos + |a| + |b| <= |s| {
      assert s[pos..pos + |a + b|] == s[pos..pos + |a|] + s[pos + |a|..pos + |a| + |b|];
    }
  }

  lemma QuoteLast(a: seq<byte>, c: byte)
    ensures QuoteBytes(a + [c]) == QuoteBytes(a) + QuoteByte(c)
  {
    assert (a + [c])[..|a|] == a;
    hide QuoteByte;
  }

  /** Lexing a printed string gives back its bytes, wherever it stands. */
  lemma {:induction false} ReadQuoted(s: seq<byte>, start: nat, pos: nat, out: seq<byte>, b: seq<byte>)
    requires At(s, pos, QuoteBytes(b))
    ensures ReadString(s, start, pos, out) == ReadString(s, start, pos + |QuoteBytes(b)|, out + b)
  {
    hide ReadString, QuoteByte, At;
    if |b| > 0 {
      var a, c := b[..|b| - 1], b[|b| - 1];
      assert b == a + [c];
      QuoteLast(a, c);
      AtBoth(s, pos, QuoteBytes(a), QuoteByte(c));
      ReadQuoted(s, start, pos, out, a);
      ReadQuotedByte(s, start, pos + |QuoteBytes(a)|, out + a, c);
      assert out + a + [c] == out + (a + [c]);
    } else {
      assert out + b == out;
    }
  }

  lemma Closes(s: seq<byte>, start: nat, pos: nat, out: seq<byte>)
    requires At(s, pos, [QUOTE])
    ensures pos < |s| && s[pos] == QUOTE && ReadString(s, start, pos, out) == Text(out, pos + 1)
  {
    assert s[pos] == s[pos..pos + 1][0];
  }

  lemma AtMiddle(a: seq<byte>, b: seq<byte>, c: seq<byte>)
    ensures At(a + b + c, |a|, b)
  {
  }

  /** Lexing a printed string gives back its bytes and the place after it. */
  lemma RoundTrip(b: seq<byte>, before: seq<byte>, after: seq<byte>)
    ensures var s := before + Quoted(b) + after;
            At(s, |before|, [QUOTE]) && ReadString(s, |before|, |before| + 1, []) == Text(b, |before| + |Quoted(b)|)
  {
    hide ReadString, QuoteBytes, At;
    var s, q := before + Quoted(b) + after, QuoteBytes(b);
    AtMiddle(before, Quoted(b), after);
    AtBoth(s, |before|, [QUOTE] + q, [QUOTE]);
    AtBoth(s, |before|, [QUOTE], q);
    ReadQuoted(s, |before|, |before| + 1, [], b);
    Closes(s, |before|, |before| + 1 + |q|, [] + b);
    assert [] + b == b;
  }

  /** A pair of surrogate escapes is the one scalar value it stands for: every
      one beyond U+FFFF, each from one pair. */
  lemma PairedScalar(hi: nat, lo: nat)
    requires High(hi) && Low(lo)
    ensures 0x1_0000 <= Paired(hi, lo) < 0x11_0000
    ensures (Paired(hi, lo) - 0x1_0000) / 1024 == hi - 0xD800 && (Paired(hi, lo) - 0x1_0000) % 1024 == lo - 0xDC00
  {
  }

  lemma PairExists(cp: nat)
    requires 0x1_0000 <= cp < 0x11_0000
    ensures var hi, lo := 0xD800 + (cp - 0x1_0000) / 1024, 0xDC00 + (cp - 0x1_0000) % 1024;
            High(hi) && Low(lo) && Paired(hi, lo) == cp
  {
  }

  /** A `\u` escape is read exactly when its four digits are no surrogate, or
      are a high one that a low one follows. */
  lemma EscapeReads(s: seq<byte>, p: nat)
    requires p < |s| && s[p] == 117
    ensures Escape(s, p).Text? <==>
              Hex(s, p + 1, 4, 0).Some? &&
              var v := Hex(s, p + 1, 4, 0).value;
              if High(v) then Follower(s, p + 5).Some? && Low(Follower(s, p + 5).value) else Scalar(v)
    ensures Escape(s, p).Text? && !High(Hex(s, p + 1, 4, 0).value) ==> Escape(s, p) == Text(AppendUtf8(Hex(s, p + 1, 4, 0).value), p + 5)
    ensures Escape(s, p).Text? && High(Hex(s, p + 1, 4, 0).value) ==>
              Escape(s, p) == Text(AppendUtf8(Paired(Hex(s, p + 1, 4, 0).value, Follower(s, p + 5).value)), p + 11)
  {
    HexBound(s, p + 1, 4, 0, 1);
    hide AppendUtf8, Hex;
  }

  lemma {:induction false} HexBound(s: seq<byte>, pos: nat, n: nat, v: nat, limit: nat)
    requires v < limit
    ensures Hex(s, pos, n, v).Some? ==> Hex(s, pos, n, v).value < Power16(n) * limit
    decreases n
  {
    if n > 0 && pos < |s| && HexDigit(s[pos]).Some? {
      HexBound(s, pos + 1, n - 1, v * 16 + HexDigit(s[pos]).value, limit * 16);
    }
  }

  function Power16(n: nat): nat { if n == 0 then 1 else 16 * Power16(n - 1) }
}
