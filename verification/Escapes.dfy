/** Escapes and quoted bytes, character by character. */
module Escapes {
  import opened Options
  import opened Bytes
  import opened Literals

  /** The letters of the simple escapes (`n t r b f \ "`) and the bytes they
      stand for. */
  const LETTERS: seq<byte> := [110, 116, 114, 98, 102, 92, 34]
  const STOOD_FOR: seq<byte> := [10, 9, 13, 8, 12, 92, 34]

  /** A simple escape is its byte; a letter that is none of these, no `u` and no
      octal digit is an error. */
  lemma SimpleReads(s: seq<byte>, p: nat)
    requires p < |s|
    ensures forall k | 0 <= k < |LETTERS| && s[p] == LETTERS[k] :: Escape(s, p) == Text([STOOD_FOR[k]], p + 1)
    ensures s[p] !in LETTERS && s[p] != 117 && !(48 <= s[p] <= 55) ==> Escape(s, p) == Bad(UnsupportedEscape, p)
  {
    var c := s[p];
    forall k | 0 <= k < |LETTERS| && c == LETTERS[k] ensures Escape(s, p) == Text([STOOD_FOR[k]], p + 1) {
      assert k == 0 || k == 1 || k == 2 || k == 3 || k == 4 || k == 5 || k == 6;
    }
    if c !in LETTERS {
      assert LETTERS[0] != c && LETTERS[1] != c && LETTERS[2] != c && LETTERS[3] != c && LETTERS[4] != c && LETTERS[5] != c && LETTERS[6] != c;
    }
  }

  const DIGITS: seq<byte> := [48, 49, 50, 51, 52, 53, 54, 55, 56, 57, 97, 98, 99, 100, 101, 102]   // 0-9 a-f
  const CAPITALS: seq<byte> := [48, 49, 50, 51, 52, 53, 54, 55, 56, 57, 65, 66, 67, 68, 69, 70]    // 0-9 A-F

  /** `c` is the digit of value `d`, small or capital. */
  predicate Spells(c: byte, d: nat) { d < 16 && (c == DIGITS[d] || c == CAPITALS[d]) }

  lemma DigitSpelled(c: byte, d: nat)
    ensures HexDigit(c) == Some(d) <==> Spells(c, d)
  {
  }

  /** The four digits after `\u` are read as the number they spell in base 16. */
  lemma HexReads(s: seq<byte>, p: nat, a: nat, b: nat, c: nat, d: nat)
    requires p + 4 <= |s| && Spells(s[p], a) && Spells(s[p + 1], b) && Spells(s[p + 2], c) && Spells(s[p + 3], d)
    ensures Hex(s, p, 4, 0) == Some(4096 * a + 256 * b + 16 * c + d)
  {
    DigitSpelled(s[p], a);
    DigitSpelled(s[p + 1], b);
    DigitSpelled(s[p + 2], c);
    DigitSpelled(s[p + 3], d);
    hide HexDigit, Spells;
    assert Hex(s, p + 4, 0, 4096 * a + 256 * b + 16 * c + d) == Some(4096 * a + 256 * b + 16 * c + d);
    assert Hex(s, p + 3, 1, 256 * a + 16 * b + c) == Some(4096 * a + 256 * b + 16 * c + d);
    assert Hex(s, p + 2, 2, 16 * a + b) == Some(4096 * a + 256 * b + 16 * c + d);
    assert Hex(s, p + 1, 3, a) == Some(4096 * a + 256 * b + 16 * c + d);
  }

  /** Nothing but four digits is read there. */
  lemma {:induction false} HexOnly(s: seq<byte>, p: nat, n: nat, v: nat)
    requires Hex(s, p, n, v).Some?
    ensures n > 0 ==> p + n <= |s| && forall i | p <= i < p + n :: s[i] in DIGITS || s[i] in CAPITALS
    decreases n
  {
    if n > 0 {
      DigitSpelled(s[p], HexDigit(s[p]).value);
      assert s[p] in DIGITS || s[p] in CAPITALS;
      HexOnly(s, p + 1, n - 1, v * 16 + HexDigit(s[p]).value);
    }
  }

  predicate OctalDigit(s: seq<byte>, p: nat) { p < |s| && 48 <= s[p] <= 55 }

  function Digit(s: seq<byte>, p: nat): nat
    requires OctalDigit(s, p)
  {
    s[p] as int - 48
  }

  /** An octal escape has one to three digits, as many as there are, and is the
      character of the number they spell in base 8, up to 255. */
  lemma OctalReads(s: seq<byte>, p: nat)
    requires OctalDigit(s, p)
    ensures var (v, end) :=
              if !OctalDigit(s, p + 1) then (Digit(s, p), p + 1)
              else if !OctalDigit(s, p + 2) then (8 * Digit(s, p) + Digit(s, p + 1), p + 2)
              else (64 * Digit(s, p) + 8 * Digit(s, p + 1) + Digit(s, p + 2), p + 3);
            Escape(s, p) == if v <= 255 then Text(AppendUtf8(v), end) else Bad(OctalRange, p)
  {
    assert Octals(s, p, 3, 0) == Octals(s, p + 1, 2, Digit(s, p));
    if OctalDigit(s, p + 1) {
      assert Octals(s, p + 1, 2, Digit(s, p)) == Octals(s, p + 2, 1, 8 * Digit(s, p) + Digit(s, p + 1));
    }
    hide AppendUtf8;
  }

  /** A literal ends at the next quote; any byte but the quote and the backslash
      stands for itself, and a backslash begins an escape. */
  lemma PlainReads(s: seq<byte>, start: nat, pos: nat, out: seq<byte>)
    ensures pos < |s| && s[pos] == 34 ==> ReadString(s, start, pos, out) == Text(out, pos + 1)
    ensures pos < |s| && s[pos] != 34 && s[pos] != 92 ==> ReadString(s, start, pos, out) == ReadString(s, start, pos + 1, out + [s[pos]])
    ensures pos + 1 < |s| && s[pos] == 92 && Escape(s, pos + 1).Text? ==>
              ReadString(s, start, pos, out) == ReadString(s, start, Escape(s, pos + 1).end, out + Escape(s, pos + 1).bytes)
    ensures pos >= |s| ==> ReadString(s, start, pos, out) == Bad(UnterminatedLiteral, start)
  {
    hide Escape;
  }

  /** What the disassembler prints for one byte: itself, unless it is one of the
      five with a letter or another control character. */
  lemma BytePrinted(b: seq<byte>, c: byte)
    ensures QuoteBytes(b + [c]) == QuoteBytes(b) +
              if c == 34 then [92, 34] else if c == 92 then [92, 92]
              else if c == 10 then [92, 110] else if c == 9 then [92, 116] else if c == 13 then [92, 114]
              else if c < 16 then [92, 117, 48, 48, 48, DIGITS[c]]
              else if c < 32 then [92, 117, 48, 48, 49, DIGITS[c - 16]]
              else [c]
    ensures QuoteBytes([]) == []
  {
    QuoteLast(b, c);
  }
}
