/** The reader's lexer on string literals: a cursor over the source text. */
module StringLexer {
  import opened Options
  import opened Bytes
  import opened Literals

  const NEWLINE: byte := 10

  /** The line and the column of a position; a column counts code points. */
  function Line(s: seq<byte>, pos: nat): nat
    requires pos <= |s|
  {
    if pos == 0 then 1 else Line(s, pos - 1) + (if s[pos - 1] == 10 then 1 else 0)
  }

  function Column(s: seq<byte>, pos: nat): nat
    requires pos <= |s|
  {
    if pos == 0 || s[pos - 1] == 10 then 1
    else Column(s, pos - 1) + (if Trail(s[pos - 1]) then 0 else 1)
  }

  /** A string token or an error, with the place it is reported at. */
  datatype Token =
    | StringToken(text: seq<byte>, line: nat, column: nat)
    | ErrorToken(fault: Fault, line: nat, column: nat)

  /** The token a literal that opens at `start` amounts to. */
  ghost predicate Describes(t: Token, s: seq<byte>, start: nat, r: Lexed)
    requires start <= |s|
  {
    match r
    case Text(bytes, _) => t == StringToken(bytes, Line(s, start), Column(s, start))
    case Bad(fault, at) => at <= |s| && t == ErrorToken(fault, Line(s, at), Column(s, at))
  }

  /** An error in an escape is reported at its letter. */
  lemma BadAt(s: seq<byte>, p: nat)
    requires p < |s| && Escape(s, p).Bad?
    ensures Escape(s, p).at == p
  {
    hide AppendUtf8, Octals, Hex;
  }

  lemma FourDigitsBound(s: seq<byte>, pos: nat)
    ensures Hex(s, pos, 4, 0).Some? ==> Hex(s, pos, 4, 0).value < 0x1_0000
  {
    HexBound(s, pos, 4, 0, 1);
    hide Hex;
  }

  class Lexer {
    const source: seq<byte>
    var pos: nat
    var line: nat
    var column: nat

    /** The cursor is in the text and knows its line and column. */
    predicate Valid()
      reads this
    {
      pos <= |source| && line == Line(source, pos) && column == Column(source, pos)
    }

    constructor (text: seq<byte>)
      ensures Valid() && source == text && pos == 0
    {
      source := text;
      pos, line, column := 0, 1, 1;
    }

    method Advance()
      requires Valid()
      modifies this
      ensures Valid() && pos == if old(pos) < |source| then old(pos) + 1 else old(pos)
    {
      if pos == |source| { return; }
      if source[pos] == NEWLINE {
        line, column := line + 1, 1;
      } else if !Trail(source[pos]) {
        column := column + 1;
      }
      pos := pos + 1;
    }

    /** Four hexadecimal digits, if they are there. */
    method Hex4() returns (r: Option<nat>)
      requires Valid()
      modifies this
      ensures Valid() && r == Hex(source, old(pos), 4, 0)
      ensures r.Some? ==> pos == old(pos) + 4
    {
      var v := 0;
      for i := 0 to 4
        invariant Valid() && pos == old(pos) + i
        invariant Hex(source, old(pos), 4, 0) == Hex(source, pos, 4 - i, v)
      {
        if pos == |source| { return None; }
        var d := HexDigit(source[pos]);
        if d.None? { return None; }
        v := v * 16 + d.value;
        Advance();
      }
      return Some(v);
    }

    /** One to three octal digits. */
    method Octal3() returns (v: nat)
      requires Valid()
      modifies this
      ensures Valid() && (v, pos) == Octals(source, old(pos), 3, 0)
    {
      v := 0;
      var digits := 0;
      while pos < |source| && digits < 3 && Octal(source[pos])
        invariant Valid() && digits <= 3
        invariant Octals(source, old(pos), 3, 0) == Octals(source, pos, 3 - digits, v)
        decreases 3 - digits
      {
        v := v * 8 + (source[pos] as int - 48);
        digits := digits + 1;
        Advance();
      }
    }

    /** A `\u` escape, the `u` consumed. */
    method LexUnicode() returns (r: Lexed)
      requires Valid() && 0 < pos && source[pos - 1] == 117
      modifies this
      ensures Valid() && r == Escape(source, old(pos) - 1)
      ensures r.Text? ==> pos == r.end
    {
      hide AppendUtf8, Hex, Octals, Line, Column;
      var p := pos - 1;
      var cp := Hex4();
      if cp.None? { return Bad(FourDigits, p); }
      var v := cp.value;
      FourDigitsBound(source, p + 1);
      if High(v) {
        var lo := None;
        if pos + 1 < |source| && source[pos] == BACKSLASH && source[pos + 1] == 117 {
          Advance();
          Advance();
          lo := Hex4();
        }
        if lo.None? || !Low(lo.value) { return Bad(UnpairedSurrogate, p); }
        v := Paired(v, lo.value);
      } else if Low(v) {
        return Bad(UnpairedSurrogate, p);
      }
      return Text(AppendUtf8(v), pos);
    }

    /** The escape whose letter the cursor is at. */
    method LexEscape() returns (r: Lexed)
      requires Valid() && pos < |source|
      modifies this
      ensures Valid() && r == Escape(source, old(pos))
      ensures r.Text? ==> pos == r.end
    {
      hide AppendUtf8, Hex, Line, Column;
      var p := pos;
      var c := source[p];
      if Simple(c).Some? {
        Advance();
        return Text([Simple(c).value], pos);
      }
      if c == 117 {
        Advance();
        r := LexUnicode();
        return;
      }
      if Octal(c) {
        var v := Octal3();
        if v > 255 { return Bad(OctalRange, p); }
        return Text(AppendUtf8(v), pos);
      }
      return Bad(UnsupportedEscape, p);
    }

    /** Lexes the literal that opens at the cursor. */
    method LexString() returns (t: Token)
      requires Valid() && pos < |source| && source[pos] == QUOTE
      modifies this
      ensures Valid()
      ensures Describes(t, source, old(pos), ReadString(source, old(pos), old(pos) + 1, []))
      ensures t.StringToken? ==> pos == ReadString(source, old(pos), old(pos) + 1, []).end
    {
      hide Escape, AppendUtf8;
      var start, startLine, startColumn := pos, line, column;
      Advance();
      var out := [];
      while pos < |source| && source[pos] != QUOTE
        invariant Valid()
        invariant ReadString(source, start, start + 1, []) == ReadString(source, start, pos, out)
        decreases |source| - pos
      {
        if source[pos] == BACKSLASH {
          Advance();
          if pos == |source| { return ErrorToken(UnterminatedEscape, startLine, startColumn); }
          var p, escLine, escColumn := pos, line, column;
          var r := LexEscape();
          match r {
            case Bad(fault, at) =>
              BadAt(source, p);
              return ErrorToken(fault, escLine, escColumn);
            case Text(bytes, next) =>
              EscapeGoes(source, p);
              out := out + bytes;
          }
        } else {
          out := out + [source[pos]];
          Advance();
        }
      }
      if pos == |source| { return ErrorToken(UnterminatedLiteral, startLine, startColumn); }
      Advance();
      return StringToken(out, startLine, startColumn);
    }
  }
}
