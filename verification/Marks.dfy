/** What the pump takes out and what it may cut, told by the bytes. */
module Marks {
  import opened Bytes
  import opened Literals
  import opened StreamFilter

  predicate Ascii(s: string) { forall i | 0 <= i < |s| :: s[i] < 128 as char }

  function Spelled(s: string): seq<byte>
    requires Ascii(s)
  {
    seq(|s|, i requires 0 <= i < |s| => s[i] as int as byte)
  }

  lemma MarkSpelled()
    ensures Ascii("protoclj-dap-sync") && MARK == [0, 31] + Spelled("protoclj-dap-sync") + [31, 0]
  {
  }

  /** The pieces with a mark between each two. */
  function Marked(ps: seq<seq<byte>>): seq<byte>
    requires ps != []
    decreases |ps|
  {
    if |ps| == 1 then ps[0] else ps[0] + MARK + Marked(ps[1..])
  }

  function Joined(ps: seq<seq<byte>>): seq<byte>
    decreases |ps|
  {
    if ps == [] then [] else ps[0] + Joined(ps[1..])
  }

  predicate NoMark(s: seq<byte>, before: nat) { forall i: nat | i < before :: !MarkAt(s, i) }

  /** Each mark is the first one after the mark before it; the last piece has
      none. */
  predicate Leftmost(ps: seq<seq<byte>>)
    requires ps != []
    decreases |ps|
  {
    if |ps| == 1 then NoMark(ps[0], |ps[0]|) else NoMark(Marked(ps), |ps[0]|) && Leftmost(ps[1..])
  }

  /** The stream without its marks is the pieces between them, and there is one
      mark less than pieces. */
  lemma {:induction false} StrippedPieces(ps: seq<seq<byte>>)
    requires ps != [] && Leftmost(ps)
    ensures Strip(Marked(ps)) == (Joined(ps), |ps| - 1)
    decreases |ps|
  {
    hide Strip, MarkAt;
    var s, p := Marked(ps), ps[0];
    if |ps| == 1 {
      StripThrough(s, |s|);
      StripNothing();
      assert s[|s|..] == [] && s[..|s|] + [] == s && Joined(ps[1..]) == [] && s + [] == s;
    } else {
      StrippedPieces(ps[1..]);
      assert s[|p|..|p| + |MARK|] == MARK && s[..|p|] == p && s[|p| + |MARK|..] == Marked(ps[1..]);
      assert MarkAt(s, |p|) by { MarkHere(s, |p|); }
      StripMark(s, |p|);
    }
  }

  lemma MarkHere(s: seq<byte>, i: nat)
    requires i + |MARK| <= |s| && s[i..i + |MARK|] == MARK
    ensures MarkAt(s, i)
  {
  }

  /** Every stream is such pieces in one way, the one the pump finds. */
  lemma {:induction false} PiecesExist(s: seq<byte>) returns (ps: seq<seq<byte>>)
    ensures ps != [] && Marked(ps) == s && Leftmost(ps)
    decreases |s|
  {
    if NoMark(s, |s|) {
      ps := [s];
    } else {
      var at := FirstMark(s, 0);
      var rest := PiecesExist(s[at + |MARK|..]);
      ps := [s[..at]] + rest;
      assert ps[1..] == rest;
      assert s == s[..at] + s[at..at + |MARK|] + s[at + |MARK|..];
    }
  }

  lemma FirstMark(s: seq<byte>, from: nat) returns (at: nat)
    requires NoMark(s, from) && !NoMark(s, |s|)
    ensures MarkAt(s, at) && NoMark(s, at)
    decreases |s| - from
  {
    if MarkAt(s, from) {
      at := from;
    } else {
      at := FirstMark(s, from + 1);
    }
  }

  // ---- characters

  /** A lead byte with continuations after it. */
  predicate Sequence(t: seq<byte>) { t != [] && !Continuation(t[0]) && forall i | 0 < i < |t| :: Continuation(t[i]) }

  lemma {:induction false} LeadFound(a: seq<byte>, t: seq<byte>, back: nat)
    requires Sequence(t) && 1 <= back <= |t|
    ensures CompleteFrom(a + t, back) == if |t| <= 3 && SequenceLength(t[0]) > |t| then |a| else |a| + |t|
    decreases |t| - back
  {
    var s := a + t;
    assert s[|s| - back] == t[|t| - back];
    if back < |t| && back <= 3 { LeadFound(a, t, back + 1); }
    hide SequenceLength;
  }

  /** A whole character at the end goes through; of one that is not whole,
      everything is held back, and nothing else. */
  lemma CharacterUncut(a: seq<byte>, cp: nat, k: nat)
    requires Scalar(cp) && 0 < k <= |AppendUtf8(cp)|
    ensures CompleteFrom(a + AppendUtf8(cp)[..k], 1) == if k == |AppendUtf8(cp)| then |a| + k else |a|
  {
    Encoded(cp);
    LeadFound(a, AppendUtf8(cp)[..k], 1);
    hide AppendUtf8, SequenceLength, Continuation;
  }

  /** On any bytes, well formed or not: `k` bytes are held back exactly when
      they are a lead byte of a longer sequence and continuation bytes. */
  lemma HeldBytes(s: seq<byte>, k: nat)
    requires 0 < k <= |s|
    ensures CompleteFrom(s, 1) == |s| - k <==>
              && (forall i | |s| - k < i < |s| :: 0x80 <= s[i] < 0xC0)
              && var c := s[|s| - k];
                 (k == 1 && 0xC0 <= c < 0xF8) || (k == 2 && 0xE0 <= c < 0xF8) || (k == 3 && 0xF0 <= c < 0xF8)
  {
    if k > 1 { assert CompleteFrom(s, 1) == |s| - k ==> Continuation(s[|s| - 1]); }
    if k > 2 { assert CompleteFrom(s, 1) == |s| - k ==> Continuation(s[|s| - 2]); }
  }

  /** The lead byte tells the length; the others continue. */
  lemma Encoded(cp: nat)
    requires Scalar(cp)
    ensures var e := AppendUtf8(cp); Sequence(e) && |e| <= 4 && SequenceLength(e[0]) == |e|
  {
  }
}
