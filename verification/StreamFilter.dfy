/** The pump of the debug adapter: bytes forwarded as they are read, with sync
    marks taken out and counted. */
module StreamFilter {

  import opened Bytes

  /** NUL, US, `protoclj-dap-sync`, US, NUL. */
  const MARK: seq<byte> := [0, 0x1f, 112, 114, 111, 116, 111, 99, 108, 106, 45, 100, 97, 112, 45, 115, 121, 110, 99, 0x1f, 0]

  predicate Starts(s: seq<byte>) { MARK <= s }

  predicate MarkAt(s: seq<byte>, i: nat) { i + |MARK| <= |s| && s[i..i + |MARK|] == MARK }

  /** `s` with its marks taken out from left to right, none sharing a byte with
      the one before it, and how many there were. */
  function Strip(s: seq<byte>): (r: (seq<byte>, nat)) {
    if Starts(s) then var r := Strip(s[|MARK|..]); (r.0, r.1 + 1)
    else if s == [] then ([], 0)
    else var r := Strip(s[1..]); ([s[0]] + r.0, r.1)
  }

  function Concat(xs: seq<seq<byte>>): seq<byte> {
    if |xs| == 0 then [] else Concat(xs[..|xs| - 1]) + xs[|xs| - 1]
  }

  lemma ConcatOne(xs: seq<seq<byte>>, x: seq<byte>)
    ensures Concat(xs + [x]) == Concat(xs) + x
  {
    assert (xs + [x])[..|xs|] == xs;
  }

  lemma StripByte(s: seq<byte>)
    requires s != [] && !MarkAt(s, 0)
    ensures Strip(s) == ([s[0]] + Strip(s[1..]).0, Strip(s[1..]).1)
  {
    if |s| >= |MARK| { assert s[0..0 + |MARK|] == s[..|MARK|]; }
  }

  lemma Shift(s: seq<byte>, i: nat)
    requires s != [] && !MarkAt(s, i + 1)
    ensures !MarkAt(s[1..], i)
  {
    assert i + 1 + |MARK| <= |s| ==> s[1..][i..i + |MARK|] == s[i + 1..i + 1 + |MARK|];
  }

  lemma Tail(s: seq<byte>, cut: nat)
    requires 0 < cut <= |s|
    ensures s[1..][cut - 1..] == s[cut..] && s[..cut] == [s[0]] + s[1..][..cut - 1]
  {
  }

  lemma Assoc(a: seq<byte>, b: seq<byte>, c: seq<byte>)
    ensures a + (b + c) == a + b + c
  {
  }

  /** Bytes before which no mark can begin, whatever follows, go through. */
  lemma {:induction false} StripThrough(s: seq<byte>, cut: nat)
    requires cut <= |s| && forall i: nat | i < cut :: !MarkAt(s, i)
    ensures Strip(s).0 == s[..cut] + Strip(s[cut..]).0 && Strip(s).1 == Strip(s[cut..]).1
  {
    hide MarkAt, Strip;
    if cut > 0 {
      StripByte(s);
      forall i: nat | i < cut - 1 ensures !MarkAt(s[1..], i) { Shift(s, i); }
      StripThrough(s[1..], cut - 1);
      Tail(s, cut);
      Assoc([s[0]], s[1..][..cut - 1], Strip(s[cut..]).0);
    } else {
      assert s[0..] == s && s[..0] + Strip(s).0 == Strip(s).0;
    }
  }

  /** The leftmost mark is taken out. */
  lemma StripMark(s: seq<byte>, at: nat)
    requires MarkAt(s, at) && forall i: nat | i < at :: !MarkAt(s, i)
    ensures Strip(s).0 == s[..at] + Strip(s[at + |MARK|..]).0 && Strip(s).1 == 1 + Strip(s[at + |MARK|..]).1
  {
    StripThrough(s, at);
    var t := s[at..];
    assert t[..|MARK|] == MARK;
    assert t[|MARK|..] == s[at + |MARK|..];
  }

  method FindMark(s: seq<byte>) returns (at: int)
    ensures at >= 0 ==> MarkAt(s, at) && forall i: nat | i < at :: !MarkAt(s, i)
    ensures at < 0 ==> forall i: nat :: !MarkAt(s, i)
  {
    at := 0;
    while at + |MARK| <= |s|
      invariant 0 <= at <= |s| + 1
      invariant forall i: nat | i < at :: !MarkAt(s, i)
      decreases |s| - at
    {
      if s[at..at + |MARK|] == MARK { return; }
      at := at + 1;
    }
    at := -1;
  }

  predicate BeginsMarkAtEnd(s: seq<byte>, k: nat) { k <= |s| && k < |MARK| && s[|s| - k..] == MARK[..k] }

  /** The length of the longest end of `s` that begins the mark. */
  method PartialMarkAtEnd(s: seq<byte>) returns (k: nat)
    ensures BeginsMarkAtEnd(s, k) && forall j: nat | BeginsMarkAtEnd(s, j) :: j <= k
  {
    k := if |s| < |MARK| - 1 then |s| else |MARK| - 1;
    while k > 0
      invariant k <= |s| && k < |MARK|
      invariant forall j: nat | BeginsMarkAtEnd(s, j) :: j <= k
    {
      if s[|s| - k..] == MARK[..k] { return; }
      assert !BeginsMarkAtEnd(s, k);
      k := k - 1;
    }
    assert s[|s|..] == MARK[..0];
  }

  function SequenceLength(c: byte): nat {
    if 0xC0 <= c < 0xE0 then 2 else if 0xE0 <= c < 0xF0 then 3 else if 0xF0 <= c < 0xF8 then 4 else 1
  }

  predicate Continuation(c: byte) { 0x80 <= c < 0xC0 }

  /** The length of `s` without an incomplete sequence at its end, whose lead
      byte is looked for from the `back`-th byte before the end on. */
  function CompleteFrom(s: seq<byte>, back: nat): nat
    requires 1 <= back
    decreases 4 - back
  {
    if back > 3 || back > |s| then |s|
    else if Continuation(s[|s| - back]) then CompleteFrom(s, back + 1)
    else if SequenceLength(s[|s| - back]) > back then |s| - back else |s|
  }

  /** The length of `s` without an incomplete UTF-8 sequence at its end: its
      last lead byte, among the last three bytes, has all its bytes. */
  method CompleteUtf8Prefix(s: seq<byte>) returns (n: nat)
    ensures n == CompleteFrom(s, 1)
    ensures n <= |s| <= n + 3
    ensures n < |s| ==> SequenceLength(s[n]) > |s| - n && forall i | n < i < |s| :: Continuation(s[i])
    ensures n == |s| ==> forall i | 0 <= i < |s| && |s| - i <= 3 && !Continuation(s[i]) && (forall j | i < j < |s| :: Continuation(s[j])) ::
              i + SequenceLength(s[i]) <= |s|
  {
    var back := 1;
    while back <= 3 && back <= |s|
      invariant 1 <= back <= 4 && back <= |s| + 1
      invariant CompleteFrom(s, 1) == CompleteFrom(s, back)
      invariant forall j | 0 <= j < |s| && |s| - back < j :: Continuation(s[j])
    {
      var c := s[|s| - back];
      if !Continuation(c) {
        return if SequenceLength(c) > back then |s| - back else |s|;
      }
      back := back + 1;
    }
    n := |s|;
  }

  /** No mark can begin before the bytes held back, whatever comes next. */
  lemma HeldBack(pending: seq<byte>, more: seq<byte>, k: nat)
    requires BeginsMarkAtEnd(pending, k) && forall j: nat | BeginsMarkAtEnd(pending, j) :: j <= k
    requires forall i: nat :: !MarkAt(pending, i)
    ensures forall i: nat | i < |pending| - k :: !MarkAt(pending + more, i)
  {
    var s := pending + more;
    forall i: nat | i < |pending| - k ensures !MarkAt(s, i) {
      assert !MarkAt(pending, i);
      if i + |MARK| <= |pending| {
        assert s[i..i + |MARK|] == pending[i..i + |MARK|];
      } else if i + |MARK| <= |s| {
        var j := |pending| - i;
        assert !BeginsMarkAtEnd(pending, j);
        assert s[i..i + |MARK|][..j] == pending[i..];
      }
    }
  }

  /** What is still to come out: `pending` first, then whatever is read. */
  ghost predicate SoFar(input: seq<byte>, out: seq<byte>, seen: nat, pending: seq<byte>) {
    forall more: seq<byte> ::
      && Strip(input + more).0 == out + Strip(pending + more).0
      && Strip(input + more).1 == seen + Strip(pending + more).1
  }

  lemma Read(input: seq<byte>, out: seq<byte>, seen: nat, pending: seq<byte>, chunk: seq<byte>)
    requires SoFar(input, out, seen, pending)
    ensures SoFar(input + chunk, out, seen, pending + chunk)
  {
    hide Strip;
    forall more: seq<byte>
      ensures Strip(input + chunk + more).0 == out + Strip(pending + chunk + more).0
      ensures Strip(input + chunk + more).1 == seen + Strip(pending + chunk + more).1
    {
      assert input + chunk + more == input + (chunk + more) && pending + chunk + more == pending + (chunk + more);
    }
  }

  lemma Marked(input: seq<byte>, out: seq<byte>, seen: nat, pending: seq<byte>, at: nat)
    requires SoFar(input, out, seen, pending) && MarkAt(pending, at) && forall i: nat | i < at :: !MarkAt(pending, i)
    ensures SoFar(input, out + pending[..at], seen + 1, pending[at + |MARK|..])
  {
    hide Strip;
    forall more: seq<byte>
      ensures Strip(input + more).0 == out + pending[..at] + Strip(pending[at + |MARK|..] + more).0
      ensures Strip(input + more).1 == seen + 1 + Strip(pending[at + |MARK|..] + more).1
    {
      var s := pending + more;
      assert s[at..at + |MARK|] == pending[at..at + |MARK|];
      forall i: nat | i < at ensures !MarkAt(s, i) {
        assert !MarkAt(pending, i);
        assert s[i..i + |MARK|] == pending[i..i + |MARK|];
      }
      StripMark(s, at);
      assert s[at + |MARK|..] == pending[at + |MARK|..] + more && s[..at] == pending[..at];
    }
  }

  lemma Through(input: seq<byte>, out: seq<byte>, seen: nat, pending: seq<byte>, k: nat, cut: nat)
    requires SoFar(input, out, seen, pending) && BeginsMarkAtEnd(pending, k) && forall j: nat | BeginsMarkAtEnd(pending, j) :: j <= k
    requires (forall i: nat :: !MarkAt(pending, i)) && cut <= |pending| - k
    ensures SoFar(input, out + pending[..cut], seen, pending[cut..])
  {
    hide Strip, MarkAt, BeginsMarkAtEnd;
    forall more: seq<byte>
      ensures Strip(input + more).0 == out + pending[..cut] + Strip(pending[cut..] + more).0
      ensures Strip(input + more).1 == seen + Strip(pending[cut..] + more).1
    {
      HeldBack(pending, more, k);
      StripThrough(pending + more, cut);
      assert (pending + more)[cut..] == pending[cut..] + more && (pending + more)[..cut] == pending[..cut];
    }
  }

  /** Takes every whole mark out of `pending`. */
  method TakeMarks(pending0: seq<byte>, chunks0: seq<seq<byte>>, seen0: nat, ghost input: seq<byte>)
    returns (pending: seq<byte>, chunks: seq<seq<byte>>, seen: nat)
    requires SoFar(input, Concat(chunks0), seen0, pending0)
    ensures SoFar(input, Concat(chunks), seen, pending) && forall i: nat :: !MarkAt(pending, i)
  {
    hide SoFar, Strip;
    pending, chunks, seen := pending0, chunks0, seen0;
    var at := FindMark(pending);
    while at >= 0
      invariant SoFar(input, Concat(chunks), seen, pending)
      invariant at >= 0 ==> MarkAt(pending, at) && forall i: nat | i < at :: !MarkAt(pending, i)
      invariant at < 0 ==> forall i: nat :: !MarkAt(pending, i)
      decreases |pending|
    {
      Marked(input, Concat(chunks), seen, pending, at);
      if at > 0 {
        ConcatOne(chunks, pending[..at]);
        chunks := chunks + [pending[..at]];
      } else {
        assert Concat(chunks) + pending[..0] == Concat(chunks);
      }
      pending := pending[at + |MARK|..];
      seen := seen + 1;
      at := FindMark(pending);
    }
  }

  lemma NoMarkLater(pending: seq<byte>, cut: nat)
    requires cut <= |pending| && forall i: nat :: !MarkAt(pending, i)
    ensures forall i: nat :: !MarkAt(pending[cut..], i)
  {
    forall i: nat ensures !MarkAt(pending[cut..], i) {
      assert !MarkAt(pending, cut + i);
      assert cut + i + |MARK| <= |pending| ==> pending[cut..][i..i + |MARK|] == pending[cut + i..cut + i + |MARK|];
    }
  }

  /** One read: its whole marks are taken out, and what cannot begin a mark or
      end inside a character goes through. */
  method Chunk(chunk: seq<byte>, pending0: seq<byte>, chunks0: seq<seq<byte>>, seen0: nat, ghost input: seq<byte>)
    returns (pending: seq<byte>, chunks: seq<seq<byte>>, seen: nat)
    requires SoFar(input, Concat(chunks0), seen0, pending0)
    ensures SoFar(input + chunk, Concat(chunks), seen, pending) && forall i: nat :: !MarkAt(pending, i)
  {
    hide Strip, SoFar, MarkAt, BeginsMarkAtEnd;
    Read(input, Concat(chunks0), seen0, pending0, chunk);
    pending, chunks, seen := TakeMarks(pending0 + chunk, chunks0, seen0, input + chunk);
    var k := PartialMarkAtEnd(pending);
    var cut := CompleteUtf8Prefix(pending[..|pending| - k]);
    if cut == 0 { return; }
    Through(input + chunk, Concat(chunks), seen, pending, k, cut);
    NoMarkLater(pending, cut);
    ConcatOne(chunks, pending[..cut]);
    chunks := chunks + [pending[..cut]];
    pending := pending[cut..];
  }

  /** The pump, for any way the stream is cut into reads: what goes through is
      the stream with its marks taken out. */
  method Pump(incoming: seq<seq<byte>>) returns (chunks: seq<seq<byte>>, seen: nat)
    ensures Concat(chunks) == Strip(Concat(incoming)).0 && seen == Strip(Concat(incoming)).1
  {
    hide Strip, SoFar, MarkAt;
    var pending: seq<byte> := [];
    chunks, seen := [], 0;
    Nothing();
    for i := 0 to |incoming|
      invariant SoFar(Concat(incoming[..i]), Concat(chunks), seen, pending)
      invariant forall i: nat :: !MarkAt(pending, i)
    {
      ConcatOne(incoming[..i], incoming[i]);
      assert incoming[..i + 1] == incoming[..i] + [incoming[i]];
      pending, chunks, seen := Chunk(incoming[i], pending, chunks, seen, Concat(incoming[..i]));
    }
    assert incoming[..|incoming|] == incoming;
    Ended(Concat(incoming), Concat(chunks), seen, pending);
    if pending != [] {
      ConcatOne(chunks, pending);
      chunks := chunks + [pending];
    } else {
      assert Concat(chunks) + [] == Concat(chunks);
    }
  }

  lemma StripNothing()
    ensures Strip([]) == ([], 0)
  {
  }

  lemma Nothing()
    ensures SoFar(Concat([]), Concat([]), 0, []) && forall i: nat :: !MarkAt([], i)
  {
    forall more: seq<byte>
      ensures Strip([] + more).0 == [] + Strip([] + more).0
    {}
  }

  /** At the end of the stream what is pending holds no mark. */
  lemma Ended(input: seq<byte>, out: seq<byte>, seen: nat, pending: seq<byte>)
    requires SoFar(input, out, seen, pending) && forall i: nat :: !MarkAt(pending, i)
    ensures Strip(input) == (out + pending, seen)
  {
    assert input + [] == input && pending + [] == pending;
    StripThrough(pending, |pending|);
    assert pending[|pending|..] == [] && pending[..|pending|] == pending;
    StripNothing();
    hide Strip, MarkAt;
    assert pending + [] == pending;
  }

  /** However the same bytes are cut into reads, the same bytes go through and
      as many marks are seen. */
  method PumpTwice(a: seq<seq<byte>>, b: seq<seq<byte>>) returns (outA: seq<seq<byte>>, outB: seq<seq<byte>>, seenA: nat, seenB: nat)
    requires Concat(a) == Concat(b)
    ensures Concat(outA) == Concat(outB) && seenA == seenB
  {
    outA, seenA := Pump(a);
    outB, seenB := Pump(b);
  }
}
