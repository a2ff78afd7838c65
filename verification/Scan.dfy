/** The card's scan of its logs (card.py, `scan`), which reads a file in pieces of any size and counts its newlines and
    the occurrences of a marker without ever holding two pieces. */
module Scan {

  import opened Sets
  import opened Wire

  predicate At(s: seq<Byte>, m: seq<Byte>, p: nat) {
    p + |m| <= |s| && s[p..p + |m|] == m
  }

  /** Every place where the marker occurs, overlapping ones included. */
  function Occurrences(s: seq<Byte>, m: seq<Byte>): set<nat> {
    set p | 0 <= p <= |s| && At(s, m, p)
  }

  /** What `bytes.count` counts: from the left, each occurrence that does not overlap the one counted before it. */
  function Greedy(s: seq<Byte>, m: seq<Byte>, i: nat): nat
    requires m != []
    decreases |s| - i
  {
    if i + |m| > |s| then 0
    else if At(s, m, i) then 1 + Greedy(s, m, i + |m|)
    else Greedy(s, m, i + 1)
  }

  function Count(s: seq<Byte>, m: seq<Byte>): nat
    requires m != []
  {
    Greedy(s, m, 0)
  }

  /** The slice `s[-k:]`, which for k = 0 is all of `s`. */
  function LastOf(s: seq<Byte>, k: nat): seq<Byte> {
    if k == 0 || |s| <= k then s else s[|s| - k..]
  }

  /** The bytes kept for the next piece. */
  function Tail(pieces: seq<seq<Byte>>, m: seq<Byte>): seq<Byte>
    requires m != []
  {
    if pieces == [] then []
    else LastOf(Tail(pieces[..|pieces| - 1], m) + pieces[|pieces| - 1], |m| - 1)
  }

  /** What the scan finds in the pieces it has read. */
  function Found(pieces: seq<seq<Byte>>, m: seq<Byte>): nat {
    if m == [] || pieces == [] then 0
    else
      var n := |pieces| - 1;
      Found(pieces[..n], m) + Count(Tail(pieces[..n], m) + pieces[n], m)
  }

  method ScanPieces(pieces: seq<seq<Byte>>, marker: seq<Byte>) returns (rows: nat, found: nat)
    ensures rows == |Occurrences(Joined(pieces), [LF])|
    ensures found == Found(pieces, marker)
  {
    var tail: seq<Byte> := [];
    rows, found := 0, 0;
    var i := 0;
    EmptyText([LF]);
    while i < |pieces|
      invariant 0 <= i <= |pieces|
      invariant rows == |Occurrences(Joined(pieces[..i]), [LF])|
      invariant found == Found(pieces[..i], marker)
      invariant marker != [] ==> tail == Tail(pieces[..i], marker)
    {
      var piece := pieces[i];
      rows := rows + Count(piece, [LF]);
      if marker != [] {
        found := found + Count(tail + piece, marker);
        tail := LastOf(tail + piece, |marker| - 1);
      }
      assert pieces[..i + 1][..i] == pieces[..i];
      OneByteExact(piece, LF);
      OneByteAdds(Joined(pieces[..i]), piece, LF);
      i := i + 1;
    }
    assert pieces[..i] == pieces;
  }

  // ----- Counting from the left

  /** Starting later never finds more. */
  lemma {:induction false} LaterIsLess(s: seq<Byte>, m: seq<Byte>, i: nat, j: nat)
    requires m != [] && i <= j
    ensures Greedy(s, m, j) <= Greedy(s, m, i)
    decreases |s| - i
  {
    if i < j && i + |m| <= |s| {
      if !At(s, m, i) {
        LaterIsLess(s, m, i + 1, j);
      } else if j < i + |m| {
        AtMostOneMore(s, m, j, i + |m|);
      } else {
        LaterIsLess(s, m, i + |m|, j);
      }
    }
  }

  /** Between two starts less than a marker apart lies at most one count. */
  lemma {:induction false} AtMostOneMore(s: seq<Byte>, m: seq<Byte>, i: nat, j: nat)
    requires m != [] && i <= j <= i + |m|
    ensures Greedy(s, m, i) <= 1 + Greedy(s, m, j)
    decreases |s| - i
  {
    if i < j && i + |m| <= |s| {
      if At(s, m, i) {
        LaterIsLess(s, m, j, i + |m|);
      } else {
        AtMostOneMore(s, m, i + 1, j);
      }
    }
  }

  lemma ShiftAt(s: seq<Byte>, m: seq<Byte>, off: nat, i: nat)
    requires off <= |s|
    ensures At(s[off..], m, i) <==> At(s, m, off + i)
  {
    if off + i + |m| <= |s| {
      assert s[off..][i..i + |m|] == s[off + i..off + i + |m|];
    }
  }

  lemma {:induction false} Shift(s: seq<Byte>, m: seq<Byte>, off: nat, i: nat)
    requires m != [] && off <= |s|
    ensures Greedy(s[off..], m, i) == Greedy(s, m, off + i)
    decreases |s| - i
  {
    hide At;
    if i + |m| <= |s| - off {
      ShiftAt(s, m, off, i);
      Shift(s, m, off, if At(s, m, off + i) then i + |m| else i + 1);
    }
  }

  /** Where a window that may hold an occurrence across the cut at `b` begins. */
  function Cut(b: nat, m: seq<Byte>): nat {
    if b + 1 <= |m| then 0 else b + 1 - |m|
  }

  /** A count over the whole is within a count up to a cut and one from the window across it. */
  lemma {:induction false} SplitCount(s: seq<Byte>, m: seq<Byte>, i: nat, b: nat)
    requires m != [] && b <= |s|
    ensures Greedy(s, m, i) <= Greedy(s[..b], m, i) + Greedy(s, m, Cut(b, m))
    decreases |s| - i
  {
    if i + |m| <= b {
      assert s[..b][i..i + |m|] == s[i..i + |m|];
      SplitCount(s, m, if At(s, m, i) then i + |m| else i + 1, b);
    } else {
      LaterIsLess(s, m, Cut(b, m), i);
    }
  }

  // ----- Counts and occurrences

  function From(s: seq<Byte>, m: seq<Byte>, i: nat): set<nat> {
    set p | i <= p <= |s| && At(s, m, p)
  }

  lemma FromAfter(s: seq<Byte>, m: seq<Byte>, i: nat)
    requires m != []
    ensures i + |m| > |s| ==> From(s, m, i) == {}
    ensures !At(s, m, i) ==> From(s, m, i) == From(s, m, i + 1)
  {
  }

  lemma FromOne(s: seq<Byte>, m: seq<Byte>, i: nat)
    requires m != [] && At(s, m, i)
    ensures From(s, m, i + |m|) + {i} <= From(s, m, i) && i !in From(s, m, i + |m|)
  {
  }

  lemma {:induction false} CountsOccurrences(s: seq<Byte>, m: seq<Byte>, i: nat)
    requires m != []
    ensures Greedy(s, m, i) <= |From(s, m, i)|
    ensures Greedy(s, m, i) == 0 <==> From(s, m, i) == {}
    decreases |s| - i
  {
    hide From;
    FromAfter(s, m, i);
    if i + |m| <= |s| {
      if At(s, m, i) {
        CountsOccurrences(s, m, i + |m|);
        FromOne(s, m, i);
        PartIsSmaller(From(s, m, i + |m|) + {i}, From(s, m, i));
      } else {
        CountsOccurrences(s, m, i + 1);
      }
    }
  }

  /** No proper end of the marker is also a beginning of it, so that two occurrences never overlap. */
  ghost predicate Borderless(m: seq<Byte>) {
    forall k :: 0 < k < |m| ==> m[..k] != m[|m| - k..]
  }

  lemma OverlapIsBorder(s: seq<Byte>, m: seq<Byte>, p: nat, q: nat)
    requires At(s, m, p) && At(s, m, q) && p < q < p + |m|
    ensures var k := p + |m| - q;
            0 < k < |m| && m[..k] == m[|m| - k..]
  {
    var k := p + |m| - q;
    assert m[..k] == s[q..q + |m|][..k] == s[q..q + k];
    assert m[|m| - k..] == s[p..p + |m|][|m| - k..] == s[q..q + k];
  }

  lemma NoOverlap(s: seq<Byte>, m: seq<Byte>, p: nat, q: nat)
    requires Borderless(m) && At(s, m, p) && At(s, m, q) && p < q
    ensures p + |m| <= q
  {
    if q < p + |m| {
      OverlapIsBorder(s, m, p, q);
    }
  }

  lemma FromNext(s: seq<Byte>, m: seq<Byte>, i: nat)
    requires m != [] && At(s, m, i) && Borderless(m)
    ensures From(s, m, i) == From(s, m, i + |m|) + {i} && i !in From(s, m, i + |m|)
  {
    hide Borderless;
    forall p | p in From(s, m, i) && p != i
      ensures p in From(s, m, i + |m|)
    {
      NoOverlap(s, m, i, p);
    }
  }

  lemma {:induction false} BorderlessExact(s: seq<Byte>, m: seq<Byte>, i: nat)
    requires m != [] && Borderless(m)
    ensures Greedy(s, m, i) == |From(s, m, i)|
    decreases |s| - i
  {
    hide Borderless, From;
    FromAfter(s, m, i);
    if i + |m| <= |s| {
      if At(s, m, i) {
        BorderlessExact(s, m, i + |m|);
        FromNext(s, m, i);
      } else {
        BorderlessExact(s, m, i + 1);
      }
    }
  }

  lemma AllFromZero(s: seq<Byte>, m: seq<Byte>)
    ensures From(s, m, 0) == Occurrences(s, m)
  {
  }

  /** What lies before a cut, and what begins in the window across it, are all occurrences, each once. */
  lemma SplitOccurrences(a: seq<Byte>, c: seq<Byte>, m: seq<Byte>)
    requires m != []
    ensures Occurrences(a + c, m) == Occurrences(a, m) + From(a + c, m, Cut(|a|, m))
    ensures Occurrences(a, m) !! From(a + c, m, Cut(|a|, m))
  {
    forall p: nat | p + |m| <= |a|
      ensures At(a, m, p) <==> At(a + c, m, p)
    {
      assert a[p..p + |m|] == (a + c)[p..p + |m|];
    }
  }

  // ----- Newlines

  lemma OneByteExact(s: seq<Byte>, b: Byte)
    ensures Count(s, [b]) == |Occurrences(s, [b])|
  {
    BorderlessExact(s, [b], 0);
    AllFromZero(s, [b]);
  }

  lemma OneByteAdds(a: seq<Byte>, c: seq<Byte>, b: Byte)
    ensures |Occurrences(a + c, [b])| == |Occurrences(a, [b])| + |Occurrences(c, [b])|
  {
    SplitOccurrences(a, c, [b]);
    BorderlessExact(a + c, [b], |a|);
    Shift(a + c, [b], |a|, 0);
    assert (a + c)[|a|..] == c;
    OneByteExact(c, b);
  }

  lemma EmptyText(m: seq<Byte>)
    requires m != []
    ensures Occurrences([], m) == {}
  {
  }

  // ----- The marker

  /** A marker of two bytes or more is searched in each piece with the last bytes before it, one less than it has. */
  lemma {:induction false} TailIs(pieces: seq<seq<Byte>>, m: seq<Byte>)
    requires |m| >= 2
    ensures Cut(|Joined(pieces)|, m) <= |Joined(pieces)|
    ensures Tail(pieces, m) == Joined(pieces)[Cut(|Joined(pieces)|, m)..]
  {
    if pieces != [] {
      var before, piece := pieces[..|pieces| - 1], pieces[|pieces| - 1];
      TailIs(before, m);
      var text, cut := Joined(before), Cut(|Joined(before)|, m);
      assert text[cut..] + piece == (text + piece)[cut..];
    }
  }

  lemma SearchedFrom(pieces: seq<seq<Byte>>, m: seq<Byte>)
    requires |m| >= 2 && pieces != []
    ensures var before := pieces[..|pieces| - 1];
            Found(pieces, m) == Found(before, m) + Greedy(Joined(pieces), m, Cut(|Joined(before)|, m))
  {
    var before, piece := pieces[..|pieces| - 1], pieces[|pieces| - 1];
    TailIs(before, m);
    var text, cut := Joined(before), Cut(|Joined(before)|, m);
    assert text[cut..] + piece == (text + piece)[cut..];
    Shift(text + piece, m, cut, 0);
  }

  /** However the file is cut into pieces, a marker of two bytes or more is found at least as often as one count over
      the whole file would find it, and at most as often as it occurs. */
  lemma {:induction false} FoundBetween(pieces: seq<seq<Byte>>, m: seq<Byte>)
    requires |m| >= 2
    ensures Count(Joined(pieces), m) <= Found(pieces, m) <= |Occurrences(Joined(pieces), m)|
  {
    if pieces == [] {
      EmptyText(m);
    } else {
      var before, piece := pieces[..|pieces| - 1], pieces[|pieces| - 1];
      var text := Joined(before);
      FoundBetween(before, m);
      SearchedFrom(pieces, m);
      SplitCount(text + piece, m, 0, |text|);
      assert (text + piece)[..|text|] == text;
      SplitOccurrences(text, piece, m);
      CountsOccurrences(text + piece, m, Cut(|text|, m));
    }
  }

  /** A marker no occurrence of which can overlap another is counted exactly, however the file is cut. */
  lemma FoundExactly(pieces: seq<seq<Byte>>, m: seq<Byte>)
    requires |m| >= 2 && Borderless(m)
    ensures Found(pieces, m) == |Occurrences(Joined(pieces), m)| == Count(Joined(pieces), m)
  {
    FoundBetween(pieces, m);
    BorderlessExact(Joined(pieces), m, 0);
    AllFromZero(Joined(pieces), m);
  }

  /** The slice that should keep nothing before the next piece keeps everything when the marker is one byte long. */
  lemma {:induction false} OneByteTail(pieces: seq<seq<Byte>>, b: Byte)
    ensures Tail(pieces, [b]) == Joined(pieces)
  {
    if pieces != [] {
      OneByteTail(pieces[..|pieces| - 1], b);
    }
  }

  /** A marker is found at all exactly when it occurs in the file, whatever its length and however the file is cut. */
  lemma {:induction false} FoundIffOccurs(pieces: seq<seq<Byte>>, m: seq<Byte>)
    requires m != []
    ensures Found(pieces, m) > 0 <==> Occurrences(Joined(pieces), m) != {}
  {
    AllFromZero(Joined(pieces), m);
    CountsOccurrences(Joined(pieces), m, 0);
    if |m| >= 2 {
      FoundBetween(pieces, m);
    } else if pieces == [] {
      EmptyText(m);
    } else {
      var before, piece := pieces[..|pieces| - 1], pieces[|pieces| - 1];
      assert m == [m[0]];
      FoundIffOccurs(before, m);
      OneByteTail(before, m[0]);
      SplitOccurrences(Joined(before), piece, m);
    }
  }

  /** The markers that a request to `--inspect` may name (card.py:71, 998): 32 hexadecimal digits in lower case. */
  predicate Admitted(m: seq<Byte>) {
    |m| == 32 && forall i :: 0 <= i < |m| ==> 0x30 <= m[i] <= 0x39 || 0x61 <= m[i] <= 0x66
  }

  /** Every marker the program can be asked for is found exactly if it occurs, and counted between the two counts. */
  lemma AdmittedIsCounted(pieces: seq<seq<Byte>>, m: seq<Byte>)
    requires Admitted(m)
    ensures Found(pieces, m) > 0 <==> Occurrences(Joined(pieces), m) != {}
    ensures Count(Joined(pieces), m) <= Found(pieces, m) <= |Occurrences(Joined(pieces), m)|
  {
    hide Found, Count, Occurrences;
    FoundBetween(pieces, m);
    FoundIffOccurs(pieces, m);
  }

  // ----- A marker of one byte, which only a caller of `scan` itself could name

  /** It is counted right exactly when no piece before the last holds it: each piece is counted again with every later
      one. */
  lemma OneByteFound(pieces: seq<seq<Byte>>, b: Byte)
    requires pieces != []
    ensures Found(pieces, [b]) == Count(Joined(pieces), [b])
       <==> Occurrences(Joined(pieces[..|pieces| - 1]), [b]) == {}
  {
    OneByteTail(pieces[..|pieces| - 1], b);
    FoundIffOccurs(pieces[..|pieces| - 1], [b]);
  }

  /** Two pieces, the one occurrence in the first: it is found twice. */
  lemma OneByteFoundTwice()
    ensures Found([[7], [8]], [7]) == 2 && Occurrences(Joined([[7], [8]]), [7]) == {0}
  {
    var pieces: seq<seq<Byte>> := [[7], [8]];
    assert pieces[..1] == [[7]] && pieces[..1][..0] == [];
    OneByteTail(pieces[..1], 7);
    OneByteTail([], 7);
    assert Joined(pieces[..1]) == [7];
    assert Joined(pieces) == [7, 8];
    assert [7, 8][0..1] == [7] && [7, 8][1..2] == [8];
    assert At([7, 8], [7], 0) && !At([7, 8], [7], 1);
    assert Greedy([7, 8], [7], 1) == 0;
    assert At([7], [7], 0) && Greedy([7], [7], 1) == 0;
  }
}
