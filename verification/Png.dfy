/** The filter that takes a picture's text chunks out (pictures/graphs.py, `strip_png`), over the chunk layout of
    section 5.3 of the PNG specification: a length, a type, that many bytes and a checksum. */
module Png {

  import opened Wrappers
  import opened Wire

  const SIGNATURE: Bytes := [0x89, 0x50, 0x4e, 0x47, 0x0d, 0x0a, 0x1a, 0x0a]

  const IHDR: Bytes := [0x49, 0x48, 0x44, 0x52]
  const PLTE: Bytes := [0x50, 0x4c, 0x54, 0x45]
  const TRNS: Bytes := [0x74, 0x52, 0x4e, 0x53]
  const IDAT: Bytes := [0x49, 0x44, 0x41, 0x54]
  const IEND: Bytes := [0x49, 0x45, 0x4e, 0x44]

  datatype NotPng = NotAPng | TruncatedPng

  predicate IsKept(kind: Bytes) {
    kind == IHDR || kind == PLTE || kind == TRNS || kind == IDAT || kind == IEND
  }

  /** Four bytes as a number, the most significant first. */
  function Number(b: Bytes): nat
    requires |b| == 4
  {
    (b[0] as int) * 0x1000000 + (b[1] as int) * 0x10000 + (b[2] as int) * 0x100 + b[3] as int
  }

  /** Where the chunk that begins at `at` ends. */
  function End(data: Bytes, at: nat): nat
    requires at + 8 <= |data|
  {
    at + 12 + Number(data[at..at + 4])
  }

  function Kind(data: Bytes, at: nat): Bytes
    requires at + 8 <= |data|
  {
    data[at + 4..at + 8]
  }

  datatype Walk = Chunks(list: seq<Bytes>) | CutShort

  /** The chunks from `at` on, up to the first IEND or to where no chunk can begin. */
  function WalkFrom(data: Bytes, at: nat): Walk
    decreases |data| - at
  {
    if at + 8 > |data| then Chunks([])
    else if End(data, at) > |data| then CutShort
    else if Kind(data, at) == IEND then Chunks([data[at..End(data, at)]])
    else
      match WalkFrom(data, End(data, at))
      case Chunks(list) => Chunks([data[at..End(data, at)]] + list)
      case CutShort => CutShort
  }

  /** A chunk on its own. */
  predicate IsChunk(c: Bytes) {
    |c| >= 12 && |c| == 12 + Number(c[..4])
  }

  function Kept(list: seq<Bytes>): seq<Bytes> {
    if list == [] then []
    else if |list[0]| >= 8 && IsKept(list[0][4..8]) then [list[0]] + Kept(list[1..])
    else Kept(list[1..])
  }

  function AllOf(list: seq<Bytes>): Bytes {
    if list == [] then [] else list[0] + AllOf(list[1..])
  }

  function Whole(kept: seq<Bytes>): Result<Bytes, NotPng> {
    if |kept| < 2 then Err(NotAPng) else Ok(SIGNATURE + AllOf(kept))
  }

  function Strip(data: Bytes): Result<Bytes, NotPng> {
    if |data| < 8 || data[..8] != SIGNATURE then Err(NotAPng)
    else
      match WalkFrom(data, 8)
      case CutShort => Err(TruncatedPng)
      case Chunks(list) => Whole(Kept(list))
  }

  /** The outcome once `kept` chunks were kept and the walk stands at `at`. */
  function StripFrom(data: Bytes, at: nat, kept: seq<Bytes>): Result<Bytes, NotPng> {
    match WalkFrom(data, at)
    case CutShort => Err(TruncatedPng)
    case Chunks(list) => Whole(kept + Kept(list))
  }

  function WithChunk(data: Bytes, at: nat, kept: seq<Bytes>): seq<Bytes>
    requires at + 8 <= |data| && End(data, at) <= |data|
  {
    if IsKept(Kind(data, at)) then kept + [data[at..End(data, at)]] else kept
  }

  lemma HeadOf(data: Bytes, at: nat, end: nat)
    requires at + 12 <= end <= |data|
    ensures data[at..end][..4] == data[at..at + 4] && data[at..end][4..8] == data[at + 4..at + 8]
  {
    var c := data[at..end];
    assert forall i :: 4 <= i < 8 ==> c[i] == data[at + i];
    assert forall i :: 0 <= i < 4 ==> c[4..8][i] == c[4 + i];
  }

  lemma StripOneChunk(data: Bytes, at: nat, kept: seq<Bytes>)
    requires at + 8 <= |data| && End(data, at) <= |data|
    ensures StripFrom(data, at, kept)
         == if Kind(data, at) == IEND then Whole(WithChunk(data, at, kept))
            else StripFrom(data, End(data, at), WithChunk(data, at, kept))
  {
    var c := data[at..End(data, at)];
    HeadOf(data, at, End(data, at));
    KeptOneMore(c, [], kept);
    var more := WithChunk(data, at, kept);
    assert more + Kept([]) == more;
    match WalkFrom(data, End(data, at))
    case CutShort =>
    case Chunks(list) => KeptOneMore(c, list, kept);
  }

  lemma KeptOneMore(c: Bytes, list: seq<Bytes>, kept: seq<Bytes>)
    requires |c| >= 8
    ensures kept + Kept([c] + list) == (if IsKept(c[4..8]) then kept + [c] else kept) + Kept(list)
    ensures [c] + [] == [c]
  {
    assert ([c] + list)[1..] == list;
    assert kept + ([c] + Kept(list)) == kept + [c] + Kept(list);
  }

  method StripPng(data: Bytes) returns (r: Result<Bytes, NotPng>)
    ensures r == Strip(data)
  {
    if |data| < 8 || data[..8] != SIGNATURE {
      return Err(NotAPng);
    }
    hide Strip, StripFrom, Whole, Number;
    var kept, at := [data[..8]], 8;
    assert kept[1..] == [];
    StripStart(data);
    while at + 8 <= |data|
      invariant 8 <= at <= |data|
      invariant |kept| >= 1 && kept[0] == SIGNATURE
      invariant StripFrom(data, at, kept[1..]) == Strip(data)
      decreases |data| - at
    {
      var kind, end := Kind(data, at), End(data, at);
      if end > |data| {
        return Err(TruncatedPng);
      }
      StripOneChunk(data, at, kept[1..]);
      ghost var before := kept;
      if IsKept(kind) {
        kept := kept + [data[at..end]];
        assert kept[1..] == before[1..] + [data[at..end]];
      }
      assert kept[1..] == WithChunk(data, at, before[1..]);
      at := end;
      if kind == IEND {
        assert Strip(data) == Whole(kept[1..]);
        break;
      }
    }
    assert Strip(data) == Whole(kept[1..]) by {
      StripEnd(data, at, kept[1..]);
    }
    WholeIs(kept);
    if |kept| < 3 {
      return Err(NotAPng);
    }
    return Ok(AllOf(kept));
  }

  lemma StripStart(data: Bytes)
    requires |data| >= 8 && data[..8] == SIGNATURE
    ensures StripFrom(data, 8, []) == Strip(data)
  {
    assert forall list :: [] + Kept(list) == Kept(list);
  }

  lemma StripEnd(data: Bytes, at: nat, kept: seq<Bytes>)
    ensures at + 8 > |data| ==> StripFrom(data, at, kept) == Whole(kept)
  {
    assert kept + [] == kept;
  }

  lemma WholeIs(kept: seq<Bytes>)
    requires kept != [] && kept[0] == SIGNATURE
    ensures Whole(kept[1..]) == if |kept| < 3 then Err(NotAPng) else Ok(AllOf(kept))
  {
  }

  // ----- What the walk finds

  /** A whole picture after its signature: chunks one after another, the first IEND the last of them, and behind them
      anything at all, or, without an IEND, too little for another chunk to begin. */
  ghost predicate Layout(list: seq<Bytes>, rest: Bytes) {
    && (forall i :: 0 <= i < |list| ==> IsChunk(list[i]))
    && (forall i :: 0 <= i < |list| - 1 ==> list[i][4..8] != IEND)
    && (|rest| < 8 || (list != [] && list[|list| - 1][4..8] == IEND))
  }

  lemma LayoutTail(list: seq<Bytes>, rest: Bytes)
    requires Layout(list, rest) && list != [] && list[0][4..8] != IEND
    ensures Layout(list[1..], rest)
  {
    forall i | 0 <= i < |list[1..]| - 1
      ensures list[1..][i][4..8] != IEND
    {
      assert list[1..][i] == list[i + 1];
    }
  }

  lemma LayoutAdd(c: Bytes, list: seq<Bytes>, rest: Bytes)
    requires IsChunk(c) && c[4..8] != IEND && Layout(list, rest)
    ensures Layout([c] + list, rest) && AllOf([c] + list) == c + AllOf(list)
  {
    assert ([c] + list)[1..] == list;
    forall i | 0 <= i < |[c] + list| - 1
      ensures ([c] + list)[i][4..8] != IEND
    {
      assert i > 0 ==> ([c] + list)[i] == list[i - 1];
    }
  }

  lemma CutAt(data: Bytes, at: nat, end: nat, rest: Bytes)
    requires at <= end <= |data| && rest == data[end..]
    ensures data[at..] == data[at..end] + rest
  {
  }

  lemma Regroup(a: Bytes, b: Bytes, c: Bytes)
    ensures a + (b + c) == (a + b) + c
  {
  }

  /** A walk to the end reads the data as such a layout. */
  lemma {:induction false} WalkReads(data: Bytes, at: nat) returns (rest: Bytes)
    requires at <= |data| && WalkFrom(data, at).Chunks?
    ensures Layout(WalkFrom(data, at).list, rest)
    ensures data[at..] == AllOf(WalkFrom(data, at).list) + rest
    decreases |data| - at
  {
    if at + 8 > |data| {
      rest := data[at..];
      assert [] + rest == rest;
    } else {
      var c, end := data[at..End(data, at)], End(data, at);
      HeadOf(data, at, end);
      if c[4..8] == IEND {
        rest := data[end..];
        assert AllOf([c]) == c + AllOf([c][1..]) == c;
        CutAt(data, at, end, rest);
      } else {
        rest := WalkReads(data, end);
        LayoutAdd(c, WalkFrom(data, end).list, rest);
        CutAt(data, at, end, data[end..]);
        Regroup(c, AllOf(WalkFrom(data, end).list), rest);
      }
    }
  }

  /** And only as that one: any such layout of the data is what the walk finds. */
  lemma {:induction false} WalkFinds(data: Bytes, at: nat, list: seq<Bytes>, rest: Bytes)
    requires at <= |data| && Layout(list, rest) && data[at..] == AllOf(list) + rest
    ensures WalkFrom(data, at) == Chunks(list)
    decreases |list|
  {
    if list != [] {
      var c := list[0];
      assert IsChunk(c);
      assert data[at..] == c + (AllOf(list[1..]) + rest);
      ChunkAt(data, at, c, AllOf(list[1..]) + rest);
      if c[4..8] == IEND {
        assert list == [c];
      } else {
        LayoutTail(list, rest);
        WalkFinds(data, at + |c|, list[1..], rest);
        assert list == [c] + list[1..];
      }
    }
  }

  lemma ChunkAt(data: Bytes, at: nat, c: Bytes, more: Bytes)
    requires at <= |data| && data[at..] == c + more && IsChunk(c)
    ensures at + |c| <= |data| && End(data, at) == at + |c| && Kind(data, at) == c[4..8]
    ensures data[at..at + |c|] == c && data[at + |c|..] == more
  {
    assert data[at..at + |c|] == data[at..][..|c|];
    assert data[at + |c|..] == data[at..][|c|..];
    assert data[at..at + 4] == data[at..][..4] == c[..4];
    assert Kind(data, at) == data[at..][4..8];
  }

  /** Exactly which data is stripped, and to what: a signature and a layout of chunks with two kept ones at least gives
      the signature and the kept chunks, whole and in order. */
  lemma StripsExactly(data: Bytes, out: Bytes)
    ensures Strip(data) == Ok(out) <==>
              exists list, rest :: Strips(data, out, list, rest)
  {
    if Strip(data) == Ok(out) {
      var list := WalkFrom(data, 8).list;
      var rest := WalkReads(data, 8);
      assert data == data[..8] + data[8..];
      assert SIGNATURE + (AllOf(list) + rest) == SIGNATURE + AllOf(list) + rest;
      assert Strips(data, out, list, rest);
    }
    if exists list, rest :: Strips(data, out, list, rest) {
      var list, rest :| Strips(data, out, list, rest);
      assert data[..8] == SIGNATURE;
      assert data[8..] == AllOf(list) + rest;
      WalkFinds(data, 8, list, rest);
    }
  }

  ghost predicate Strips(data: Bytes, out: Bytes, list: seq<Bytes>, rest: Bytes) {
    && data == SIGNATURE + AllOf(list) + rest && Layout(list, rest)
    && |Kept(list)| >= 2 && out == SIGNATURE + AllOf(Kept(list))
  }

  // ----- What is kept

  lemma {:induction false} KeptOnly(list: seq<Bytes>)
    requires forall i :: 0 <= i < |list| ==> IsChunk(list[i])
    ensures forall c :: c in Kept(list) <==> c in list && IsChunk(c) && IsKept(c[4..8])
    ensures Kept(Kept(list)) == Kept(list)
  {
    if list != [] {
      KeptOnly(list[1..]);
      assert list == [list[0]] + list[1..];
      if IsKept(list[0][4..8]) {
        assert Kept(list)[1..] == Kept(list[1..]);
      }
    }
  }

  lemma {:induction false} KeptLayout(list: seq<Bytes>, rest: Bytes)
    requires Layout(list, rest)
    ensures Layout(Kept(list), [])
  {
    if list != [] {
      var c := list[0];
      assert IsChunk(c);
      if c[4..8] == IEND {
        assert list == [c] && list[1..] == [];
        assert Kept(list) == [c] + Kept([]) == [c];
      } else {
        LayoutTail(list, rest);
        KeptLayout(list[1..], rest);
        if IsKept(c[4..8]) {
          LayoutAdd(c, Kept(list[1..]), []);
        }
      }
    }
  }

  /** What was stripped holds no chunk of another kind, and stripping it again changes nothing. */
  lemma StripsOnce(data: Bytes, out: Bytes)
    requires Strip(data) == Ok(out)
    ensures WalkFrom(out, 8).Chunks?
    ensures forall c :: c in WalkFrom(out, 8).list ==> IsChunk(c) && IsKept(c[4..8])
    ensures Strip(out) == Ok(out)
  {
    var list := WalkFrom(data, 8).list;
    var rest := WalkReads(data, 8);
    KeptLayout(list, rest);
    KeptOnly(list);
    assert out[..8] == SIGNATURE;
    assert out[8..] == AllOf(Kept(list)) + [];
    WalkFinds(out, 8, Kept(list), []);
  }
}
