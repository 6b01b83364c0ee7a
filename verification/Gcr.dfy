/** The group-code codec: nibbles to five-bit symbols and back, resynchronising at marks. */
module Gcr {
  import opened Options

  type byte = x: int | 0 <= x < 256

  const MARK: byte := 0xFF
  const INVALID: byte := 0xFF
  const RELOCK_PAIRS := 2

  const NIBBLE_TO_GCR: seq<byte> :=
    [0x0A, 0x0B, 0x12, 0x13, 0x0E, 0x0F, 0x16, 0x17, 0x09, 0x19, 0x1A, 0x1B, 0x0D, 0x1D, 0x1E, 0x15]

  const GCR_TO_NIBBLE: seq<byte> :=
    [0xFF, 0xFF, 0xFF, 0xFF, 0xFF, 0xFF, 0xFF, 0xFF, 0xFF, 0x08, 0x00, 0x01, 0xFF, 0x0C, 0x04, 0x05,
     0xFF, 0xFF, 0x02, 0x03, 0xFF, 0x0F, 0x06, 0x07, 0xFF, 0x09, 0x0A, 0x0B, 0xFF, 0x0D, 0x0E, 0xFF]

  function Symbol(nibble: int): byte
    requires 0 <= nibble < 16
  {
    NIBBLE_TO_GCR[nibble]
  }

  function Nibble(symbol: byte): byte {
    GCR_TO_NIBBLE[symbol % 32]
  }

  /** The two tables are inverse, and symbols are never marks. */
  lemma TablesInverse(nibble: int)
    requires 0 <= nibble < 16
    ensures Symbol(nibble) < 32 && Nibble(Symbol(nibble)) == nibble
  {
    hide *;
    if nibble < 4 { FirstQuarter(nibble); }
    else if nibble < 8 { SecondQuarter(nibble); }
    else if nibble < 12 { ThirdQuarter(nibble); }
    else { LastQuarter(nibble); }
  }

  lemma FirstQuarter(nibble: int)
    requires 0 <= nibble < 4
    ensures Symbol(nibble) in {0x0A, 0x0B, 0x12, 0x13} && Nibble(Symbol(nibble)) == nibble
  {
    if nibble == 0 { } else if nibble == 1 { } else if nibble == 2 { } else { }
  }

  lemma SecondQuarter(nibble: int)
    requires 4 <= nibble < 8
    ensures Symbol(nibble) in {0x0E, 0x0F, 0x16, 0x17} && Nibble(Symbol(nibble)) == nibble
  {
    if nibble == 4 { } else if nibble == 5 { } else if nibble == 6 { } else { }
  }

  lemma ThirdQuarter(nibble: int)
    requires 8 <= nibble < 12
    ensures Symbol(nibble) in {0x09, 0x19, 0x1A, 0x1B} && Nibble(Symbol(nibble)) == nibble
  {
    if nibble == 8 { } else if nibble == 9 { } else if nibble == 10 { } else { }
  }

  lemma LastQuarter(nibble: int)
    requires 12 <= nibble < 16
    ensures Symbol(nibble) in {0x0D, 0x1D, 0x1E, 0x15} && Nibble(Symbol(nibble)) == nibble
  {
    if nibble == 12 { } else if nibble == 13 { } else if nibble == 14 { } else { }
  }

  lemma NibbleRange(symbol: byte)
    ensures Nibble(symbol) == INVALID || Nibble(symbol) < 16
  {
  }

  // ---- encoding ------------------------------------------------------------------------------------

  function Encode(src: seq<byte>): seq<byte> {
    if src == [] then [] else
      var b := src[|src| - 1];
      Encode(src[..|src| - 1]) + [Symbol(b / 16), Symbol(b % 16)]
  }

  method Encode4to5(src: seq<byte>) returns (out: seq<byte>)
    ensures out == Encode(src)
  {
    out := [];
    for i := 0 to |src|
      invariant out == Encode(src[..i])
    {
      assert src[..i + 1][..i] == src[..i];
      var hi, lo := src[i] / 16, src[i] % 16;
      out := out + [Symbol(hi)];
      out := out + [Symbol(lo)];
      assert out == Encode(src[..i + 1]);
    }
    assert src[..|src|] == src;
  }

  // ---- decoding ---------------------------------------------------------------------------------------

  datatype Result = Result(ok: bool, syncFound: bool, relockApplied: bool, syncLosses: nat, invalidSymbols: nat,
                           data: seq<byte>)

  datatype Decoder = Decoder(pending: Option<byte>, window: nat, losses: nat, invalid: nat, relocked: bool,
                             data: seq<byte>, failed: bool)

  predicate ValidPair(first: byte, second: byte) {
    Nibble(first) != INVALID && Nibble(second) != INVALID
  }

  /** The byte a pair stands for; an unreadable half counts as zero, two unreadable halves as 0x55. */
  function PairByte(first: byte, second: byte): byte {
    var hi, lo := Nibble(first), Nibble(second);
    NibbleRange(first); NibbleRange(second);
    if hi == INVALID && lo == INVALID then 0x55
    else if hi == INVALID then lo
    else if lo == INVALID then hi * 16
    else hi * 16 + lo
  }

  function Shrunk(window: nat): nat {
    if window > 0 then window - 1 else 0
  }

  function StepPair(d: Decoder, first: byte, second: byte): Decoder {
    var bad := !ValidPair(first, second);
    var fails := bad && d.window == 0;
    d.(pending := None,
       window := Shrunk(d.window),
       invalid := if bad then d.invalid + 1 else d.invalid,
       relocked := d.relocked || (bad && !fails),
       data := if fails then [] else d.data + [PairByte(first, second)],
       failed := fails)
  }

  function Step(d: Decoder, symbol: byte): Decoder {
    if d.failed then d
    else if symbol == MARK then d.(pending := None, window := RELOCK_PAIRS, losses := d.losses + 1)
    else if d.pending.None? then d.(pending := Some(symbol))
    else StepPair(d, d.pending.value, symbol)
  }

  const FRESH := Decoder(None, 0, 0, 0, false, [], false)

  function Fold(d: Decoder, s: seq<byte>): Decoder {
    if s == [] then d else Step(Fold(d, s[..|s| - 1]), s[|s| - 1])
  }

  function Finish(d: Decoder): Result {
    var dangling := !d.failed && d.pending.Some?;
    var fails := d.failed || (dangling && d.window == 0);
    Result(!fails, d.losses > 0, d.relocked || (dangling && !fails), d.losses,
           if dangling then d.invalid + 1 else d.invalid,
           if fails then [] else if dangling then d.data + [d.pending.value % 16 * 16] else d.data)
  }

  function Decode(s: seq<byte>): Result {
    if s == [] then Result(false, false, false, 0, 0, []) else Finish(Fold(FRESH, s))
  }

  method Decode5to4(src: seq<byte>) returns (result: Result)
    ensures result == Decode(src)
  {
    result := Result(false, false, false, 0, 0, []);
    if |src| == 0 {
      return;
    }
    var pending: Option<byte> := None;
    var window: nat := 0;
    var i := 0;
    while i < |src|
      invariant 0 <= i <= |src| && !result.ok
      invariant Fold(FRESH, src[..i]) == Decoder(pending, window, result.syncLosses, result.invalidSymbols,
                                                 result.relockApplied, result.data, false)
      invariant result.syncFound == (result.syncLosses > 0)
    {
      assert src[..i + 1][..i] == src[..i];
      var symbol := src[i];
      i := i + 1;
      if symbol == MARK {
        result := result.(syncFound := true, syncLosses := result.syncLosses + 1);
        pending, window := None, RELOCK_PAIRS;
        continue;
      }
      if pending.None? {
        pending := Some(symbol);
        continue;
      }
      var valid, value := ReadPair(pending.value, symbol);
      if !valid {
        result := result.(invalidSymbols := result.invalidSymbols + 1);
        if window == 0 {
          result := result.(data := []);
          FailureStays(src, i);
          return;
        }
        result := result.(relockApplied := true);
      }
      result := result.(data := result.data + [value]);
      pending := None;
      window := if window > 0 then window - 1 else 0;
    }
    assert src[..|src|] == src;
    if pending.Some? {
      result := result.(invalidSymbols := result.invalidSymbols + 1);
      if window == 0 {
        result := result.(data := []);
        return;
      }
      result := result.(relockApplied := true, data := result.data + [pending.value % 16 * 16]);
    }
    result := result.(ok := true);
  }

  method ReadPair(first: byte, second: byte) returns (valid: bool, value: byte)
    ensures valid == ValidPair(first, second) && value == PairByte(first, second)
  {
    var hi, lo := GCR_TO_NIBBLE[first % 32], GCR_TO_NIBBLE[second % 32];
    NibbleRange(first);
    NibbleRange(second);
    valid := hi != INVALID && lo != INVALID;
    if hi == INVALID && lo == INVALID {
      value := 0x55;
    } else if hi == INVALID {
      value := lo;
    } else if lo == INVALID {
      value := hi * 16;
    } else {
      value := hi * 16 + lo;
    }
  }

  lemma {:induction false} FailureStays(s: seq<byte>, i: nat)
    requires i <= |s| && Fold(FRESH, s[..i]).failed
    ensures Fold(FRESH, s) == Fold(FRESH, s[..i])
    decreases |s| - i
  {
    if i == |s| {
      assert s[..i] == s;
    } else {
      assert s[..i + 1][..i] == s[..i];
      FailureStays(s, i + 1);
    }
  }

  // ---- segments between marks -----------------------------------------------------------------------------

  predicate MarkFree(seg: seq<byte>) {
    MARK !in seg
  }

  /** The segments with a mark between each two. */
  function Join(segs: seq<seq<byte>>): seq<byte>
    requires segs != []
  {
    if |segs| == 1 then segs[0] else Join(segs[..|segs| - 1]) + [MARK] + segs[|segs| - 1]
  }

  function Split(s: seq<byte>): (r: seq<seq<byte>>)
    ensures r != []
  {
    if s == [] then [[]] else
      var r, last := Split(s[..|s| - 1]), s[|s| - 1];
      if last == MARK then r + [[]] else r[..|r| - 1] + [r[|r| - 1] + [last]]
  }

  predicate AllMarkFree(segs: seq<seq<byte>>) {
    forall i :: 0 <= i < |segs| ==> MarkFree(segs[i])
  }

  /** Every stream is its segments joined by marks. */
  lemma {:induction false} SplitJoins(s: seq<byte>)
    ensures Join(Split(s)) == s && AllMarkFree(Split(s))
  {
    if s != [] {
      var front, last := s[..|s| - 1], s[|s| - 1];
      SplitJoins(front);
      var r, t := Split(front), Split(s);
      assert front + [last] == s;
      if last == MARK {
        assert t[..|t| - 1] == r;
        assert Join(t) == Join(r) + [MARK] + [];
      } else {
        JoinLast(r, last);
      }
    }
  }

  lemma JoinUnfold(segs: seq<seq<byte>>)
    requires segs != []
    ensures var n := |segs| - 1;
            Join(segs) == if n == 0 then segs[0] else Join(segs[..n]) + [MARK] + segs[n]
  {
  }

  lemma JoinLast(r: seq<seq<byte>>, b: byte)
    requires r != []
    ensures Join(r[..|r| - 1] + [r[|r| - 1] + [b]]) == Join(r) + [b]
  {
    hide *;
    var n := |r| - 1;
    var front := r[..n];
    var t := front + [r[n] + [b]];
    assert t[..n] == front && t[n] == r[n] + [b];
    JoinUnfold(t);
    JoinUnfold(r);
    if n > 0 {
      Associate(Join(front) + [MARK], r[n], [b]);
    }
  }

  lemma Associate(a: seq<byte>, b: seq<byte>, c: seq<byte>)
    ensures a + (b + c) == a + b + c
  {
  }

  predicate PairReadable(seg: seq<byte>, k: nat)
    requires 2 * k + 1 < |seg|
  {
    ValidPair(seg[2 * k], seg[2 * k + 1])
  }

  /** Only the first `window` pairs may be unreadable. */
  predicate Readable(seg: seq<byte>, window: nat) {
    forall k :: window <= k < |seg| / 2 ==> PairReadable(seg, k)
  }

  function PairAt(seg: seq<byte>, k: nat): byte
    requires 2 * k + 1 < |seg|
  {
    PairByte(seg[2 * k], seg[2 * k + 1])
  }

  function Pairs(seg: seq<byte>): (r: seq<byte>)
    ensures |r| == |seg| / 2
  {
    seq(|seg| / 2, k requires 0 <= k < |seg| / 2 => PairAt(seg, k))
  }

  function Unreadable(seg: seq<byte>): nat {
    if seg == [] then 0 else
      var n := |seg| - 1;
      Unreadable(seg[..n]) + if n % 2 == 1 && !PairReadable(seg, n / 2) then 1 else 0
  }

  function Left(window: nat, pairs: nat): nat {
    if pairs < window then window - pairs else 0
  }

  /** The decoder after a whole segment. */
  function AfterSegment(d: Decoder, seg: seq<byte>): Decoder {
    d.(pending := if |seg| % 2 == 1 then Some(seg[|seg| - 1]) else None,
       window := Left(d.window, |seg| / 2),
       invalid := d.invalid + Unreadable(seg),
       relocked := d.relocked || Unreadable(seg) > 0,
       data := d.data + Pairs(seg))
  }

  lemma {:induction false} SegmentStep(d: Decoder, seg: seq<byte>)
    requires !d.failed && d.pending.None? && MarkFree(seg)
    ensures if Readable(seg, d.window) then Fold(d, seg) == AfterSegment(d, seg)
            else Fold(d, seg).failed && Fold(d, seg).data == []
  {
    hide PairByte, ValidPair;
    if seg == [] {
      assert d.data + Pairs(seg) == d.data;
    } else {
      var n := |seg| - 1;
      var front := seg[..n];
      SegmentStep(d, front);
      assert seg[n] in seg;
      assert forall x :: x in front ==> x in seg;
      ReadableNext(seg, d.window);
      PairsNext(seg);
    }
  }

  lemma ReadableNext(seg: seq<byte>, window: nat)
    requires seg != []
    ensures var n := |seg| - 1;
            Readable(seg, window) <==>
            Readable(seg[..n], window) && (n % 2 == 1 && n / 2 >= window ==> PairReadable(seg, n / 2))
  {
    var n := |seg| - 1;
    var front := seg[..n];
    hide ValidPair;
    assert |front| / 2 == n / 2;
    assert |seg| / 2 == if n % 2 == 1 then n / 2 + 1 else n / 2;
    assert forall k :: 0 <= k < n / 2 ==> (PairReadable(front, k) <==> PairReadable(seg, k));
  }

  lemma PairsNext(seg: seq<byte>)
    requires seg != []
    ensures var n := |seg| - 1;
            Pairs(seg) == Pairs(seg[..n]) + if n % 2 == 1 then [PairAt(seg, n / 2)] else []
  {
    var n := |seg| - 1;
    var front := seg[..n];
    hide PairByte;
    assert forall k :: 0 <= k < n / 2 ==> PairAt(front, k) == PairAt(seg, k);
  }

  lemma {:induction false} FoldConcat(d: Decoder, a: seq<byte>, b: seq<byte>)
    ensures Fold(d, a + b) == Fold(Fold(d, a), b)
  {
    if b == [] {
      assert a + b == a;
    } else {
      assert (a + b)[..|a + b| - 1] == a + b[..|b| - 1];
      FoldConcat(d, a, b[..|b| - 1]);
    }
  }

  // ---- what a whole stream decodes to ------------------------------------------------------------------------

  /** Readable up to segment n: the first strictly, the later ones from their third pair on. */
  predicate SegmentsReadable(segs: seq<seq<byte>>) {
    forall i :: 0 <= i < |segs| ==> Readable(segs[i], if i == 0 then 0 else RELOCK_PAIRS)
  }

  function AllPairs(segs: seq<seq<byte>>): seq<byte> {
    if segs == [] then [] else AllPairs(segs[..|segs| - 1]) + Pairs(segs[|segs| - 1])
  }

  function AllUnreadable(segs: seq<seq<byte>>): nat {
    if segs == [] then 0 else AllUnreadable(segs[..|segs| - 1]) + Unreadable(segs[|segs| - 1])
  }

  /** The decoder after all segments, if they are readable. */
  function AfterSegments(segs: seq<seq<byte>>): Decoder
    requires segs != []
  {
    var last, n := segs[|segs| - 1], |segs| - 1;
    Decoder(if |last| % 2 == 1 then Some(last[|last| - 1]) else None,
            Left(if n == 0 then 0 else RELOCK_PAIRS, |last| / 2),
            n, AllUnreadable(segs), AllUnreadable(segs) > 0, AllPairs(segs), false)
  }

  lemma {:induction false} SegmentsStep(segs: seq<seq<byte>>)
    requires segs != [] && AllMarkFree(segs)
    ensures if SegmentsReadable(segs) then Fold(FRESH, Join(segs)) == AfterSegments(segs)
            else Fold(FRESH, Join(segs)).failed && Fold(FRESH, Join(segs)).data == []
  {
    var n := |segs| - 1;
    var front, last := segs[..n], segs[n];
    assert MarkFree(last);
    hide Readable, Pairs, Unreadable;
    if n == 0 {
      SegmentStep(FRESH, last);
      assert front == [];
      assert AllPairs(front) == [] && AllUnreadable(front) == 0;
      assert [] + Pairs(last) == Pairs(last);
      hide Fold;
    } else {
      SegmentsStep(front);
      NextSegment(segs);
    }
  }

  lemma NextSegment(segs: seq<seq<byte>>)
    requires |segs| > 1 && MarkFree(segs[|segs| - 1])
    requires var front := segs[..|segs| - 1];
             if SegmentsReadable(front) then Fold(FRESH, Join(front)) == AfterSegments(front)
             else Fold(FRESH, Join(front)).failed && Fold(FRESH, Join(front)).data == []
    ensures if SegmentsReadable(segs) then Fold(FRESH, Join(segs)) == AfterSegments(segs)
            else Fold(FRESH, Join(segs)).failed && Fold(FRESH, Join(segs)).data == []
  {
    var n := |segs| - 1;
    var front, last := segs[..n], segs[n];
    var d := Fold(FRESH, Join(front));
    var e := Step(d, MARK);
    assert Fold(FRESH, Join(segs)) == Fold(e, last) by { AcrossMark(Join(front), last); }
    SegmentsReadableNext(segs);
    hide Fold, Join, Readable, Pairs, Unreadable, SegmentsReadable, MarkFree;
    if d.failed {
      StaysFailed(e, last);
    } else {
      SegmentStep(e, last);
    }
  }

  lemma AcrossMark(before: seq<byte>, after: seq<byte>)
    ensures Fold(FRESH, before + [MARK] + after) == Fold(Step(Fold(FRESH, before), MARK), after)
  {
    var d := Fold(FRESH, before);
    FoldConcat(FRESH, before, [MARK]);
    assert Fold(d, [MARK]) == Step(d, MARK) by { assert [MARK][..0] == []; }
    hide Fold;
    FoldConcat(FRESH, before + [MARK], after);
  }

  lemma SegmentsReadableNext(segs: seq<seq<byte>>)
    requires |segs| > 1
    ensures var n := |segs| - 1;
            SegmentsReadable(segs) <==> SegmentsReadable(segs[..n]) && Readable(segs[n], RELOCK_PAIRS)
  {
    hide Readable;
  }

  lemma {:induction false} StaysFailed(d: Decoder, s: seq<byte>)
    requires d.failed
    ensures Fold(d, s) == d
  {
    if s != [] { StaysFailed(d, s[..|s| - 1]); }
  }

  /** Decoding, exactly, for every stream: it succeeds iff the stream is not empty, everything before the
      first mark is readable, every later segment is readable from its third pair on, and the stream does
      not end in half a pair, unless fewer than two pairs precede it after a mark. It then delivers every
      segment's pairs in order (a half pair before a mark is dropped unseen), and otherwise nothing. */
  lemma DecodesExactly(s: seq<byte>)
    ensures var segs, r := Split(s), Decode(s);
            var last := segs[|segs| - 1];
            && (r.ok <==> s != [] && SegmentsReadable(segs) && (|last| % 2 == 0 || (|segs| > 1 && |last| < 4)))
            && (r.ok ==> r.data == AllPairs(segs) + if |last| % 2 == 1 then [last[|last| - 1] % 16 * 16] else [])
            && (r.ok ==> r.syncLosses == |segs| - 1)
            && (r.ok ==> (r.relockApplied <==> AllUnreadable(segs) > 0 || |last| % 2 == 1))
            && (r.ok ==> r.invalidSymbols == AllUnreadable(segs) + |last| % 2)
            && (!r.ok ==> r.data == [])
  {
    SplitJoins(s);
    SegmentsStep(Split(s));
    hide Split, Join, Fold, SegmentsReadable, AllPairs, AllUnreadable;
    assert AllPairs(Split(s)) + [] == AllPairs(Split(s));
  }

  // ---- round trip -----------------------------------------------------------------------------------------------

  lemma {:induction false} EncodedSegment(src: seq<byte>)
    ensures var e := Encode(src);
            && |e| == 2 * |src| && MarkFree(e) && Readable(e, 0) && Pairs(e) == src && Unreadable(e) == 0
  {
    if src != [] {
      var n := |src| - 1;
      var front, b := src[..n], src[n];
      EncodedSegment(front);
      assert Encode(src) == Encode(front) + [Symbol(b / 16), Symbol(b % 16)];
      hide *;
      OneMorePair(Encode(front), b);
      assert front + [b] == src;
    }
  }

  /** Two more symbols are one more byte. */
  lemma {:induction false} OneMorePair(f: seq<byte>, b: byte)
    requires |f| % 2 == 0 && MarkFree(f) && Readable(f, 0) && Unreadable(f) == 0
    ensures var e := f + [Symbol(b / 16), Symbol(b % 16)];
            MarkFree(e) && Readable(e, 0) && Pairs(e) == Pairs(f) + [b] && Unreadable(e) == 0
  {
    hide Symbol, Pairs, Unreadable, Readable, PairReadable, PairByte;
    var one := f + [Symbol(b / 16)];
    var e := f + [Symbol(b / 16), Symbol(b % 16)];
    assert e[..|e| - 1] == one && one[..|one| - 1] == f;
    TablesInverse(b / 16);
    TablesInverse(b % 16);
    EncodedPair(e, |f| / 2, b);
    ReadableNext(one, 0);
    ReadableNext(e, 0);
    PairsNext(one);
    PairsNext(e);
    UnreadableNext(one);
    UnreadableNext(e);
  }

  lemma UnreadableNext(seg: seq<byte>)
    requires seg != []
    ensures var n := |seg| - 1;
            Unreadable(seg) == Unreadable(seg[..n]) + if n % 2 == 1 && !PairReadable(seg, n / 2) then 1 else 0
  {
  }

  lemma EncodedPair(e: seq<byte>, n: nat, b: byte)
    requires |e| == 2 * n + 2 && e[2 * n] == Symbol(b / 16) && e[2 * n + 1] == Symbol(b % 16)
    ensures PairReadable(e, n) && PairAt(e, n) == b
  {
    TablesInverse(b / 16);
    TablesInverse(b % 16);
    hide Nibble, Symbol;
  }

  function EncodeAll(chunks: seq<seq<byte>>): (r: seq<seq<byte>>)
    ensures |r| == |chunks|
  {
    seq(|chunks|, i requires 0 <= i < |chunks| => Encode(chunks[i]))
  }

  function Flatten(chunks: seq<seq<byte>>): seq<byte> {
    if chunks == [] then [] else Flatten(chunks[..|chunks| - 1]) + chunks[|chunks| - 1]
  }

  /** Reading back inverts encoding with any marks put between encoded bytes: any number of chunks, some
      of them empty, give the original bytes, one loss of synchronisation a mark, and no relocking. */
  lemma RoundTrip(chunks: seq<seq<byte>>)
    requires chunks != [] && Join(EncodeAll(chunks)) != []
    ensures Decode(Join(EncodeAll(chunks))) == Result(true, |chunks| > 1, false, |chunks| - 1, 0, Flatten(chunks))
  {
    hide *;
    EncodedReadable(chunks);
    EncodedData(chunks);
    EncodedSegment(chunks[|chunks| - 1]);
    LastEncoded(chunks);
    CleanRead(EncodeAll(chunks));
  }

  lemma LastEncoded(chunks: seq<seq<byte>>)
    requires chunks != []
    ensures EncodeAll(chunks)[|chunks| - 1] == Encode(chunks[|chunks| - 1])
  {
    hide Encode;
  }

  lemma CleanRead(segs: seq<seq<byte>>)
    requires segs != [] && AllMarkFree(segs) && SegmentsReadable(segs) && AllUnreadable(segs) == 0
    requires |segs[|segs| - 1]| % 2 == 0 && Join(segs) != []
    ensures Decode(Join(segs)) == Result(true, |segs| > 1, false, |segs| - 1, 0, AllPairs(segs))
  {
    SegmentsStep(segs);
    hide Join, Fold, SegmentsReadable, AllPairs, AllUnreadable, AllMarkFree;
  }

  lemma EncodedReadable(chunks: seq<seq<byte>>)
    ensures AllMarkFree(EncodeAll(chunks)) && SegmentsReadable(EncodeAll(chunks))
  {
    var segs := EncodeAll(chunks);
    forall i | 0 <= i < |segs| ensures MarkFree(segs[i]) && Readable(segs[i], if i == 0 then 0 else RELOCK_PAIRS) {
      EncodedSegment(chunks[i]);
      hide PairReadable;
      assert Readable(segs[i], RELOCK_PAIRS);
    }
  }

  lemma {:induction false} EncodedData(chunks: seq<seq<byte>>)
    ensures AllPairs(EncodeAll(chunks)) == Flatten(chunks) && AllUnreadable(EncodeAll(chunks)) == 0
  {
    if chunks != [] {
      var n := |chunks| - 1;
      EncodedData(chunks[..n]);
      EncodedSegment(chunks[n]);
      assert EncodeAll(chunks)[..n] == EncodeAll(chunks[..n]);
      hide Pairs, Encode, Unreadable;
    }
  }

  /** Whatever was read before a mark, if it did not fail, an encoded message after the mark comes out
      whole behind it. */
  lemma MarkResynchronises(before: seq<byte>, src: seq<byte>)
    requires !Fold(FRESH, before).failed
    ensures var r := Decode(before + [MARK] + Encode(src));
            r.ok && r.data == Fold(FRESH, before).data + src && r.syncLosses == Fold(FRESH, before).losses + 1
  {
    var d := Fold(FRESH, before);
    AcrossMark(before, Encode(src));
    EncodedSegment(src);
    SegmentStep(Step(d, MARK), Encode(src));
    hide Fold, Encode, Pairs, Readable;
  }

  /** A failed decode delivers nothing, and no decode more than one byte for two symbols. */
  lemma OutputBound(s: seq<byte>)
    ensures var r := Decode(s);
            (!r.ok ==> r.data == []) && 2 * |r.data| <= |s| + 1
  {
    SplitJoins(s);
    SegmentsStep(Split(s));
    PairsBound(Split(s));
    hide Split, Fold, SegmentsReadable, AllPairs, AllUnreadable;
  }

  lemma {:induction false} PairsBound(segs: seq<seq<byte>>)
    requires segs != []
    ensures var last := segs[|segs| - 1];
            2 * |AllPairs(segs)| <= |Join(segs)| - |last| % 2
  {
    var n := |segs| - 1;
    if n == 0 {
      assert AllPairs(segs[..0]) == [];
    } else {
      PairsBound(segs[..n]);
    }
  }

  // ---- encoded data never imitates a sync pattern -----------------------------------------------------------------

  function BitOf(symbol: byte, place: nat): bool
    requires place < 5
  {
    symbol / [16, 8, 4, 2, 1][place] % 2 == 1
  }

  /** The stream of five-bit groups, most significant bit first. */
  predicate BitAt(symbols: seq<byte>, i: nat)
    requires i < 5 * |symbols|
  {
    BitOf(symbols[i / 5], i % 5)
  }

  predicate IsSymbol(b: byte) {
    b in NIBBLE_TO_GCR
  }

  lemma SymbolBits(b: byte)
    requires IsSymbol(b)
    ensures BitOf(b, 0) || BitOf(b, 1)
    ensures BitOf(b, 1) || BitOf(b, 2) || BitOf(b, 3)
    ensures BitOf(b, 3) || BitOf(b, 4)
    ensures !BitOf(b, 0) || !BitOf(b, 1) || !BitOf(b, 2) || !BitOf(b, 3) || !BitOf(b, 4)
  {
    hide BitOf, IsSymbol;
    SymbolSpreads(b);
  }

  lemma SymbolSpreads(b: byte)
    requires IsSymbol(b)
    ensures BitsSpread(b)
  {
    var n :| 0 <= n < 16 && NIBBLE_TO_GCR[n] == b;
    assert b == Symbol(n);
    hide *;
    if n < 4 { FirstQuarter(n); FirstBits(b); }
    else if n < 8 { SecondQuarter(n); SecondBits(b); }
    else if n < 12 { ThirdQuarter(n); ThirdBits(b); }
    else { LastQuarter(n); LastBits(b); }
  }

  /** No two zeros at the front, no three inside, no two at the end, and not five ones. */
  predicate BitsSpread(b: byte) {
    && (BitOf(b, 0) || BitOf(b, 1))
    && (BitOf(b, 1) || BitOf(b, 2) || BitOf(b, 3))
    && (BitOf(b, 3) || BitOf(b, 4))
    && !(BitOf(b, 0) && BitOf(b, 1) && BitOf(b, 2) && BitOf(b, 3) && BitOf(b, 4))
  }

  lemma FirstBits(b: byte)
    requires b in {0x0A, 0x0B, 0x12, 0x13}
    ensures BitsSpread(b)
  {
  }

  lemma SecondBits(b: byte)
    requires b in {0x0E, 0x0F, 0x16, 0x17}
    ensures BitsSpread(b)
  {
  }

  lemma ThirdBits(b: byte)
    requires b in {0x09, 0x19, 0x1A, 0x1B}
    ensures BitsSpread(b)
  {
  }

  lemma LastBits(b: byte)
    requires b in {0x0D, 0x1D, 0x1E, 0x15}
    ensures BitsSpread(b)
  {
  }

  lemma {:induction false} EncodedSymbols(src: seq<byte>, k: nat)
    requires k < |Encode(src)|
    ensures IsSymbol(Encode(src)[k])
  {
    var n := |src| - 1;
    var b := src[n];
    if k < |Encode(src[..n])| {
      EncodedSymbols(src[..n], k);
    }
  }

  /** No three zero bits in a row, at any position of any encoded message. */
  lemma NeverThreeZeros(src: seq<byte>, i: nat)
    requires i + 2 < 5 * |Encode(src)|
    ensures BitAt(Encode(src), i) || BitAt(Encode(src), i + 1) || BitAt(Encode(src), i + 2)
  {
    hide *;
    var e := Encode(src);
    EncodedSymbols(src, i / 5);
    SymbolBits(e[i / 5]);
    BitInGroup(e, i, 0);
    BitInGroup(e, i, 1);
    BitInGroup(e, i, 2);
    if i % 5 >= 3 {
      EncodedSymbols(src, i / 5 + 1);
      SymbolBits(e[i / 5 + 1]);
    }
  }

  lemma BitInGroup(symbols: seq<byte>, i: nat, j: nat)
    requires j < 5 && i + j < 5 * |symbols|
    ensures var p := i % 5 + j;
            BitAt(symbols, i + j) == if p < 5 then BitOf(symbols[i / 5], p) else BitOf(symbols[i / 5 + 1], p - 5)
  {
    Place(i, j);
    hide BitOf;
  }

  lemma Place(i: nat, j: nat)
    requires j < 5
    ensures var p := i % 5 + j;
            (i + j) / 5 == i / 5 + p / 5 && (i + j) % 5 == if p < 5 then p else p - 5
  {
  }

  /** No nine one bits in a row: nine bits always hold a whole symbol, and no symbol is all ones. */
  lemma NeverNineOnes(src: seq<byte>, i: nat)
    requires i + 8 < 5 * |Encode(src)|
    ensures exists j :: i <= j <= i + 8 && !BitAt(Encode(src), j)
  {
    var e := Encode(src);
    var k := (i + 4) / 5;
    EncodedSymbols(src, k);
    SymbolBits(e[k]);
    hide BitOf, Encode;
    assert i <= 5 * k && 5 * k + 4 <= i + 8;
    var p: nat :| p < 5 && !BitOf(e[k], p);
    assert (5 * k + p) / 5 == k && (5 * k + p) % 5 == p;
    assert !BitAt(e, 5 * k + p);
  }

  /** The bound is attained: 0x5E is written with eight ones in a row. */
  lemma EightOnesOccur(j: nat)
    requires 1 <= j <= 8
    ensures BitAt(Encode([0x5E]), j)
  {
    assert Encode([0x5E]) == [0x0F, 0x1E] by {
      assert [0x5E][..0] == [];
      assert Encode([]) == [];
    }
    hide Encode;
  }
}
