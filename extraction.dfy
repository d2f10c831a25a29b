/** Stage-1 extraction: the start-/end-of-audio markers of the raw output
    are paired by index, each pair's span of codec tokens is cleaned and
    split into the vocal track (even positions) and the instrumental track
    (odd positions), and the tracks of all spans are concatenated. */
module Extraction {
  import opened Outcomes
  import opened Slicing
  import opened Collaborators

  // ---------------------------------------------------------------------
  // Marker positions

  /** `np.where(ids == t)[0]`: the positions holding `t`, in increasing order. */
  function Positions(ids: seq<Token>, t: Token): (ps: seq<nat>)
    ensures forall j :: 0 <= j < |ps| ==> ps[j] < |ids| && ids[ps[j]] == t
    ensures forall j, j' :: 0 <= j < j' < |ps| ==> ps[j] < ps[j']
    ensures forall p :: 0 <= p < |ids| && ids[p] == t ==> p in ps
  {
    PositionsFrom(ids, t, 0)
  }

  /** The positions from `i` on that hold `t`, in increasing order. */
  function PositionsFrom(ids: seq<Token>, t: Token, i: nat): (ps: seq<nat>)
    ensures forall j :: 0 <= j < |ps| ==> i <= ps[j] < |ids| && ids[ps[j]] == t
    ensures forall j, j' :: 0 <= j < j' < |ps| ==> ps[j] < ps[j']
    ensures forall p :: i <= p < |ids| && ids[p] == t ==> p in ps
    decreases |ids| - i
  {
    if i >= |ids| then []
    else (if ids[i] == t then [i] else []) + PositionsFrom(ids, t, i + 1)
  }

  // ---------------------------------------------------------------------
  // One span

  /** `ids[soaPos + 1 : eoaPos]`: both bounds are non-negative, so each is
      only clamped to the length. */
  function Span(ids: seq<Token>, soaPos: nat, eoaPos: nat): seq<Token> {
    var i := if soaPos + 1 < |ids| then soaPos + 1 else |ids|;
    var j := if eoaPos < |ids| then eoaPos else |ids|;
    if i <= j then ids[i..j] else []
  }

  /** `Span` is Python's slice with those bounds. */
  lemma SpanIsSlice(ids: seq<Token>, soaPos: nat, eoaPos: nat)
    ensures Span(ids, soaPos, eoaPos) == Slice(ids, soaPos + 1, eoaPos)
  {
  }

  /** The codec tokens of one pair: `ids[soa + 1 : eoa]`, without a leading
      `32016`, cut to an even length. Indexing the first token of an empty
      span fails. */
  function SpanCodes(ids: seq<Token>, soaPos: nat, eoaPos: nat): Result<seq<Token>> {
    var span := Span(ids, soaPos, eoaPos);
    if |span| == 0 then Err(EmptySequenceIndex)
    else
      var c := if span[0] == SpanMarker then span[1..] else span;
      Ok(c[..2 * (|c| / 2)])
  }

  /** Only an empty span fails, with the indexing error. */
  lemma SpanCodesFails(ids: seq<Token>, soaPos: nat, eoaPos: nat)
    ensures SpanCodes(ids, soaPos, eoaPos).Ok? <==> |Span(ids, soaPos, eoaPos)| > 0
    ensures SpanCodes(ids, soaPos, eoaPos).Err? ==> SpanCodes(ids, soaPos, eoaPos).error == EmptySequenceIndex
  {
  }

  /** A span fails exactly when it is empty; otherwise its codes are the
      span's tokens after the optional marker, of even length, with at most
      one trailing token left over. */
  lemma SpanCodesMeaning(ids: seq<Token>, soaPos: nat, eoaPos: nat)
    ensures var span := Span(ids, soaPos, eoaPos);
            var r := SpanCodes(ids, soaPos, eoaPos);
            && (r.Err? <==> |span| == 0)
            && (r.Err? ==> r.error == EmptySequenceIndex)
            && (r.Ok? ==>
                  var m := if span[0] == SpanMarker then 1 else 0;
                  && |r.value| % 2 == 0
                  && m + |r.value| <= |span| <= m + |r.value| + 1
                  && r.value == span[m..m + |r.value|])
  {
  }

  /** Row 0 of `rearrange(c, "(n b) -> b n", b=2)`: the even positions. */
  function Evens(c: seq<Token>): (r: seq<Token>)
    ensures |r| == |c| / 2
    ensures forall k :: 0 <= k < |r| ==> r[k] == c[2 * k]
  {
    seq(|c| / 2, k requires 0 <= k < |c| / 2 => c[2 * k])
  }

  /** Row 1 of the same rearrangement: the odd positions. */
  function Odds(c: seq<Token>): (r: seq<Token>)
    ensures |r| == |c| / 2
    ensures forall k :: 0 <= k < |r| ==> r[k] == c[2 * k + 1]
  {
    seq(|c| / 2, k requires 0 <= k < |c| / 2 => c[2 * k + 1])
  }

  /** Two tracks of equal length woven back into one token row. */
  function Interleave(a: seq<Token>, b: seq<Token>): (c: seq<Token>)
    requires |a| == |b|
    ensures |c| == 2 * |a|
  {
    if |a| == 0 then [] else [a[0], b[0]] + Interleave(a[1..], b[1..])
  }

  lemma {:induction false} InterleaveAt(a: seq<Token>, b: seq<Token>, k: nat)
    requires |a| == |b| && k < |a|
    ensures Interleave(a, b)[2 * k] == a[k] && Interleave(a, b)[2 * k + 1] == b[k]
  {
    if k > 0 {
      InterleaveAt(a[1..], b[1..], k - 1);
    }
  }

  /** Splitting loses nothing: weaving the vocal and instrumental tracks of
      an even-length span gives the span back. */
  lemma InterleaveSplit(c: seq<Token>)
    requires |c| % 2 == 0
    ensures Interleave(Evens(c), Odds(c)) == c
  {
    var w := Interleave(Evens(c), Odds(c));
    forall p | 0 <= p < |c|
      ensures w[p] == c[p]
    {
      InterleaveAt(Evens(c), Odds(c), p / 2);
    }
  }

  /** And splitting a woven row gives back the two tracks. */
  lemma SplitInterleave(a: seq<Token>, b: seq<Token>)
    requires |a| == |b|
    ensures Evens(Interleave(a, b)) == a && Odds(Interleave(a, b)) == b
  {
    forall k | 0 <= k < |a|
      ensures Evens(Interleave(a, b))[k] == a[k] && Odds(Interleave(a, b))[k] == b[k]
    {
      InterleaveAt(a, b, k);
    }
  }

  // ---------------------------------------------------------------------
  // All spans

  /** The vocal and instrumental codec rows. */
  datatype Tracks = Tracks(vocal: seq<int>, instrumental: seq<int>)

  /** The tracks of one pair. */
  function PairTracks(codec: Codec, ids: seq<Token>, soaPos: nat, eoaPos: nat): Result<Tracks> {
    match SpanCodes(ids, soaPos, eoaPos)
    case Err(e) => Err(e)
    case Ok(c) => Ok(Tracks(codec.idsToCodes(Evens(c)), codec.idsToCodes(Odds(c))))
  }

  /** `acc` followed by the tracks `t` of the next pair; the first failure wins. */
  function Append(acc: Result<Tracks>, t: Result<Tracks>): (r: Result<Tracks>)
    ensures r.Ok? <==> acc.Ok? && t.Ok?
    ensures r.Err? ==> r.error == (if acc.Err? then acc.error else t.error)
  {
    match acc
    case Err(e) => Err(e)
    case Ok(a) =>
      match t
      case Err(e) => Err(e)
      case Ok(b) => Ok(Tracks(a.vocal + b.vocal, a.instrumental + b.instrumental))
  }

  /** The lists `vocals` and `instrumentals` after the pairs `lo .. k-1`,
      each already concatenated. */
  function TracksUpTo(codec: Codec, ids: seq<Token>, soas: seq<nat>, eoas: seq<nat>, lo: nat, k: nat): Result<Tracks>
    requires lo <= k <= |soas| == |eoas|
    decreases k
  {
    if k == lo then Ok(Tracks([], []))
    else Append(TracksUpTo(codec, ids, soas, eoas, lo, k - 1), PairTracks(codec, ids, soas[k - 1], eoas[k - 1]))
  }

  /** Index of the first pair that is extracted: with an audio prompt pair 0
      is the reference audio of the prompt and is skipped. */
  function FirstPair(useAudioPrompt: bool): nat {
    if useAudioPrompt then 1 else 0
  }

  /** Stage-1 extraction from the raw output `ids`. */
  function Extract(codec: Codec, soa: Token, eoa: Token, ids: seq<Token>, useAudioPrompt: bool): Result<Tracks> {
    ExtractPairs(codec, ids, Positions(ids, soa), Positions(ids, eoa), FirstPair(useAudioPrompt))
  }

  /** Extraction once the marker positions are known. */
  function ExtractPairs(codec: Codec, ids: seq<Token>, soas: seq<nat>, eoas: seq<nat>, lo: nat): Result<Tracks> {
    if |soas| != |eoas| then Err(MalformedOutput)
    else if |soas| <= lo then Err(EmptyConcatenate)
    else TracksUpTo(codec, ids, soas, eoas, lo, |soas|)
  }

  // ---------------------------------------------------------------------
  // Properties

  /** Every pair from `lo` on has a non-empty span. */
  ghost predicate SpansNonEmpty(ids: seq<Token>, soas: seq<nat>, eoas: seq<nat>, lo: nat, k: nat)
    requires k <= |soas| == |eoas|
  {
    forall i :: lo <= i < k ==> |Span(ids, soas[i], eoas[i])| > 0
  }

  /** The accumulation fails exactly when some span is empty. */
  lemma {:induction false} TracksUpToOk(codec: Codec, ids: seq<Token>, soas: seq<nat>, eoas: seq<nat>, lo: nat, k: nat)
    requires lo <= k <= |soas| == |eoas|
    ensures TracksUpTo(codec, ids, soas, eoas, lo, k).Ok? <==> SpansNonEmpty(ids, soas, eoas, lo, k)
    ensures TracksUpTo(codec, ids, soas, eoas, lo, k).Err? ==>
              TracksUpTo(codec, ids, soas, eoas, lo, k).error == EmptySequenceIndex
    decreases k
  {
    if k > lo {
      TracksUpToOk(codec, ids, soas, eoas, lo, k - 1);
      PairTracksFails(codec, ids, soas[k - 1], eoas[k - 1]);
      SpansNonEmptyNext(ids, soas, eoas, lo, k);
    }
  }

  /** A pair's tracks fail exactly when its span is empty. */
  lemma PairTracksFails(codec: Codec, ids: seq<Token>, soaPos: nat, eoaPos: nat)
    ensures PairTracks(codec, ids, soaPos, eoaPos).Ok? <==> |Span(ids, soaPos, eoaPos)| > 0
    ensures PairTracks(codec, ids, soaPos, eoaPos).Err? ==> PairTracks(codec, ids, soaPos, eoaPos).error == EmptySequenceIndex
  {
    SpanCodesFails(ids, soaPos, eoaPos);
  }

  lemma SpansNonEmptyNext(ids: seq<Token>, soas: seq<nat>, eoas: seq<nat>, lo: nat, k: nat)
    requires lo < k <= |soas| == |eoas|
    ensures SpansNonEmpty(ids, soas, eoas, lo, k) <==>
            SpansNonEmpty(ids, soas, eoas, lo, k - 1) && |Span(ids, soas[k - 1], eoas[k - 1])| > 0
  {
    if SpansNonEmpty(ids, soas, eoas, lo, k - 1) && |Span(ids, soas[k - 1], eoas[k - 1])| > 0 {
      forall i | lo <= i < k
        ensures |Span(ids, soas[i], eoas[i])| > 0
      {
        if i < k - 1 {
          assert SpansNonEmpty(ids, soas, eoas, lo, k - 1);
        }
      }
    }
  }

  /** Extraction succeeds exactly when the marker counts agree, at least one
      pair remains after the skipped reference pair and every remaining
      span is non-empty; each failure has its own error. */
  lemma ExtractOutcome(codec: Codec, ids: seq<Token>, soas: seq<nat>, eoas: seq<nat>, lo: nat)
    ensures var r := ExtractPairs(codec, ids, soas, eoas, lo);
            && (r.Ok? <==> |soas| == |eoas| && lo < |soas| && SpansNonEmpty(ids, soas, eoas, lo, |soas|))
            && (|soas| != |eoas| ==> r == Err(MalformedOutput))
            && (|soas| == |eoas| <= lo ==> r == Err(EmptyConcatenate))
            && (|soas| == |eoas| && lo < |soas| && r.Err? ==> r.error == EmptySequenceIndex)
  {
    if |soas| == |eoas| && lo < |soas| {
      TracksUpToOk(codec, ids, soas, eoas, lo, |soas|);
    }
  }

  /** One span `x y` between the markers: the even token goes to the vocal
      track, the odd one to the instrumental track. */
  lemma OneSpan(codec: Codec, soa: Token, eoa: Token, x: Token, y: Token)
    requires soa != eoa && x != soa && x != eoa && y != soa && y != eoa && x != SpanMarker
    ensures Extract(codec, soa, eoa, [soa, x, y, eoa], false)
            == Ok(Tracks(codec.idsToCodes([x]), codec.idsToCodes([y])))
  {
    var ids := [soa, x, y, eoa];
    MarkerPositions(soa, eoa, x, y);
    assert Span(ids, 0, 3) == [x, y];
    assert [x, y][..2] == [x, y];
    assert SpanCodes(ids, 0, 3) == Ok([x, y]);
    assert Evens([x, y]) == [x] && Odds([x, y]) == [y];
    var t := Tracks(codec.idsToCodes([x]), codec.idsToCodes([y]));
    assert PairTracks(codec, ids, 0, 3) == Ok(t);
    assert TracksUpTo(codec, ids, [0], [3], 0, 1) == Append(Ok(Tracks([], [])), Ok(t));
    assert [] + t.vocal == t.vocal && [] + t.instrumental == t.instrumental;
    assert ExtractPairs(codec, ids, [0], [3], 0) == Ok(t);
  }

  lemma MarkerPositions(soa: Token, eoa: Token, x: Token, y: Token)
    requires soa != eoa && x != soa && x != eoa && y != soa && y != eoa
    ensures Positions([soa, x, y, eoa], soa) == [0]
    ensures Positions([soa, x, y, eoa], eoa) == [3]
  {
    var ids := [soa, x, y, eoa];
    assert PositionsFrom(ids, soa, 4) == [] && PositionsFrom(ids, eoa, 4) == [];
    assert PositionsFrom(ids, soa, 3) == [] && PositionsFrom(ids, eoa, 3) == [3];
    assert PositionsFrom(ids, soa, 2) == [] && PositionsFrom(ids, eoa, 2) == [3];
    assert PositionsFrom(ids, soa, 1) == [] && PositionsFrom(ids, eoa, 1) == [3];
  }

  /** A span opened by `32016` loses that token, and an odd trailing token
      is dropped. */
  lemma MarkerAndOddTokenDropped(soa: Token, eoa: Token, x: Token, y: Token, z: Token)
    requires soa != eoa
    ensures SpanCodes([soa, SpanMarker, x, y, z, eoa], 0, 5) == Ok([x, y])
  {
    var ids := [soa, SpanMarker, x, y, z, eoa];
    assert Slice(ids, 1, 5) == [SpanMarker, x, y, z];
    assert [SpanMarker, x, y, z][1..][..2] == [x, y];
  }

  /** With an audio prompt a single pair (the reference) leaves nothing to
      concatenate. */
  lemma ReferenceOnlyFails(codec: Codec, soa: Token, eoa: Token, x: Token)
    requires soa != eoa && x != soa && x != eoa
    ensures Extract(codec, soa, eoa, [soa, x, x, eoa], true) == Err(EmptyConcatenate)
  {
    MarkerPositions(soa, eoa, x, x);
  }
}
