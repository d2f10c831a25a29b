/** `stage2_inference`: for every stage-1 artifact whose stage-2 output
    does not exist yet, the frames are cut into calls of `stage2_generate`
    (whole 6-second chunks grouped `batch_size` at a time, then the
    remaining frames with batch size 1), the outputs are concatenated,
    converted into a codec array and repaired. */
module Stage2 {
  import opened Outcomes
  import opened Slicing
  import opened Collaborators
  import opened TeacherForcing
  import opened Repair

  // ---------------------------------------------------------------------
  // Python integer arithmetic

  /** Python's `a // b`: rounds toward negative infinity. */
  function FloorDiv(a: int, b: int): (q: int)
    requires b != 0
    ensures b * q <= a < b * q + b || b * q + b < a <= b * q
  {
    if b > 0 then a / b else (-a) / (-b)
  }

  /** Python's `a % b`: takes the sign of `b`. */
  function FloorMod(a: int, b: int): int
    requires b != 0
  {
    a - b * FloorDiv(a, b)
  }

  function Min(a: int, b: int): int {
    if a <= b then a else b
  }

  // ---------------------------------------------------------------------
  // The chunk plan

  /** Seconds covered by whole 6-second chunks: `T // 50 // 6 * 6`. */
  function OutputDuration(frames: nat): nat {
    frames / FrameRate / ChunkSeconds * ChunkSeconds
  }

  /** Number of whole chunks. */
  function NumBatch(frames: nat): nat {
    OutputDuration(frames) / ChunkSeconds
  }

  /** `num_batch // batch_size + (1 if num_batch % batch_size != 0 else 0)`. */
  function NumSegments(nb: int, bs: int): int
    requires bs != 0
  {
    FloorDiv(nb, bs) + (if FloorMod(nb, bs) != 0 then 1 else 0)
  }

  /** One call of `stage2_generate`: frames `[start, end)` of the prompt with
      the given batch size. */
  datatype Call = Call(start: int, end: int, batch: int)

  /** Segment `seg` of `n` when the chunks are processed `bs` at a time. */
  function SegmentCall(nb: int, bs: int, n: int, seg: int): Call
    requires bs != 0
  {
    Call(seg * bs * ChunkFrames,
         Min((seg + 1) * bs * ChunkFrames, nb * ChunkFrames),
         if seg != n - 1 || FloorMod(nb, bs) == 0 then bs else FloorMod(nb, bs))
  }

  /** The first `k` segment calls. */
  function SegmentCalls(nb: int, bs: int, n: int, k: nat): (cs: seq<Call>)
    requires bs != 0
    ensures |cs| == k && forall seg :: 0 <= seg < k ==> cs[seg] == SegmentCall(nb, bs, n, seg)
  {
    seq(k, seg requires 0 <= seg < k => SegmentCall(nb, bs, n, seg))
  }

  /** The calls over the whole chunks, or the exception raised before any
      call: division by a zero batch size, or the concatenation of no
      segment at all when the batch size is negative. */
  function MainCalls(frames: nat, bs: int): Result<seq<Call>> {
    var od := OutputDuration(frames);
    var nb := od / ChunkSeconds;
    if nb <= bs then Ok([Call(0, od * FrameRate, nb)])
    else if bs == 0 then Err(ZeroDivision)
    else
      var n := NumSegments(nb, bs);
      if n <= 0 then Err(EmptyConcatenate) else Ok(SegmentCalls(nb, bs, n, n))
  }

  /** The remaining frames `[od*50, T)`, when there are any, as one call of batch size 1. */
  function TailCalls(frames: nat): seq<Call> {
    var cut := OutputDuration(frames) * FrameRate;
    if cut != frames then [Call(cut, frames, 1)] else []
  }

  /** Every call of one artifact, in order. */
  function Plan(frames: nat, bs: int): Result<seq<Call>> {
    match MainCalls(frames, bs)
    case Err(e) => Err(e)
    case Ok(calls) => Ok(calls + TailCalls(frames))
  }

  /** The calls cover `[lo, hi)` one after the other, without gap or overlap. */
  ghost predicate Tiles(calls: seq<Call>, lo: int, hi: int)
    decreases |calls|
  {
    if |calls| == 0 then lo == hi
    else
      var c := calls[|calls| - 1];
      c.start <= c.end && c.end == hi && Tiles(calls[..|calls| - 1], lo, c.start)
  }

  /** The sum of the batch sizes. */
  function SumBatch(calls: seq<Call>): int {
    if |calls| == 0 then 0 else SumBatch(calls[..|calls| - 1]) + calls[|calls| - 1].batch
  }

  // ---------------------------------------------------------------------
  // Properties of the plan

  /** The whole chunks end at frame `nb * 300`, and the rest is shorter than a chunk. */
  lemma ChunkArithmetic(frames: nat)
    ensures OutputDuration(frames) * FrameRate == NumBatch(frames) * ChunkFrames
    ensures NumBatch(frames) * ChunkFrames <= frames < NumBatch(frames) * ChunkFrames + ChunkFrames
  {
    var q := frames / 50 / 6;
    assert OutputDuration(frames) == q * 6;
    assert NumBatch(frames) == q;
    assert frames / 50 == q * 6 + frames / 50 % 6;
    assert frames == frames / 50 * 50 + frames % 50;
  }

  /** With a positive batch size, Python's `//` and `%` are Dafny's, and the
      segments hold `num_batch` chunks: all but the last full. */
  lemma SegmentCount(nb: int, bs: int)
    requires 0 < bs < nb
    ensures FloorDiv(nb, bs) == nb / bs && FloorMod(nb, bs) == nb % bs
    ensures var n := NumSegments(nb, bs);
            && n >= 2
            && (n - 1) * bs < nb <= n * bs
            && (nb % bs == 0 ==> nb == n * bs)
            && (nb % bs != 0 ==> nb == (n - 1) * bs + nb % bs)
  {
    var q, r := nb / bs, nb % bs;
    assert nb == q * bs + r;
    assert q >= 1;
    if r == 0 {
      assert q >= 2;
    }
  }

  /** The frames and the batch size of segment `seg`. */
  lemma SegmentShape(nb: int, bs: int, seg: nat)
    requires 0 < bs < nb && seg < NumSegments(nb, bs)
    ensures var n := NumSegments(nb, bs);
            var c := SegmentCall(nb, bs, n, seg);
            && c.start == seg * bs * ChunkFrames
            && c.end == (if seg + 1 < n then (seg + 1) * bs * ChunkFrames else nb * ChunkFrames)
            && c.end - c.start == c.batch * ChunkFrames
            && 1 <= c.batch <= bs
            && (seg + 1 < n ==> c.batch == bs)
  {
    var n := NumSegments(nb, bs);
    SegmentCount(nb, bs);
    var c := SegmentCall(nb, bs, n, seg);
    if seg + 1 < n {
      assert (seg + 1) * bs <= (n - 1) * bs;
      assert (seg + 1) * bs * ChunkFrames <= nb * ChunkFrames;
      assert c.batch == bs;
      assert c.end - c.start == ((seg + 1) * bs - seg * bs) * ChunkFrames;
    } else {
      assert seg == n - 1;
      assert nb * ChunkFrames <= (seg + 1) * bs * ChunkFrames;
      if nb % bs == 0 {
        assert c.batch == bs;
        assert nb - seg * bs == bs;
      } else {
        assert c.batch == nb % bs;
        assert nb - seg * bs == nb % bs;
      }
      assert c.end - c.start == (nb - seg * bs) * ChunkFrames;
    }
  }

  /** The first `k` segments tile `[0, end of segment k-1)`. */
  lemma {:induction false} SegmentsTile(nb: int, bs: int, k: nat)
    requires 0 < bs < nb && k <= NumSegments(nb, bs)
    ensures var n := NumSegments(nb, bs);
            Tiles(SegmentCalls(nb, bs, n, k), 0, if k == 0 then 0 else SegmentCall(nb, bs, n, k - 1).end)
  {
    var n := NumSegments(nb, bs);
    if k > 0 {
      var cs := SegmentCalls(nb, bs, n, k);
      assert cs[..k - 1] == SegmentCalls(nb, bs, n, k - 1);
      SegmentsTile(nb, bs, k - 1);
      SegmentShape(nb, bs, k - 1);
      if k > 1 {
        SegmentShape(nb, bs, k - 2);
      }
    }
  }

  /** The first `k` segments, none of them the last, hold `k * bs` chunks. */
  lemma {:induction false} SegmentsSum(nb: int, bs: int, k: nat)
    requires 0 < bs < nb && k < NumSegments(nb, bs)
    ensures SumBatch(SegmentCalls(nb, bs, NumSegments(nb, bs), k)) == k * bs
  {
    var n := NumSegments(nb, bs);
    if k > 0 {
      var cs := SegmentCalls(nb, bs, n, k);
      assert cs[..k - 1] == SegmentCalls(nb, bs, n, k - 1);
      SegmentsSum(nb, bs, k - 1);
      SegmentShape(nb, bs, k - 1);
    }
  }

  /** The calls over the whole chunks: they fail exactly when there are more
      chunks than the batch size and the batch size is not positive. */
  lemma MainCallsFail(frames: nat, bs: int)
    ensures MainCalls(frames, bs).Err? <==> NumBatch(frames) > bs && bs <= 0
    ensures MainCalls(frames, bs) == Err(ZeroDivision) <==> NumBatch(frames) > 0 && bs == 0
    ensures MainCalls(frames, bs) == Err(EmptyConcatenate) <==> NumBatch(frames) > bs && bs < 0
  {
    var nb := NumBatch(frames);
    if nb > bs && bs < 0 && nb > 0 {
      var q := (-nb) / (-bs);
      assert -nb == q * (-bs) + (-nb) % (-bs);
      assert q <= -1;
    } else if nb > bs > 0 {
      SegmentCount(nb, bs);
    }
  }

  /** The calls over the whole chunks tile `[0, od*50)`; each is `batch * 300`
      frames wide; the batch sizes add up to the number of chunks; when the
      chunks are grouped, every group but the last holds `batch_size` chunks
      and the last one the remainder of the division, if that is not zero. */
  lemma MainCallsShape(frames: nat, bs: int)
    requires MainCalls(frames, bs).Ok?
    ensures var calls := MainCalls(frames, bs).value;
            var nb := NumBatch(frames);
            && |calls| > 0
            && Tiles(calls, 0, OutputDuration(frames) * FrameRate)
            && (forall k :: 0 <= k < |calls| ==> 0 <= calls[k].batch && calls[k].end - calls[k].start == calls[k].batch * ChunkFrames)
            && SumBatch(calls) == nb
            && (nb > bs ==> forall k :: 0 <= k < |calls| - 1 ==> calls[k].batch == bs)
            && (nb > bs && nb % bs != 0 ==> calls[|calls| - 1].batch == nb % bs)
  {
    var nb := NumBatch(frames);
    ChunkArithmetic(frames);
    var calls := MainCalls(frames, bs).value;
    if nb <= bs {
      assert calls[..0] == [];
    } else {
      MainCallsFail(frames, bs);
      var n := NumSegments(nb, bs);
      SegmentCount(nb, bs);
      SegmentsTile(nb, bs, n);
      SegmentShape(nb, bs, n - 1);
      forall k | 0 <= k < |calls|
        ensures 0 <= calls[k].batch && calls[k].end - calls[k].start == calls[k].batch * ChunkFrames
        ensures k < |calls| - 1 ==> calls[k].batch == bs
      {
        SegmentShape(nb, bs, k);
      }
      SegmentsSum(nb, bs, n - 1);
      assert calls[..n - 1] == SegmentCalls(nb, bs, n, n - 1);
      if nb % bs == 0 {
        assert (n - 1) * bs + bs == n * bs;
      }
    }
  }

  /** Appending a call that starts where the tiling ends extends the tiling. */
  lemma TilesExtend(calls: seq<Call>, lo: int, hi: int, c: Call)
    requires Tiles(calls, lo, hi) && c.start == hi <= c.end
    ensures Tiles(calls + [c], lo, c.end)
  {
    assert (calls + [c])[..|calls|] == calls;
  }

  /** The plan covers `[0, T)` exactly once, and the frames after the whole
      chunks (fewer than 300) form one call of batch size 1. */
  lemma PlanTiles(frames: nat, bs: int)
    requires Plan(frames, bs).Ok?
    ensures var calls := Plan(frames, bs).value;
            var cut := OutputDuration(frames) * FrameRate;
            && Tiles(calls, 0, frames)
            && (cut != frames ==> calls[|calls| - 1] == Call(cut, frames, 1) && 0 < frames - cut < ChunkFrames)
  {
    ChunkArithmetic(frames);
    MainCallsShape(frames, bs);
    var main := MainCalls(frames, bs).value;
    var cut := OutputDuration(frames) * FrameRate;
    if cut != frames {
      TilesExtend(main, 0, cut, Call(cut, frames, 1));
    } else {
      assert main + [] == main;
    }
  }

  // ---------------------------------------------------------------------
  // Running the calls

  /** The output of one call on its frames of the prompt. */
  function CallOutput(tk: Tokenizer, sc: Stage2Codec, model: Stage2Model, prompt: seq<int>, c: Call): Result<seq<Token>> {
    Generate(tk, sc, model, Slice(prompt, c.start, c.end), c.batch)
  }

  /** The calls made in order and their outputs concatenated; the first
      failing call stops the run. */
  function RunCalls(tk: Tokenizer, sc: Stage2Codec, model: Stage2Model, prompt: seq<int>, calls: seq<Call>): Result<seq<Token>> {
    if |calls| == 0 then Ok([])
    else
      match RunCalls(tk, sc, model, prompt, calls[..|calls| - 1])
      case Err(e) => Err(e)
      case Ok(acc) =>
        match CallOutput(tk, sc, model, prompt, calls[|calls| - 1])
        case Err(e) => Err(e)
        case Ok(o) => Ok(acc + o)
  }

  /** The stage-2 tokens of one artifact. */
  function FileTokens(tk: Tokenizer, sc: Stage2Codec, model: Stage2Model, prompt: seq<int>, bs: int): Result<seq<Token>> {
    match Plan(|prompt|, bs)
    case Err(e) => Err(e)
    case Ok(calls) => RunCalls(tk, sc, model, prompt, calls)
  }

  /** The repaired codec array saved for one artifact. */
  function FileCodes(tk: Tokenizer, sc: Stage2Codec, model: Stage2Model, prompt: seq<int>, bs: int): Result<Grid> {
    match FileTokens(tk, sc, model, prompt, bs)
    case Err(e) => Err(e)
    case Ok(tokens) => Ok(Repaired(sc.idsToCodes(tokens)))
  }

  /** A call the teacher-forcing loop lays out frame by frame: one row, or
      full rows of 300 frames. */
  predicate Shaped(c: Call) {
    c.batch <= 1 || c.end - c.start == c.batch * ChunkFrames
  }

  lemma {:induction false} TilesOrdered(calls: seq<Call>, lo: int, hi: int)
    requires Tiles(calls, lo, hi)
    ensures lo <= hi
    decreases |calls|
  {
    if |calls| > 0 {
      TilesOrdered(calls[..|calls| - 1], lo, calls[|calls| - 1].start);
    }
  }

  /** `out` holds eight tokens per frame of `frames`, and token `8t` is the
      stage-2 token of frame `t`. */
  ghost predicate Aligned(out: seq<Token>, sc: Stage2Codec, frames: seq<int>) {
    && |out| == 8 * |frames|
    && forall t :: 0 <= t < |frames| ==> HoldsAt(out, 8 * t, sc.frameToken(frames[t]))
  }

  /** Aligned outputs concatenate to the output of the concatenated frames. */
  lemma AlignedConcat(a: seq<Token>, b: seq<Token>, sc: Stage2Codec, fa: seq<int>, fb: seq<int>)
    requires Aligned(a, sc, fa) && Aligned(b, sc, fb)
    ensures Aligned(a + b, sc, fa + fb)
  {
    forall t | 0 <= t < |fa + fb| ensures HoldsAt(a + b, 8 * t, sc.frameToken((fa + fb)[t])) {
      if t >= |fa| {
        var u := t - |fa|;
        assert HoldsAt(b, 8 * u, sc.frameToken(fb[u]));
        assert 8 * t == |a| + 8 * u;
      } else {
        assert HoldsAt(a, 8 * t, sc.frameToken(fa[t]));
      }
    }
  }

  /** An output aligned with the first `mid` frames, followed by one aligned
      with the frames from `mid` to `hi`, is aligned with the first `hi`. */
  lemma AlignedExtend(a: seq<Token>, b: seq<Token>, sc: Stage2Codec, frames: seq<int>, mid: int, hi: int)
    requires 0 <= mid <= hi <= |frames|
    requires Aligned(a, sc, frames[..mid]) && Aligned(b, sc, frames[mid..hi])
    ensures Aligned(a + b, sc, frames[..hi])
  {
    AlignedConcat(a, b, sc, frames[..mid], frames[mid..hi]);
    assert frames[..mid] + frames[mid..hi] == frames[..hi];
  }

  /** The output of one well-shaped call is aligned with its frames. */
  lemma CallAligned(tk: Tokenizer, sc: Stage2Codec, model: Stage2Model, prompt: seq<int>, c: Call)
    requires 0 <= c.start <= c.end <= |prompt| && Shaped(c)
    requires CallOutput(tk, sc, model, prompt, c).Ok?
    ensures Aligned(CallOutput(tk, sc, model, prompt, c).value, sc, prompt[c.start..c.end])
  {
    var slice := Slice(prompt, c.start, c.end);
    assert slice == prompt[c.start..c.end];
    if c.batch <= 1 {
      SingleRowFrames(tk, sc, model, slice, c.batch);
    } else {
      BatchAligned(tk, sc, model, slice, c.batch);
    }
  }

  /** Full rows of 300 frames, concatenated: frame `j` of the input is
      again output token `8j`. */
  lemma BatchAligned(tk: Tokenizer, sc: Stage2Codec, model: Stage2Model, prompt: seq<int>, batch: int)
    requires batch > 1 && |prompt| == batch * ChunkFrames
    requires Generate(tk, sc, model, prompt, batch).Ok?
    ensures Aligned(Generate(tk, sc, model, prompt, batch).value, sc, prompt)
  {
    BatchFrames(tk, sc, model, prompt, batch);
    RowsAligned(Generate(tk, sc, model, prompt, batch).value, sc, prompt, batch);
  }

  /** Rows of 300 frames laid out one after the other, frame `j` of row `r`
      at `r*2400 + 8j`: frame `t` of the whole input is at `8t`. */
  lemma RowsAligned(out: seq<Token>, sc: Stage2Codec, frames: seq<int>, batch: int)
    requires batch > 1 && |frames| == batch * ChunkFrames && |out| == batch * (8 * ChunkFrames)
    requires forall r, j :: 0 <= r < batch && 0 <= j < ChunkFrames ==>
               r * ChunkFrames + j < |frames|
               && HoldsAt(out, r * (8 * ChunkFrames) + 8 * j, sc.frameToken(frames[r * ChunkFrames + j]))
    ensures Aligned(out, sc, frames)
  {
    forall t | 0 <= t < |frames|
      ensures HoldsAt(out, 8 * t, sc.frameToken(frames[t]))
    {
      var r, f := t / ChunkFrames, t % ChunkFrames;
      assert t == r * ChunkFrames + f;
      var idx, pos := r * ChunkFrames + f, r * (8 * ChunkFrames) + 8 * f;
      assert HoldsAt(out, pos, sc.frameToken(frames[idx]));
      assert idx == t && pos == 8 * t;
    }
  }

  /** A successful run is the successful run of all calls but the last,
      followed by the output of the last. */
  lemma RunCallsLast(tk: Tokenizer, sc: Stage2Codec, model: Stage2Model, prompt: seq<int>, calls: seq<Call>)
    requires |calls| > 0 && RunCalls(tk, sc, model, prompt, calls).Ok?
    ensures var init, c := calls[..|calls| - 1], calls[|calls| - 1];
            && RunCalls(tk, sc, model, prompt, init).Ok? && CallOutput(tk, sc, model, prompt, c).Ok?
            && RunCalls(tk, sc, model, prompt, calls).value
               == RunCalls(tk, sc, model, prompt, init).value + CallOutput(tk, sc, model, prompt, c).value
  {
  }

  /** Calls that tile `[0, hi)` produce an output aligned with the first
      `hi` frames. */
  lemma {:induction false} RunAligned(tk: Tokenizer, sc: Stage2Codec, model: Stage2Model, prompt: seq<int>, calls: seq<Call>, hi: int)
    requires Tiles(calls, 0, hi) && hi <= |prompt|
    requires forall k :: 0 <= k < |calls| ==> Shaped(calls[k])
    requires RunCalls(tk, sc, model, prompt, calls).Ok?
    ensures 0 <= hi && Aligned(RunCalls(tk, sc, model, prompt, calls).value, sc, prompt[..hi])
    decreases |calls|
  {
    if |calls| > 0 {
      var init, c := calls[..|calls| - 1], calls[|calls| - 1];
      TilesOrdered(init, 0, c.start);
      RunCallsLast(tk, sc, model, prompt, calls);
      RunAligned(tk, sc, model, prompt, init, c.start);
      var acc, o := RunCalls(tk, sc, model, prompt, init).value, CallOutput(tk, sc, model, prompt, c).value;
      CallAligned(tk, sc, model, prompt, c);
      AlignedExtend(acc, o, sc, prompt, c.start, hi);
    } else {
      assert Aligned([], sc, prompt[..0]);
    }
  }

  /** End to end: a successful stage-2 pass over `T` frames yields `8T`
      tokens, and every eighth token, starting at 0, is the stage-1 frame it
      was forced with, in the order of the input. */
  lemma StreamAligned(tk: Tokenizer, sc: Stage2Codec, model: Stage2Model, prompt: seq<int>, bs: int)
    requires FileTokens(tk, sc, model, prompt, bs).Ok?
    ensures var out := FileTokens(tk, sc, model, prompt, bs).value;
            && |out| == 8 * |prompt|
            && forall t :: 0 <= t < |prompt| ==> HoldsAt(out, 8 * t, sc.frameToken(prompt[t]))
  {
    var calls := Plan(|prompt|, bs).value;
    PlanShaped(|prompt|, bs);
    RunAligned(tk, sc, model, prompt, calls, |prompt|);
    assert prompt[..|prompt|] == prompt;
  }

  /** Every call of a plan is one the teacher-forcing loop lays out frame by
      frame, and together the calls tile the whole input. */
  lemma PlanShaped(frames: nat, bs: int)
    requires Plan(frames, bs).Ok?
    ensures var calls := Plan(frames, bs).value;
            && Tiles(calls, 0, frames)
            && forall k :: 0 <= k < |calls| ==> Shaped(calls[k])
  {
    var calls := Plan(frames, bs).value;
    PlanTiles(frames, bs);
    MainCallsShape(frames, bs);
    var main := MainCalls(frames, bs).value;
    forall k | 0 <= k < |calls| ensures Shaped(calls[k]) {
      if k >= |main| {
        assert calls[k] == TailCalls(frames)[k - |main|];
      }
    }
  }

  /** A failure stops the run: calls after it change nothing. */
  lemma {:induction false} RunCallsFailSticks(tk: Tokenizer, sc: Stage2Codec, model: Stage2Model, prompt: seq<int>, calls: seq<Call>, k: nat)
    requires k <= |calls| && RunCalls(tk, sc, model, prompt, calls[..k]).Err?
    ensures RunCalls(tk, sc, model, prompt, calls) == RunCalls(tk, sc, model, prompt, calls[..k])
    decreases |calls| - k
  {
    if k < |calls| {
      var init := calls[..|calls| - 1];
      assert init[..k] == calls[..k];
      RunCallsFailSticks(tk, sc, model, prompt, init, k);
    } else {
      assert calls[..k] == calls;
    }
  }

  // ---------------------------------------------------------------------
  // One artifact

  /** The whole chunks' part of the run, before the remaining frames. */
  function MainRun(tk: Tokenizer, sc: Stage2Codec, model: Stage2Model, prompt: seq<int>, bs: int): Result<seq<Token>> {
    match MainCalls(|prompt|, bs)
    case Err(e) => Err(e)
    case Ok(calls) => RunCalls(tk, sc, model, prompt, calls)
  }

  /** The run over the calls followed by one more call. */
  lemma RunCallsSnoc(tk: Tokenizer, sc: Stage2Codec, model: Stage2Model, prompt: seq<int>, calls: seq<Call>, c: Call)
    ensures RunCalls(tk, sc, model, prompt, calls + [c]) ==
            match RunCalls(tk, sc, model, prompt, calls)
            case Err(e) => Err(e)
            case Ok(acc) =>
              match CallOutput(tk, sc, model, prompt, c)
              case Err(e) => Err(e)
              case Ok(o) => Ok(acc + o)
  {
    assert (calls + [c])[..|calls|] == calls;
  }

  /** The run over a prefix of the calls, one call further. */
  lemma RunCallsNext(tk: Tokenizer, sc: Stage2Codec, model: Stage2Model, prompt: seq<int>, calls: seq<Call>, k: nat, acc: seq<Token>)
    requires k < |calls| && RunCalls(tk, sc, model, prompt, calls[..k]) == Ok(acc)
    ensures RunCalls(tk, sc, model, prompt, calls[..k + 1]) ==
            match CallOutput(tk, sc, model, prompt, calls[k])
            case Err(e) => Err(e)
            case Ok(o) => Ok(acc + o)
  {
    assert calls[..k + 1][..k] == calls[..k];
  }

  /** The stage-2 pass over one artifact's stage-1 codes `prompt`, up to
      the saved array: the tokens, `ids2npy`, then the repair. */
  method Stage2File(tk: Tokenizer, sc: Stage2Codec, model: Stage2Model, prompt: seq<int>, bs: int)
    returns (res: Result<Grid>)
    ensures res == FileCodes(tk, sc, model, prompt, bs)
  {
    var tokens := Stage2Tokens(tk, sc, model, prompt, bs);
    match tokens
    case Err(e) =>
      res := Err(e);
    case Ok(output) =>
      var codes := sc.idsToCodes(output);
      var unrepaired := ToArray(codes);
      var fixed := RepairInvalidCodes(unrepaired);
      res := Ok(GridOf(fixed));
  }

  /** The stage-2 tokens of one artifact: the whole chunks, then the
      remaining frames with batch size 1. */
  method Stage2Tokens(tk: Tokenizer, sc: Stage2Codec, model: Stage2Model, prompt: seq<int>, bs: int)
    returns (res: Result<seq<Token>>)
    ensures res == FileTokens(tk, sc, model, prompt, bs)
  {
    var od := |prompt| / FrameRate / ChunkSeconds * ChunkSeconds;
    var main := MainOutput(tk, sc, model, prompt, bs);
    if main.Err? {
      if MainCalls(|prompt|, bs).Ok? {
        ghost var calls := MainCalls(|prompt|, bs).value;
        assert (calls + TailCalls(|prompt|))[..|calls|] == calls;
        RunCallsFailSticks(tk, sc, model, prompt, calls + TailCalls(|prompt|), |calls|);
      }
      return Err(main.error);
    }
    var output := main.value;
    ghost var calls := MainCalls(|prompt|, bs).value;
    assert Plan(|prompt|, bs) == Ok(calls + TailCalls(|prompt|));
    if od * FrameRate != |prompt| {
      var ending := Stage2Generate(tk, sc, model, SliceFrom(prompt, od * FrameRate), 1);
      RunCallsSnoc(tk, sc, model, prompt, calls, Call(od * FrameRate, |prompt|, 1));
      if ending.Err? {
        return Err(ending.error);
      }
      output := output + ending.value;
    } else {
      assert calls + TailCalls(|prompt|) == calls;
    }
    res := Ok(output);
  }

  /** `output` before the remaining frames: one call when the chunks fit in
      one batch, otherwise the segments concatenated. */
  method MainOutput(tk: Tokenizer, sc: Stage2Codec, model: Stage2Model, prompt: seq<int>, bs: int)
    returns (res: Result<seq<Token>>)
    ensures res == MainRun(tk, sc, model, prompt, bs)
  {
    var od := |prompt| / FrameRate / ChunkSeconds * ChunkSeconds;
    var nb := od / ChunkSeconds;
    if nb <= bs {
      var whole := Call(0, od * FrameRate, nb);
      res := Stage2Generate(tk, sc, model, Slice(prompt, whole.start, whole.end), whole.batch);
      RunCallsNext(tk, sc, model, prompt, [whole], 0, []);
      assert [whole][..0] == [] && [whole][..1] == [whole];
      if res.Ok? {
        assert [] + res.value == res.value;
      }
      return;
    }
    if bs == 0 {
      return Err(ZeroDivision);
    }
    var n := NumSegments(nb, bs);
    ChunkArithmetic(|prompt|);
    var segments := RunSegments(tk, sc, model, prompt, nb, bs, n);
    match segments
    case Err(e) =>
      res := Err(e);
    case Ok(parts) =>
      if |parts| == 0 {
        return Err(EmptyConcatenate);
      }
      res := Ok(Flatten(parts));
  }

  /** The loop over the segments: `segments.append(stage2_generate(...))`. */
  method RunSegments(tk: Tokenizer, sc: Stage2Codec, model: Stage2Model, prompt: seq<int>, nb: int, bs: int, n: int)
    returns (res: Result<seq<seq<Token>>>)
    requires bs != 0
    ensures var calls := SegmentCalls(nb, bs, n, if n < 0 then 0 else n);
            match res
            case Err(e) => RunCalls(tk, sc, model, prompt, calls) == Err(e)
            case Ok(parts) => |parts| == |calls| && RunCalls(tk, sc, model, prompt, calls) == Ok(Flatten(parts))
  {
    var count: nat := if n < 0 then 0 else n;
    ghost var calls := SegmentCalls(nb, bs, n, count);
    var segments: seq<seq<Token>> := [];
    var seg := 0;
    while seg < n
      invariant 0 <= seg <= count && |segments| == seg
      invariant RunCalls(tk, sc, model, prompt, calls[..seg]) == Ok(Flatten(segments))
    {
      var call := SegmentCall(nb, bs, n, seg);
      var segment := Stage2Generate(tk, sc, model, Slice(prompt, call.start, call.end), call.batch);
      RunCallsNext(tk, sc, model, prompt, calls, seg, Flatten(segments));
      if segment.Err? {
        RunCallsFailSticks(tk, sc, model, prompt, calls, seg + 1);
        return Err(segment.error);
      }
      segments := segments + [segment.value];
      seg := seg + 1;
    }
    assert calls[..seg] == calls;
    res := Ok(segments);
  }

  /** The codec array as a 2-D array. */
  method ToArray(g: Grid) returns (a: array2<int>)
    ensures GridOf(a) == g
  {
    var cols := if |g| == 0 then 0 else |g[0]|;
    a := new int[|g|, cols]((i, j) requires 0 <= i < |g| && 0 <= j < cols => g[i][j]);
    forall i | 0 <= i < |g| ensures GridOf(a)[i] == g[i] {
      assert RowOf(a, i) == g[i];
    }
  }
}
