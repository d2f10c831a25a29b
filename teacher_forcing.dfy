/** `stage2_generate`: teacher forcing of the stage-2 model. The stage-1
    codes of a chunk are cut into batch rows of 300 frames; every row gets
    the prompt `soa stage_1 <codes> stage_2`; then, frame by frame, the
    frame's own stage-1 token is appended to each row and the model must
    append exactly seven more. The result is everything after the prompt,
    row after row. */
module TeacherForcing {
  import opened Outcomes
  import opened Slicing
  import opened Collaborators

  // ---------------------------------------------------------------------
  // Batch rows and prompts

  /** The stage-1 codes of a chunk as stage-2 tokens. */
  function FrameTokens(sc: Stage2Codec, prompt: seq<int>): (codes: seq<Token>)
    ensures |codes| == |prompt|
    ensures forall j :: 0 <= j < |codes| ==> codes[j] == sc.frameToken(prompt[j])
  {
    seq(|prompt|, j requires 0 <= j < |prompt| => sc.frameToken(prompt[j]))
  }

  /** Batch row `i`: frames `[i*300, (i+1)*300)`. */
  function BatchRow(codes: seq<Token>, i: nat): seq<Token> {
    Slice(codes, i * ChunkFrames, (i + 1) * ChunkFrames)
  }

  /** The rows of a call: `batch_size` rows of 300 frames when the batch
      size exceeds 1, otherwise the single row of all codes. */
  function BatchRows(codes: seq<Token>, batchSize: int): (rows: seq<seq<Token>>)
    ensures |rows| > 0
    ensures batchSize > 1 ==> |rows| == batchSize
    ensures batchSize > 1 ==> forall i :: 0 <= i < |rows| ==> rows[i] == BatchRow(codes, i)
    ensures batchSize <= 1 ==> rows == [codes]
  {
    if batchSize > 1 then seq(batchSize, i requires 0 <= i => BatchRow(codes, i)) else [codes]
  }

  /** All rows have the width of the first (`np.concatenate` along rows). */
  predicate SameWidth(rows: seq<seq<Token>>) {
    |rows| > 0 && forall r :: 0 <= r < |rows| ==> |rows[r]| == |rows[0]|
  }

  /** The prompt row of codes `row`. */
  function PromptRow(tk: Tokenizer, row: seq<Token>): seq<Token> {
    [tk.soa, tk.stage1] + row + [tk.stage2]
  }

  function PromptRows(tk: Tokenizer, rows: seq<seq<Token>>): (ps: seq<seq<Token>>)
    ensures |ps| == |rows|
    ensures forall r :: 0 <= r < |ps| ==> ps[r] == PromptRow(tk, rows[r])
  {
    seq(|rows|, r requires 0 <= r < |rows| => PromptRow(tk, rows[r]))
  }

  /** Column `f` of the rows: `codec_ids[:, f:f+1]`. */
  function Column(rows: seq<seq<Token>>, f: nat): (col: seq<Token>)
    requires forall r :: 0 <= r < |rows| ==> f < |rows[r]|
    ensures |col| == |rows|
    ensures forall r :: 0 <= r < |col| ==> col[r] == rows[r][f]
  {
    seq(|rows|, r requires 0 <= r < |rows| => rows[r][f])
  }

  // ---------------------------------------------------------------------
  // The frame loop as a function

  /** The model returned exactly seven new tokens for every row. */
  predicate SevenEach(gen: seq<seq<Token>>, n: nat) {
    |gen| == n && forall r :: 0 <= r < |gen| ==> |gen[r]| == TokensPerStep
  }

  /** Each row extended by its entry of `col`: `torch.cat([prompt_ids, cb0], dim=1)`. */
  function WithColumn(p: seq<seq<Token>>, col: seq<Token>): (q: seq<seq<Token>>)
    requires |p| == |col|
    ensures |q| == |p|
    ensures forall r :: 0 <= r < |q| ==> q[r] == p[r] + [col[r]]
  {
    seq(|p|, r requires 0 <= r < |p| => p[r] + [col[r]])
  }

  /** Each row extended by the tokens the model generated for it. */
  function WithGenerated(q: seq<seq<Token>>, gen: seq<seq<Token>>): (out: seq<seq<Token>>)
    requires |gen| == |q|
    ensures |out| == |q|
    ensures forall r :: 0 <= r < |out| ==> out[r] == q[r] + gen[r]
  {
    seq(|q|, r requires 0 <= r < |q| => q[r] + gen[r])
  }

  /** One teacher-forced frame. */
  function ForceStep(model: Stage2Model, p: seq<seq<Token>>, col: seq<Token>): Result<seq<seq<Token>>>
    requires |p| == |col|
  {
    var q := WithColumn(p, col);
    var gen := model(q);
    if SevenEach(gen, |q|) then Ok(WithGenerated(q, gen)) else Err(TeacherForcingLength)
  }

  /** `prompt_ids` after the frames `0 .. k-1`. */
  function ForcedAfter(tk: Tokenizer, model: Stage2Model, rows: seq<seq<Token>>, k: nat): (res: Result<seq<seq<Token>>>)
    requires SameWidth(rows) && k <= |rows[0]|
    ensures res.Ok? ==> |res.value| == |rows|
    ensures res.Ok? ==> forall r :: 0 <= r < |rows| ==> |res.value[r]| == 3 + |rows[0]| + 8 * k
  {
    if k == 0 then Ok(PromptRows(tk, rows))
    else
      match ForcedAfter(tk, model, rows, k - 1)
      case Err(e) => Err(e)
      case Ok(p) => ForceStep(model, p, Column(rows, k - 1))
  }

  /** The part of each row after the first `n` tokens. */
  function Suffixes(p: seq<seq<Token>>, n: nat): (s: seq<seq<Token>>)
    requires forall r :: 0 <= r < |p| ==> n <= |p[r]|
    ensures |s| == |p|
    ensures forall r :: 0 <= r < |s| ==> s[r] == p[r][n..]
  {
    seq(|p|, r requires 0 <= r < |p| => p[r][n..])
  }

  /** Position `i` of `s` exists and holds `v`. */
  predicate HoldsAt(s: seq<Token>, i: int, v: Token) {
    0 <= i < |s| && s[i] == v
  }

  /** The rows concatenated in order. */
  function Flatten(xs: seq<seq<Token>>): seq<Token> {
    if |xs| == 0 then [] else Flatten(xs[..|xs| - 1]) + xs[|xs| - 1]
  }

  /** The output of `stage2_generate` for the stage-1 codes `prompt`. */
  function Generate(tk: Tokenizer, sc: Stage2Codec, model: Stage2Model, prompt: seq<int>, batchSize: int): Result<seq<Token>> {
    var rows := BatchRows(FrameTokens(sc, prompt), batchSize);
    if !SameWidth(rows) then Err(ShapeMismatch) else GenerateRows(tk, model, rows)
  }

  /** The output once the rows are formed: every frame forced, then the
      generated part of each row, rows in order. */
  function GenerateRows(tk: Tokenizer, model: Stage2Model, rows: seq<seq<Token>>): Result<seq<Token>>
    requires SameWidth(rows)
  {
    var width := |rows[0]|;
    match ForcedAfter(tk, model, rows, width)
    case Err(e) => Err(e)
    case Ok(p) => Ok(Flatten(Suffixes(p, 3 + width)))
  }

  // ---------------------------------------------------------------------
  // Properties

  /** The layout of row `r` after `k` frames: its prompt followed, per
      frame `j`, by the frame's ground-truth token and seven generated ones. */
  ghost predicate RowLayout(tk: Tokenizer, rows: seq<seq<Token>>, r: nat, row: seq<Token>, k: nat)
    requires SameWidth(rows) && r < |rows| && k <= |rows[0]|
  {
    var w := |rows[0]|;
    && |row| == 3 + w + 8 * k
    && row[..3 + w] == PromptRow(tk, rows[r])
    && forall j :: 0 <= j < k ==> row[3 + w + 8 * j] == rows[r][j]
  }

  /** The layout of all rows after `k` frames. */
  ghost predicate Layout(tk: Tokenizer, rows: seq<seq<Token>>, p: seq<seq<Token>>, k: nat)
    requires SameWidth(rows) && k <= |rows[0]|
  {
    |p| == |rows| && forall r :: 0 <= r < |p| ==> RowLayout(tk, rows, r, p[r], k)
  }

  /** Forcing frame `k-1` into a row laid out for `k-1` frames, and adding
      seven generated tokens, lays it out for `k` frames. */
  lemma RowLayoutStep(tk: Tokenizer, rows: seq<seq<Token>>, r: nat, row: seq<Token>, g: seq<Token>, k: nat)
    requires SameWidth(rows) && r < |rows| && 0 < k <= |rows[0]|
    requires RowLayout(tk, rows, r, row, k - 1) && |g| == TokensPerStep
    ensures RowLayout(tk, rows, r, row + [rows[r][k - 1]] + g, k)
  {
    var w := |rows[0]|;
    var row' := row + [rows[r][k - 1]] + g;
    assert row'[..|row|] == row;
    assert row'[..3 + w] == row[..3 + w];
    forall j | 0 <= j < k ensures row'[3 + w + 8 * j] == rows[r][j] {
      if j < k - 1 {
        assert row'[3 + w + 8 * j] == row[3 + w + 8 * j];
      }
    }
  }

  /** Every successful prefix of the loop has the stride-8 layout. */
  lemma {:induction false} ForcedLayout(tk: Tokenizer, model: Stage2Model, rows: seq<seq<Token>>, k: nat)
    requires SameWidth(rows) && k <= |rows[0]|
    requires ForcedAfter(tk, model, rows, k).Ok?
    ensures Layout(tk, rows, ForcedAfter(tk, model, rows, k).value, k)
  {
    var w := |rows[0]|;
    if k == 0 {
      var p := PromptRows(tk, rows);
      forall r | 0 <= r < |p|
        ensures RowLayout(tk, rows, r, p[r], 0)
      {
      }
    } else {
      ForcedLayout(tk, model, rows, k - 1);
      var p := ForcedAfter(tk, model, rows, k - 1).value;
      var col := Column(rows, k - 1);
      var q := WithColumn(p, col);
      var gen := model(q);
      var p' := WithGenerated(q, gen);
      assert ForcedAfter(tk, model, rows, k).value == p';
      forall r | 0 <= r < |p'|
        ensures RowLayout(tk, rows, r, p'[r], k)
      {
        assert p'[r] == p[r] + [col[r]] + gen[r];
        RowLayoutStep(tk, rows, r, p[r], gen[r], k);
      }
    }
  }

  /** The seven tokens after frame `j`'s ground-truth token in row `r` are
      the model's reply for that row when it was given the rows as they
      stood after the earlier frames, with frame `j`'s column appended;
      later frames never change them. */
  lemma {:induction false} ForcedGenerated(tk: Tokenizer, model: Stage2Model, rows: seq<seq<Token>>, k: nat, j: nat, r: nat)
    requires SameWidth(rows) && j < k <= |rows[0]| && r < |rows|
    requires ForcedAfter(tk, model, rows, k).Ok?
    ensures ForcedAfter(tk, model, rows, j).Ok?
    ensures var q := WithColumn(ForcedAfter(tk, model, rows, j).value, Column(rows, j));
            var at := 3 + |rows[0]| + 8 * j + 1;
            && |model(q)| == |rows| && |model(q)[r]| == TokensPerStep
            && ForcedAfter(tk, model, rows, k).value[r][at..at + TokensPerStep] == model(q)[r]
    decreases k
  {
    var w := |rows[0]|;
    var at := 3 + w + 8 * j + 1;
    var p := ForcedAfter(tk, model, rows, k - 1);
    assert p.Ok?;
    var col := Column(rows, k - 1);
    var q := WithColumn(p.value, col);
    var now := ForcedAfter(tk, model, rows, k).value;
    assert now == WithGenerated(q, model(q));
    assert now[r] == p.value[r] + [col[r]] + model(q)[r];
    if j == k - 1 {
      assert now[r][at..at + TokensPerStep] == model(q)[r];
    } else {
      ForcedGenerated(tk, model, rows, k - 1, j, r);
      assert now[r][..|p.value[r]|] == p.value[r];
      assert now[r][at..at + TokensPerStep] == p.value[r][at..at + TokensPerStep];
    }
  }

  lemma {:induction false} FlattenLength(xs: seq<seq<Token>>, n: nat)
    requires forall r :: 0 <= r < |xs| ==> |xs[r]| == n
    ensures |Flatten(xs)| == |xs| * n
  {
    if |xs| > 0 {
      FlattenLength(xs[..|xs| - 1], n);
      assert (|xs| - 1) * n + n == |xs| * n;
    }
  }

  /** Concatenating rows of one length `n`: row `r`, position `c` lands at `r*n + c`. */
  lemma {:induction false} FlattenAt(xs: seq<seq<Token>>, n: nat, r: nat, c: nat)
    requires forall i :: 0 <= i < |xs| ==> |xs[i]| == n
    requires r < |xs| && c < n
    ensures HoldsAt(Flatten(xs), r * n + c, xs[r][c])
  {
    var init := xs[..|xs| - 1];
    FlattenLength(xs, n);
    FlattenLength(init, n);
    assert Flatten(xs) == Flatten(init) + xs[|xs| - 1];
    if r < |xs| - 1 {
      FlattenAt(init, n, r, c);
    } else {
      assert r * n == |Flatten(init)|;
    }
  }

  /** The output of a successful call on rows of width `w`: `rows * 8w`
      tokens, where row `r`'s frame `j` sits at `r*8w + 8j`, followed by its
      seven generated tokens. */
  lemma RowsOutputLayout(tk: Tokenizer, model: Stage2Model, rows: seq<seq<Token>>)
    requires SameWidth(rows) && GenerateRows(tk, model, rows).Ok?
    ensures var w := |rows[0]|;
            var out := GenerateRows(tk, model, rows).value;
            && |out| == |rows| * (8 * w)
            && forall r, j :: 0 <= r < |rows| && 0 <= j < w ==> HoldsAt(out, r * (8 * w) + 8 * j, rows[r][j])
  {
    var w := |rows[0]|;
    var p := ForcedAfter(tk, model, rows, w).value;
    var s := Suffixes(p, 3 + w);
    FlattenLength(s, 8 * w);
    forall r, j | 0 <= r < |rows| && 0 <= j < w
      ensures HoldsAt(Flatten(s), r * (8 * w) + 8 * j, rows[r][j])
    {
      FrameInRow(tk, model, rows, r, j);
      FlattenAt(s, 8 * w, r, 8 * j);
    }
  }

  /** Frame `j` of row `r` opens the `j`-th group of eight in the row's generated part. */
  lemma FrameInRow(tk: Tokenizer, model: Stage2Model, rows: seq<seq<Token>>, r: nat, j: nat)
    requires SameWidth(rows) && ForcedAfter(tk, model, rows, |rows[0]|).Ok?
    requires r < |rows| && j < |rows[0]|
    ensures var w := |rows[0]|;
            var s := Suffixes(ForcedAfter(tk, model, rows, w).value, 3 + w);
            |s[r]| == 8 * w && s[r][8 * j] == rows[r][j]
  {
    var w := |rows[0]|;
    ForcedLayout(tk, model, rows, w);
  }

  /** With one row (batch size at most 1) frame `j` of the input is output
      token `8j`. */
  lemma SingleRowFrames(tk: Tokenizer, sc: Stage2Codec, model: Stage2Model, prompt: seq<int>, batchSize: int)
    requires batchSize <= 1 && Generate(tk, sc, model, prompt, batchSize).Ok?
    ensures var out := Generate(tk, sc, model, prompt, batchSize).value;
            && |out| == 8 * |prompt|
            && forall j :: 0 <= j < |prompt| ==> HoldsAt(out, 8 * j, sc.frameToken(prompt[j]))
  {
    var codes := FrameTokens(sc, prompt);
    var rows := BatchRows(codes, batchSize);
    assert rows == [codes];
    RowsOutputLayout(tk, model, rows);
    forall j | 0 <= j < |prompt|
      ensures HoldsAt(Generate(tk, sc, model, prompt, batchSize).value, 8 * j, sc.frameToken(prompt[j]))
    {
      assert 0 * (8 * |codes|) + 8 * j == 8 * j;
    }
  }

  /** With several rows over an input of at least `batch_size * 300`
      frames, frame `j` of row `r` is input frame `r*300 + j`, at output
      position `r*2400 + 8j`. */
  lemma BatchFrames(tk: Tokenizer, sc: Stage2Codec, model: Stage2Model, prompt: seq<int>, batchSize: int)
    requires batchSize > 1 && |prompt| >= batchSize * ChunkFrames
    requires Generate(tk, sc, model, prompt, batchSize).Ok?
    ensures var out := Generate(tk, sc, model, prompt, batchSize).value;
            && |out| == batchSize * (8 * ChunkFrames)
            && forall r, j :: 0 <= r < batchSize && 0 <= j < ChunkFrames ==>
                 r * ChunkFrames + j < |prompt|
                 && HoldsAt(out, r * (8 * ChunkFrames) + 8 * j, sc.frameToken(prompt[r * ChunkFrames + j]))
  {
    var codes := FrameTokens(sc, prompt);
    var rows := BatchRows(codes, batchSize);
    BatchRowAt(codes, batchSize, 0, 0);
    RowsOutputLayout(tk, model, rows);
    var out := Generate(tk, sc, model, prompt, batchSize).value;
    forall r, j | 0 <= r < batchSize && 0 <= j < ChunkFrames
      ensures r * ChunkFrames + j < |prompt|
              && HoldsAt(out, r * (8 * ChunkFrames) + 8 * j, sc.frameToken(prompt[r * ChunkFrames + j]))
    {
      BatchRowAt(codes, batchSize, r, j);
      assert HoldsAt(out, r * (8 * |rows[0]|) + 8 * j, rows[r][j]);
    }
  }

  /** Row `r` of a full batch holds frames `r*300 .. r*300 + 299`. */
  lemma BatchRowAt(codes: seq<Token>, batchSize: int, r: nat, j: nat)
    requires batchSize > 1 && |codes| >= batchSize * ChunkFrames
    requires r < batchSize && j < ChunkFrames
    ensures var rows := BatchRows(codes, batchSize);
            && |rows[r]| == ChunkFrames
            && r * ChunkFrames + j < |codes|
            && rows[r][j] == codes[r * ChunkFrames + j]
  {
    assert (r + 1) * ChunkFrames <= batchSize * ChunkFrames;
    assert BatchRows(codes, batchSize)[r] == codes[r * ChunkFrames..(r + 1) * ChunkFrames];
  }

  /** A wrong number of generated tokens for any row stops the loop. */
  lemma ForceStepFails(model: Stage2Model, p: seq<seq<Token>>, col: seq<Token>)
    requires |p| == |col|
    ensures ForceStep(model, p, col).Err? <==> !SevenEach(model(WithColumn(p, col)), |p|)
  {
  }

  /** One more frame after a successful prefix. */
  lemma ForcedAfterNext(tk: Tokenizer, model: Stage2Model, rows: seq<seq<Token>>, f: nat, p: seq<seq<Token>>)
    requires SameWidth(rows) && f < |rows[0]| && ForcedAfter(tk, model, rows, f) == Ok(p)
    ensures |p| == |rows|
    ensures ForcedAfter(tk, model, rows, f + 1) == ForceStep(model, p, Column(rows, f))
  {
  }

  /** A failed frame ends the loop: later prefixes keep the failure. */
  lemma {:induction false} ForcedFailureSticks(tk: Tokenizer, model: Stage2Model, rows: seq<seq<Token>>, k: nat, k': nat)
    requires SameWidth(rows) && k <= k' <= |rows[0]|
    requires ForcedAfter(tk, model, rows, k).Err?
    ensures ForcedAfter(tk, model, rows, k') == ForcedAfter(tk, model, rows, k)
    decreases k' - k
  {
    if k < k' {
      ForcedFailureSticks(tk, model, rows, k, k' - 1);
    }
  }

  // ---------------------------------------------------------------------
  // The loop

  /** `stage2_generate(model, prompt, batch_size)`. */
  method Stage2Generate(tk: Tokenizer, sc: Stage2Codec, model: Stage2Model, prompt: seq<int>, batchSize: int)
    returns (res: Result<seq<Token>>)
    ensures res == Generate(tk, sc, model, prompt, batchSize)
  {
    var codes := FrameTokens(sc, prompt);
    var rows: seq<seq<Token>>;
    if batchSize > 1 {
      rows := CutRows(codes, batchSize);
      if !SameWidth(rows) {
        return Err(ShapeMismatch);
      }
    } else {
      rows := [codes];
    }
    var p := ForceFrames(tk, model, rows);
    match p
    case Err(e) =>
      res := Err(e);
    case Ok(v) =>
      res := Ok(Flatten(Suffixes(v, 3 + |rows[0]|)));
  }

  /** The `codec_list` loop: `batch_size` slices of 300 frames. */
  method CutRows(codes: seq<Token>, batchSize: int) returns (rows: seq<seq<Token>>)
    requires batchSize > 1
    ensures rows == BatchRows(codes, batchSize)
  {
    rows := [];
    var i := 0;
    while i < batchSize
      invariant 0 <= i <= batchSize
      invariant |rows| == i
      invariant forall r :: 0 <= r < i ==> rows[r] == BatchRow(codes, r)
    {
      rows := rows + [BatchRow(codes, i)];
      i := i + 1;
    }
  }

  /** The frame loop: one forced frame per column of the rows. */
  method ForceFrames(tk: Tokenizer, model: Stage2Model, rows: seq<seq<Token>>) returns (res: Result<seq<seq<Token>>>)
    requires SameWidth(rows)
    ensures res == ForcedAfter(tk, model, rows, |rows[0]|)
  {
    var width := |rows[0]|;
    var p := PromptRows(tk, rows);
    var f := 0;
    while f < width
      invariant f <= width
      invariant ForcedAfter(tk, model, rows, f) == Ok(p)
    {
      var next := ForceFrame(model, p, Column(rows, f));
      ForcedAfterNext(tk, model, rows, f, p);
      if next.Err? {
        ForcedFailureSticks(tk, model, rows, f + 1, width);
        return next;
      }
      p := next.value;
      f := f + 1;
    }
    res := Ok(p);
  }

  /** The body of the frame loop: append the column, generate, check the
      count of new tokens. */
  method ForceFrame(model: Stage2Model, p: seq<seq<Token>>, col: seq<Token>) returns (next: Result<seq<seq<Token>>>)
    requires |p| == |col|
    ensures next == ForceStep(model, p, col)
  {
    var q := WithColumn(p, col);
    var gen := model(q);
    if !SevenEach(gen, |q|) {
      return Err(TeacherForcingLength);
    }
    next := Ok(WithGenerated(q, gen));
  }
}
