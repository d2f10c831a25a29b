/** The stage-1 segment loop: one decode per lyric section, each fed the
    whole history so far plus the section's prompt, cut to the model's
    context window, with the decoded tokens appended to an ever-growing
    raw output. */
module Stage1 {
  import opened Outcomes
  import opened Slicing
  import opened Lyrics
  import opened Collaborators

  /** The optional reference audio: its codec token ids and the frame window
      `[startFrame, endFrame)` (the prompt times multiplied by the frame
      rate and truncated to integers). */
  datatype AudioPrompt = AudioPrompt(codeIds: seq<Token>, startFrame: int, endFrame: int)

  /** Everything one stage-1 run depends on. `prompts` are the prompt texts:
      the instruction followed by one text per lyric section. */
  datatype Run = Run(
    tk: Tokenizer,
    sepIds: seq<Token>,
    model: Stage1Model,
    prompts: seq<string>,
    maxNewTokens: int,
    audio: Option<AudioPrompt>)

  // ---------------------------------------------------------------------
  // Prompt texts

  /** `"\n".join(xs)`. */
  function JoinLines(xs: seq<string>): (r: string)
    ensures |xs| == 1 ==> r == xs[0]
  {
    if |xs| == 0 then "" else if |xs| == 1 then xs[0] else xs[0] + "\n" + JoinLines(xs[1..])
  }

  /** The global instruction: genre tags and all lyric sections. */
  function Instruction(genres: string, lyrics: seq<string>): string {
    "Generate music from the given lyrics segment by segment.\n[Genre] " + genres + "\n" + JoinLines(lyrics)
  }

  /** The prompt texts: the instruction at index 0, then section `i` at index `i`. */
  function PromptTexts(genres: string, lyrics: seq<string>): (ps: seq<string>)
    ensures |ps| == |lyrics| + 1
    ensures ps[0] == Instruction(genres, lyrics) && ps[1..] == lyrics
  {
    [Instruction(genres, lyrics)] + lyrics
  }

  /** How many prompt texts the loop enumerates:
      `len(prompt_texts[:min(run_n_segments + 1, len(lyrics))])`. */
  function SegmentsRun(runNSegments: int, numLyrics: nat): (n: nat)
    ensures n == Bound(if runNSegments + 1 < numLyrics then runNSegments + 1 else numLyrics, numLyrics + 1)
  {
    var k := if runNSegments + 1 < numLyrics then runNSegments + 1 else numLyrics;
    |Slice(seq(numLyrics + 1, _ => 0), 0, k)|
  }

  /** The section text with the two segment literals removed. */
  function SectionText(p: string): string {
    RemoveAll(RemoveAll(p, "[start_of_segment]"), "[end_of_segment]")
  }

  // ---------------------------------------------------------------------
  // Token prompts

  /** The head of the first prompt: the tokenized instruction, followed, when
      an audio prompt is used, by the reference section
      `[start_of_reference] soa sep codes eoa [end_of_reference]`. */
  function Head(r: Run): seq<Token>
    requires |r.prompts| > 0
  {
    var instruction := r.tk.tokenize(r.prompts[0]);
    match r.audio
    case None => instruction
    case Some(a) =>
      var codes := Slice(a.codeIds, a.startFrame, a.endFrame);
      instruction
      + (r.tk.tokenize("[start_of_reference]")
         + ([r.tk.soa] + r.sepIds + codes + [r.tk.eoa])
         + r.tk.tokenize("[end_of_reference]"))
  }

  /** The prompt of segment `i`. */
  function PromptIds(r: Run, i: nat): seq<Token>
    requires 1 <= i < |r.prompts|
  {
    var text := r.tk.tokenize(SectionText(r.prompts[i]));
    if i == 1 then Head(r) + r.tk.tokenize("[start_of_segment]") + text + [r.tk.soa] + r.sepIds
    else r.tk.tokenize("[end_of_segment]") + r.tk.tokenize("[start_of_segment]") + text + [r.tk.soa] + r.sepIds
  }

  // ---------------------------------------------------------------------
  // Context window

  function MaxContext(maxNewTokens: int): int {
    ContextLength - maxNewTokens - 1
  }

  /** `input[-maxContext:]` when the input is longer than `maxContext`. */
  function Truncate(input: seq<Token>, maxContext: int): seq<Token> {
    if |input| > maxContext then SliceFrom(input, -maxContext) else input
  }

  /** With a positive window, a long input becomes exactly its last
      `maxContext` tokens and a short one is left alone. */
  lemma TruncateKeepsSuffix(input: seq<Token>, maxContext: int)
    requires maxContext >= 1
    ensures |input| > maxContext ==>
      |Truncate(input, maxContext)| == maxContext
      && Truncate(input, maxContext) == input[|input| - maxContext..]
    ensures |input| <= maxContext ==> Truncate(input, maxContext) == input
    ensures |Truncate(input, maxContext)| <= maxContext
  {
  }

  /** With `max_new_tokens = 16383` the window is 0 and `[-0:]` keeps everything. */
  lemma TruncateZeroKeepsAll(input: seq<Token>)
    ensures MaxContext(16383) == 0
    ensures Truncate(input, MaxContext(16383)) == input
  {
  }

  /** With a negative window (`max_new_tokens > 16383`) the slice `[k:]`,
      `k = -maxContext > 0`, drops the FIRST `k` tokens instead. */
  lemma TruncateNegativeDropsPrefix(input: seq<Token>, maxContext: int)
    requires maxContext < 0
    ensures Truncate(input, maxContext) ==
      input[(if -maxContext < |input| then -maxContext else |input|)..]
  {
  }

  // ---------------------------------------------------------------------
  // The loop as a function of the iteration count

  /** The decoding loop over already tokenized prompts: `prompts[i]` is the
      prompt of segment `i` (entry 0, the instruction, is never decoded). */
  datatype Decoder = Decoder(eoa: Token, model: Stage1Model, prompts: seq<seq<Token>>, maxContext: int)

  /** The token prompts of a run. */
  function TokenPrompts(r: Run): (ps: seq<seq<Token>>)
    ensures |ps| == |r.prompts|
    ensures forall i :: 1 <= i < |ps| ==> ps[i] == PromptIds(r, i)
  {
    seq(|r.prompts|, i requires 0 <= i < |r.prompts| => if i == 0 then [] else PromptIds(r, i))
  }

  function DecoderOf(r: Run): (d: Decoder)
    ensures |d.prompts| == |r.prompts|
  {
    Decoder(r.tk.eoa, r.model, TokenPrompts(r), MaxContext(r.maxNewTokens))
  }

  /** The context fed to the model for segment `i` given the raw output so far. */
  function ModelInput(d: Decoder, i: nat, raw: Option<seq<Token>>): seq<Token>
    requires 1 <= i < |d.prompts|
  {
    var prompt := d.prompts[i];
    var full := if i == 1 then prompt else if raw.Some? then raw.value + prompt else prompt;
    Truncate(full, d.maxContext)
  }

  /** `output_seq`: the model's continuation of `input`, closed with an
      end-of-audio token when it does not already end with one. */
  function DecodeOutput(d: Decoder, i: nat, input: seq<Token>): Result<seq<Token>> {
    var out := input + d.model(i, input);
    if |out| == 0 then Err(EmptySequenceIndex)
    else if out[|out| - 1] != d.eoa then Ok(out + [d.eoa])
    else Ok(out)
  }

  /** One decode: the raw output after segment `i`. */
  function Step(d: Decoder, i: nat, raw: Option<seq<Token>>): Result<Option<seq<Token>>>
    requires 1 <= i < |d.prompts|
  {
    var input := ModelInput(d, i, raw);
    match DecodeOutput(d, i, input)
    case Err(e) => Err(e)
    case Ok(out) =>
      if raw.Some? then Ok(Some(raw.value + d.prompts[i] + out[|input|..]))
      else Ok(Some(out))
  }

  /** Iteration `i` after the previous ones ended with `acc`: a failure
      propagates, otherwise segment `i` is decoded. */
  function Continue(d: Decoder, i: nat, acc: Result<Option<seq<Token>>>): Result<Option<seq<Token>>>
    requires 1 <= i < |d.prompts|
  {
    match acc
    case Err(e) => Err(e)
    case Ok(raw) => Step(d, i, raw)
  }

  /** `raw_output` after the iterations `0 .. k-1` of the loop. */
  function RawAfter(d: Decoder, k: nat): Result<Option<seq<Token>>>
    requires k <= |d.prompts|
  {
    if k <= 1 then Ok(None) else Continue(d, k - 1, RawAfter(d, k - 1))
  }

  /** The raw output stage 1 hands to extraction, or the failure. */
  function Stage1Output(d: Decoder, n: nat): Result<seq<Token>>
    requires n <= |d.prompts|
  {
    match RawAfter(d, n)
    case Err(e) => Err(e)
    case Ok(None) => Err(NoDecodedOutput)
    case Ok(Some(v)) => Ok(v)
  }

  /** A failure ends the loop: later iterations keep it. */
  lemma {:induction false} RawAfterFailureSticks(d: Decoder, k: nat, k': nat)
    requires k <= k' <= |d.prompts|
    requires RawAfter(d, k).Err?
    ensures RawAfter(d, k') == RawAfter(d, k)
    decreases k' - k
  {
    if k < k' {
      RawAfterFailureSticks(d, k, k' - 1);
    }
  }

  // ---------------------------------------------------------------------
  // Properties of the loop

  /** Which prompts are decoded: indices `1 .. n-1` with
      `n = min(run_n_segments + 1, len(lyrics))` for a non-negative request.
      Since `n <= len(lyrics)`, the prompt of the LAST lyric section (index
      `len(lyrics)`) is never decoded. */
  lemma DecodedPrompts(runNSegments: int, numLyrics: nat)
    ensures SegmentsRun(runNSegments, numLyrics) <= numLyrics
    ensures runNSegments >= -1 ==>
      SegmentsRun(runNSegments, numLyrics) == if runNSegments + 1 < numLyrics then runNSegments + 1 else numLyrics
    ensures runNSegments < -1 ==>
      SegmentsRun(runNSegments, numLyrics) == if numLyrics + runNSegments + 2 < 0 then 0 else numLyrics + runNSegments + 2
  {
  }

  /** With at most one prompt enumerated nothing is decoded, and the
      extraction that follows fails on the missing raw output. */
  lemma NothingDecoded(d: Decoder, n: nat)
    requires n <= 1 && n <= |d.prompts|
    ensures Stage1Output(d, n) == Err(NoDecodedOutput)
  {
  }

  /** Lyrics with fewer than two sections make stage 1 fail. */
  lemma FewerThanTwoSectionsFail(tk: Tokenizer, sepIds: seq<Token>, model: Stage1Model,
                                 genreText: string, lyricsText: string, runNSegments: int,
                                 maxNewTokens: int, audio: Option<AudioPrompt>)
    requires |SplitLyrics(lyricsText)| <= 1
    ensures var r := MakeRun(tk, sepIds, model, genreText, lyricsText, maxNewTokens, audio);
            Stage1Output(DecoderOf(r), SegmentsRun(runNSegments, |SplitLyrics(lyricsText)|)) == Err(NoDecodedOutput)
  {
    var r := MakeRun(tk, sepIds, model, genreText, lyricsText, maxNewTokens, audio);
    DecodedPrompts(runNSegments, |SplitLyrics(lyricsText)|);
    NothingDecoded(DecoderOf(r), SegmentsRun(runNSegments, |SplitLyrics(lyricsText)|));
  }

  /** Two lyric sections with the default `run_n_segments = 2` give ONE
      decode: only segment 1; the second section is not decoded. */
  lemma TwoSectionsOneDecode(d: Decoder)
    requires |d.prompts| == 3
    ensures SegmentsRun(2, 2) == 2
    ensures RawAfter(d, SegmentsRun(2, 2)) == Step(d, 1, None)
  {
  }

  /** Every prompt is non-empty and does not end with end-of-audio. */
  ghost predicate PromptsEndOpen(d: Decoder) {
    forall i :: 1 <= i < |d.prompts| ==> |d.prompts[i]| > 0 && d.prompts[i][|d.prompts[i]| - 1] != d.eoa
  }

  /** Every prompt ends with `[soa] + sep_ids`, so with start- and
      end-of-audio distinct and no end-of-audio among the separator ids, no
      prompt ends with end-of-audio. */
  lemma PromptsOfRunEndOpen(r: Run)
    requires r.tk.soa != r.tk.eoa && r.tk.eoa !in r.sepIds
    ensures PromptsEndOpen(DecoderOf(r))
  {
    var d := DecoderOf(r);
    forall i | 1 <= i < |d.prompts|
      ensures |d.prompts[i]| > 0 && d.prompts[i][|d.prompts[i]| - 1] != d.eoa
    {
      PromptEndsOpen(r, i);
    }
  }

  lemma PromptEndsOpen(r: Run, i: nat)
    requires 1 <= i < |r.prompts| && r.tk.soa != r.tk.eoa && r.tk.eoa !in r.sepIds
    ensures var p := PromptIds(r, i);
            |p| > 0 && p[|p| - 1] != r.tk.eoa
  {
    var tail := [r.tk.soa] + r.sepIds;
    var text := r.tk.tokenize(SectionText(r.prompts[i]));
    var front := if i == 1 then Head(r) + r.tk.tokenize("[start_of_segment]") + text
                 else r.tk.tokenize("[end_of_segment]") + r.tk.tokenize("[start_of_segment]") + text;
    assert PromptIds(r, i) == front + tail;
    var p := front + tail;
    assert p[|p| - 1] == tail[|tail| - 1];
    if |r.sepIds| > 0 {
      assert tail[|tail| - 1] == r.sepIds[|r.sepIds| - 1];
    }
  }

  /** The tokens a decode appends to the context: the model's new tokens,
      followed by an end-of-audio token unless they already end with one. */
  function Closed(d: Decoder, gen: seq<Token>): seq<Token> {
    if |gen| > 0 && gen[|gen| - 1] == d.eoa then gen else gen + [d.eoa]
  }

  /** Decoding after a non-empty input that does not end with end-of-audio
      yields the input followed by the closed new tokens. */
  lemma DecodeCloses(d: Decoder, i: nat, input: seq<Token>)
    requires |input| > 0 && input[|input| - 1] != d.eoa
    ensures DecodeOutput(d, i, input) == Ok(input + Closed(d, d.model(i, input)))
  {
    var gen := d.model(i, input);
    var out := input + gen;
    if |gen| > 0 {
      assert out[|out| - 1] == gen[|gen| - 1];
      if gen[|gen| - 1] == d.eoa {
        assert Closed(d, gen) == gen;
      } else {
        assert Closed(d, gen) == gen + [d.eoa];
        assert input + Closed(d, gen) == out + [d.eoa];
      }
    } else {
      assert out == input;
      assert Closed(d, gen) == [d.eoa];
      assert input + Closed(d, gen) == out + [d.eoa];
    }
  }

  /** The model sees at most `maxContext` tokens: a suffix of the full
      context that keeps the whole current prompt when the prompt itself fits. */
  lemma ModelInputFits(d: Decoder, i: nat, raw: Option<seq<Token>>)
    requires 1 <= i < |d.prompts| && d.maxContext >= 1
    ensures var full := if i == 1 || raw.None? then d.prompts[i] else raw.value + d.prompts[i];
            var input := ModelInput(d, i, raw);
            && |input| <= d.maxContext
            && input == full[|full| - |input|..]
            && (|d.prompts[i]| <= |input| ==> input[|input| - |d.prompts[i]|..] == d.prompts[i])
  {
    var full := if i == 1 || raw.None? then d.prompts[i] else raw.value + d.prompts[i];
    TruncateKeepsSuffix(full, d.maxContext);
    if i != 1 && raw.Some? {
      var input := ModelInput(d, i, raw);
      if |d.prompts[i]| <= |input| {
        assert full[|full| - |d.prompts[i]|..] == d.prompts[i];
      }
    }
  }

  /** The model's input is always a suffix of the full context, and with a
      window of at least 0 a non-empty context gives a non-empty input. */
  lemma TruncateIsSuffix(input: seq<Token>, maxContext: int)
    ensures var t := Truncate(input, maxContext);
            |t| <= |input| && t == input[|input| - |t|..]
    ensures maxContext >= 0 && |input| > 0 ==> |Truncate(input, maxContext)| > 0
  {
  }

  /** A successful decode starts with its input and ends with end-of-audio. */
  lemma DecodeOutputShape(d: Decoder, i: nat, input: seq<Token>)
    requires DecodeOutput(d, i, input).Ok?
    ensures var out := DecodeOutput(d, i, input).value;
            && |input| <= |out| && out[..|input|] == input
            && |out| > 0 && out[|out| - 1] == d.eoa
  {
  }

  /** A decode past the first extends the previous raw output and ends with
      end-of-audio, whatever the window and the prompts. */
  lemma LaterStepExtends(d: Decoder, i: nat, u: seq<Token>, w: seq<Token>)
    requires 2 <= i < |d.prompts| && Step(d, i, Some(u)) == Ok(Some(w))
    ensures |u| <= |w| && w[..|u|] == u
    ensures |w| > 0 && w[|w| - 1] == d.eoa
  {
    var full := u + d.prompts[i];
    var input := ModelInput(d, i, Some(u));
    TruncateIsSuffix(full, d.maxContext);
    DecodeOutputShape(d, i, input);
    var out := DecodeOutput(d, i, input).value;
    var added := out[|input|..];
    assert w == full + added;
    assert w[..|u|] == u;
    if |added| == 0 {
      assert out == input;
      assert full[|full| - 1] == input[|input| - 1];
    } else {
      assert w[|w| - 1] == added[|added| - 1] == out[|out| - 1];
    }
  }

  /** The first decode: the raw output is the (possibly cut) first prompt
      followed by the closed new tokens. A window of 0 keeps the whole prompt. */
  lemma FirstDecode(d: Decoder)
    requires 2 <= |d.prompts| && PromptsEndOpen(d) && d.maxContext >= 0
    ensures var input := Truncate(d.prompts[1], d.maxContext);
            RawAfter(d, 2) == Ok(Some(input + Closed(d, d.model(1, input))))
  {
    var input := Truncate(d.prompts[1], d.maxContext);
    TruncateIsSuffix(d.prompts[1], d.maxContext);
    assert input[|input| - 1] == d.prompts[1][|d.prompts[1]| - 1];
    DecodeCloses(d, 1, input);
    assert RawAfter(d, 2) == Step(d, 1, None);
  }

  /** A later decode only APPENDS: the previous raw output, then the
      segment's full prompt, then the closed new tokens. History is never cut,
      only the model's input is. */
  lemma LaterDecodeAppends(d: Decoder, k: nat, v: seq<Token>)
    requires 2 <= k < |d.prompts| && PromptsEndOpen(d) && d.maxContext >= 0
    requires RawAfter(d, k) == Ok(Some(v))
    ensures var input := ModelInput(d, k, Some(v));
            RawAfter(d, k + 1) == Ok(Some(v + d.prompts[k] + Closed(d, d.model(k, input))))
  {
    var input := ModelInput(d, k, Some(v));
    var full := v + d.prompts[k];
    TruncateIsSuffix(full, d.maxContext);
    assert input[|input| - 1] == full[|full| - 1] == d.prompts[k][|d.prompts[k]| - 1];
    DecodeCloses(d, k, input);
    var out := input + Closed(d, d.model(k, input));
    assert out[|input|..] == Closed(d, d.model(k, input));
    assert RawAfter(d, k + 1) == Step(d, k, Some(v));
  }

  /** After any decode the raw output ends with end-of-audio. */
  lemma {:induction false} RawEndsWithEoa(d: Decoder, k: nat, v: seq<Token>)
    requires k <= |d.prompts| && RawAfter(d, k) == Ok(Some(v))
    ensures |v| > 0 && v[|v| - 1] == d.eoa
  {
    assert k >= 2;
    match RawAfter(d, k - 1)
    case Err(_) =>
      assert false;
    case Ok(None) =>
      DecodeOutputShape(d, k - 1, ModelInput(d, k - 1, None));
    case Ok(Some(u)) =>
      assert k - 1 >= 2;
      LaterStepExtends(d, k - 1, u, v);
  }

  /** The raw outputs of successive iterations extend one another. */
  lemma {:induction false} RawOutputGrows(d: Decoder, k: nat, k': nat, v: seq<Token>, w: seq<Token>)
    requires k <= k' <= |d.prompts|
    requires RawAfter(d, k) == Ok(Some(v)) && RawAfter(d, k') == Ok(Some(w))
    ensures |v| <= |w| && w[..|v|] == v
    decreases k' - k
  {
    if k < k' {
      assert k >= 2;
      RawStep(d, k', w);
      var u := RawAfter(d, k' - 1).value.value;
      RawOutputGrows(d, k, k' - 1, v, u);
      assert w[..|v|] == w[..|u|][..|v|];
    }
  }

  /** The raw output after a decode past the first extends the one before. */
  lemma RawStep(d: Decoder, k: nat, w: seq<Token>)
    requires 3 <= k <= |d.prompts| && RawAfter(d, k) == Ok(Some(w))
    ensures RawAfter(d, k - 1).Ok? && RawAfter(d, k - 1).value.Some?
    ensures var u := RawAfter(d, k - 1).value.value;
            |u| <= |w| && w[..|u|] == u
  {
    assert RawAfter(d, k - 1) == Continue(d, k - 2, RawAfter(d, k - 2));
    var u := RawAfter(d, k - 1).value.value;
    LaterStepExtends(d, k - 1, u, w);
  }

  /** The raw output after one more decode; after a failure it is the
      loop's outcome. */
  lemma NextRaw(d: Decoder, i: nat, n: nat, raw: Option<seq<Token>>, next: Result<Option<seq<Token>>>)
    requires 1 <= i < n <= |d.prompts| && RawAfter(d, i) == Ok(raw) && next == Step(d, i, raw)
    ensures RawAfter(d, i + 1) == next
    ensures next.Err? ==> Stage1Output(d, n) == Err(next.error)
  {
    if next.Err? {
      RawAfterFailureSticks(d, i + 1, n);
    }
  }

  /** The run described by the raw inputs of `main`. */
  function MakeRun(tk: Tokenizer, sepIds: seq<Token>, model: Stage1Model, genreText: string,
                   lyricsText: string, maxNewTokens: int, audio: Option<AudioPrompt>): Run
  {
    Run(tk, sepIds, model, PromptTexts(Strip(genreText), SplitLyrics(lyricsText)), maxNewTokens, audio)
  }

  // ---------------------------------------------------------------------
  // The loop

  /** The stage-1 part of `main`: split the lyrics, build the prompt texts
      and run the segment loop over the first `n` of them. */
  method GenerateStage1(tk: Tokenizer, sepIds: seq<Token>, model: Stage1Model,
                        genreText: string, lyricsText: string, runNSegments: int,
                        maxNewTokens: int, audio: Option<AudioPrompt>)
    returns (res: Result<seq<Token>>)
    ensures var r := MakeRun(tk, sepIds, model, genreText, lyricsText, maxNewTokens, audio);
            res == Stage1Output(DecoderOf(r), SegmentsRun(runNSegments, |SplitLyrics(lyricsText)|))
  {
    var lyrics := SplitLyrics(lyricsText);
    var prompts := PromptTexts(Strip(genreText), lyrics);
    var n := SegmentsRun(runNSegments, |lyrics|);
    var d := DecoderOf(Run(tk, sepIds, model, prompts, maxNewTokens, audio));
    res := DecodeSegments(d, n);
  }

  /** The segment loop: `for i, p in enumerate(prompt_texts[:n])`; index 0
      (the instruction) is skipped and every later index is decoded. */
  method DecodeSegments(d: Decoder, n: nat) returns (res: Result<seq<Token>>)
    requires n <= |d.prompts|
    ensures res == Stage1Output(d, n)
  {
    var raw: Option<seq<Token>> := None;
    var i := 0;
    while i < n
      invariant i <= n
      invariant RawAfter(d, i) == Ok(raw)
    {
      if i == 0 {
        i := i + 1;
        continue;
      }
      var next := DecodeSegment(d, i, raw);
      NextRaw(d, i, n, raw, next);
      if next.Err? {
        return Err(next.error);
      }
      raw := next.value;
      i := i + 1;
    }
    if raw.None? {
      return Err(NoDecodedOutput);
    }
    return Ok(raw.value);
  }

  /** The loop body for segment `i >= 1`: join the prompt `d.prompts[i]` to
      the history, cut the context to the window, decode, close with
      end-of-audio and extend the raw output. */
  method DecodeSegment(d: Decoder, i: nat, raw: Option<seq<Token>>)
    returns (next: Result<Option<seq<Token>>>)
    requires 1 <= i < |d.prompts|
    ensures next == Step(d, i, raw)
  {
    var input := CutContext(d, i, raw);
    var decoded := Decode(d, i, input);
    if decoded.Err? {
      return Err(decoded.error);
    }
    var output := decoded.value;
    if raw.Some? {
      next := Ok(Some(raw.value + d.prompts[i] + output[|input|..]));
    } else {
      next := Ok(Some(output));
    }
  }

  /** The model's input: the prompt, after the history from the second
      segment on, cut to the last `maxContext` tokens. */
  method CutContext(d: Decoder, i: nat, raw: Option<seq<Token>>) returns (input: seq<Token>)
    requires 1 <= i < |d.prompts|
    ensures input == ModelInput(d, i, raw)
  {
    var promptIds := d.prompts[i];
    if i == 1 {
      input := promptIds;
    } else if raw.Some? {
      input := raw.value + promptIds;
    } else {
      input := promptIds;
    }
    if |input| > d.maxContext {
      input := SliceFrom(input, -d.maxContext);
    }
  }

  /** `model.generate`, then the end-of-audio fix-up of `output_seq`. */
  method Decode(d: Decoder, i: nat, input: seq<Token>) returns (res: Result<seq<Token>>)
    ensures res == DecodeOutput(d, i, input)
  {
    var output := input + d.model(i, input);
    if |output| == 0 {
      return Err(EmptySequenceIndex);
    }
    if output[|output| - 1] != d.eoa {
      output := output + [d.eoa];
    }
    res := Ok(output);
  }
}
