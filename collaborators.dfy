/** The collaborators the driver calls but whose code is not part of this
    model: the multimodal tokenizer, the codec manipulators and the two
    language models. Each is a value of function type (or a constant) that
    the operations receive as a parameter, so nothing is assumed about it
    beyond its type and what the operations state explicitly. */
module Collaborators {

  /** A vocabulary id of the language models. */
  type Token = int

  /** The multimodal tokenizer: its text tokenizer and its sentinel ids. */
  datatype Tokenizer = Tokenizer(
    tokenize: string -> seq<Token>,
    soa: Token,      // start of audio
    eoa: Token,      // end of audio
    stage1: Token,   // marker opening the stage-1 codes of a stage-2 prompt
    stage2: Token)   // marker opening the stage-2 continuation

  /** The stage-1 codec manipulator (one codebook): the codebook separator
      ids and the conversion from token ids back to codec indices. */
  datatype Codec = Codec(sepIds: seq<Token>, idsToCodes: seq<Token> -> seq<int>)

  /** Every row is as long as the first: the rows of a 2-D `numpy` array. */
  predicate Rectangular(g: seq<seq<int>>) {
    forall i :: 0 <= i < |g| ==> |g[i]| == |g[0]|
  }

  /** A 2-D array of codec indices, one row per codebook. */
  type Grid = g: seq<seq<int>> | Rectangular(g) witness []

  /** The stage-2 side: the per-frame conversion of a stage-1 codec index
      into a stage-2 token (unflatten with one quantizer, then the vocabulary
      offset), and the stage-2 manipulator's conversion of the generated
      tokens into a codec array (`ids2npy`). */
  datatype Stage2Codec = Stage2Codec(frameToken: int -> Token, idsToCodes: seq<Token> -> Grid)

  /** The stage-1 model's `generate`: given the decode's segment index and
      the context, the tokens it samples after the context. (Sampling is
      random, so the answer may differ between segments.) */
  type Stage1Model = (nat, seq<Token>) -> seq<Token>

  /** The stage-2 model's greedy `generate` on a batch: for each row of the
      prompt, the tokens it appends to that row. */
  type Stage2Model = seq<seq<Token>> -> seq<seq<Token>>

  /** Context length of the stage-1 model. */
  const ContextLength: int := 16384

  /** Token the stage-1 model may emit right after start-of-audio; it is
      dropped from each audio span. */
  const SpanMarker: Token := 32016

  /** Codec frames per second of audio. */
  const FrameRate: nat := 50

  /** Stage 2 processes whole chunks of this many seconds ... */
  const ChunkSeconds: nat := 6

  /** ... that is, of this many frames. */
  const ChunkFrames: nat := 300

  /** Tokens the stage-2 model must produce per teacher-forced frame. */
  const TokensPerStep: nat := 7

  /** Largest valid codec index (the codebook holds 1024 codes). */
  const MaxCode: int := 1023
}
