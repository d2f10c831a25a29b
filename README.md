# YuE inference driver, modelled in Dafny

This project models the orchestration logic of `inference/infer.py`, the
command-line driver of the YuE text-to-music system. The driver runs two
language models in sequence.

- **Stage 1.** It splits the lyrics into labelled sections. For each section
  it builds a token prompt, cuts the accumulated context to the model's
  window, decodes, and appends the result to a growing raw output. It then
  finds the start-of-audio / end-of-audio spans of that output and
  de-interleaves each span into a vocal and an instrumental codec track.
  Each track is saved under a name built from the genre text and the run's
  id.
- **Stage 2.** For every stage-1 artifact whose stage-2 output does not yet
  exist, it cuts the frames into 6-second chunks. It teacher-forces the
  stage-2 model over them in batches, with a batch-size-1 call for the
  remainder. It concatenates the outputs, converts them to a codec array,
  repairs out-of-range codes by a per-row majority vote, and saves the
  result.

Everything the driver calls but does not define is a parameter of function
type (module `Collaborators`):

- the tokenizer and its sentinel ids;
- the codec manipulators;
- the stage-1 model's `generate` (the new tokens it returns for a segment
  and a context);
- the stage-2 model's `generate` (the new tokens per batch row);
- `np.load`;
- which output files existed before the run.

No property of these is assumed beyond its type.

Every exception the driver can raise on the modelled path is a constructor
of `Outcomes.Error`. The operations return `Result` values instead of
excluding those inputs. The quirks of the driver are reproduced, not
corrected:

- with fewer than two lyric sections nothing is decoded and extraction
  dereferences `None`;
- the last lyric section is never decoded;
- a `max_new_tokens` of 16383 makes the window 0, and `[-0:]` keeps the
  whole context;
- a batch size of zero divides by zero.

Modules, one per file:

| file | module | models |
|---|---|---|
| outcomes.dfy | `Outcomes` | the driver's exceptions, `Option`, `Result` |
| slicing.dfy | `Slicing` | Python slicing with negative and out-of-range bounds, `str.replace(x, "")` |
| collaborators.dfy | `Collaborators` | tokenizer, codecs, models, and the driver's constants (16384, 32016, 50, 6, 300, 7, 1023) |
| lyrics.dfy | `Lyrics` | `split_lyrics`: the regular expression as a hand-written scanner, and `str.strip` |
| stage1.dfy | `Stage1` | the prompt texts, the segment prompts, the context window and the segment loop |
| extraction.dfy | `Extraction` | soa/eoa positions, pairing, span slicing and the 2-way de-interleave |
| naming.dfy | `Naming` | the stage-1 artifact names |
| teacher_forcing.dfy | `TeacherForcing` | `stage2_generate` |
| stage2.dfy | `Stage2` | the chunk planner of `stage2_inference` and the run of one artifact |
| repair.dfy | `Repair` | the invalid-code repair over a 2-D array |
| stage2_files.dfy | `Stage2Files` | the loop of `stage2_inference` over the artifacts, with the resume skip |

The driver keeps its state in loops that reassign variables and write into
arrays. These are `method`s with `while` loops:

- the stage-1 segment loop;
- the teacher-forcing frame loop;
- the segment loop of the planner;
- the loop over the artifacts;
- the nested repair loops, which write into an `array2`.

Each method is proved equal to a specification function. The properties are
proved as lemmas about those functions.

## Model

| member | source | states |
|---|---|---|
| Lyrics.MatchAt | inference/infer.py:132-133 | the match anchored at `p`: `[`, the longest run of word characters (at least one), `]`, then the body up to the first newline that is followed by `[` or by the end of the text; no match otherwise |
| Lyrics.Render | inference/infer.py:134 | one section as `"[" + label + "]\n" + stripped body + "\n\n"` |
| Lyrics.Strip | inference/infer.py:134 | the stripped body is the slice between the first and the last non-whitespace character, and starts and ends with non-whitespace (or is empty) |
| Lyrics.MatchAtCorrect | inference/infer.py:132-133 | the scanner returns a match at `p` exactly when the `split_lyrics` pattern (DOTALL, lazy body) matches there: `[`, a non-empty word, `]`, and a body up to the first newline that is followed by `[` or by the end of the text |
| Lyrics.FindAll | inference/infer.py:133 | `findall` reports matches in document order, none overlapping the next, each the match anchored at its own start |
| Lyrics.FindAllSound | inference/infer.py:133 | every reported match is a match of the pattern |
| Lyrics.FindAllComplete | inference/infer.py:133 | no match is skipped: every position where the pattern matches lies inside a reported match |
| Lyrics.SplitLyrics | inference/infer.py:131-135 | one section per match, in order, each `"[label]\n" + stripped body + "\n\n"`; text outside matches is dropped |
| Slicing.Bound | inference/infer.py:239 | a Python slice index: negative counts from the end, clamped into `[0, len]` |
| Slicing.Slice | inference/infer.py:192-194 | `s[a:b]` is the clamped slice, and empty when the clamped start is past the clamped end |
| Slicing.SliceFrom | inference/infer.py:239 | `s[a:]` is the suffix from the clamped start |
| Slicing.RemoveAll | inference/infer.py:174-176 | `str.replace(literal, "")`: a left-to-right scan that deletes each occurrence of the literal and resumes after it |
| Slicing.RemoveAllAbsent | inference/infer.py:174-176 | removing a literal that does not occur leaves the section text unchanged |
| Slicing.RemoveAllAfterPrefix | inference/infer.py:174-176 | the text before the first occurrence is kept, that occurrence is deleted, and the scan goes on after it |
| Slicing.RemoveAllSinglePass | inference/infer.py:174-176 | `replace` makes one pass: deleting an occurrence can leave a new one behind |
| Stage1.PromptTexts | inference/infer.py:155-159 | the instruction comes first, then the lyric sections unchanged, one per index |
| Stage1.SegmentsRun | inference/infer.py:171-173 | the loop enumerates `prompt_texts[:min(run_n_segments + 1, len(lyrics))]` with Python's slice bounds |
| Stage1.DecodedPrompts | inference/infer.py:171-173 | never more prompts than lyric sections, so the last section is never decoded; a negative count below -1 counts from the end |
| Stage1.Head | inference/infer.py:180-208 | the tokenized instruction, followed with an audio prompt by `[start_of_reference]`, soa, the separator ids, the frame window of the reference codes, eoa and `[end_of_reference]` |
| Stage1.PromptIds | inference/infer.py:209-223 | segment 1: head, start-of-segment, the section text without the two segment literals, soa, separator ids; later segments: end-of-segment instead of the head |
| Stage1.Truncate | inference/infer.py:235-239 | an input longer than `max_context` becomes `input[-max_context:]`; otherwise it is unchanged |
| Stage1.ModelInput | inference/infer.py:226-239 | segment 1's prompt, or the previous raw output followed by the prompt (the prompt alone when there is none), cut to the window |
| Stage1.DecodeOutput | inference/infer.py:240-261 | the input followed by the model's new tokens, with one end-of-audio appended when the last token is not one; an empty output fails on the `[-1]` index |
| Stage1.Step | inference/infer.py:226-267 | one decode: the first raw output is the whole decode output; later ones append the prompt and the tokens after the model input |
| Stage1.RawAfter | inference/infer.py:173-267 | the raw output after the first `k` loop iterations, `None` while only index 0 has passed, the first failure otherwise |
| Stage1.Stage1Output | inference/infer.py:172-270 | the raw output that reaches extraction, or a failure when it is still `None` |
| Stage1.TokenPrompts | inference/infer.py:209-223 | one token prompt per prompt text; segment 1's begins with the head, later ones with end- and start-of-segment |
| Stage1.TruncateKeepsSuffix | inference/infer.py:234-239 | with a positive window, an over-long input becomes exactly its last `max_context` tokens, and a shorter one is unchanged |
| Stage1.TruncateZeroKeepsAll | inference/infer.py:234-239 | `max_new_tokens = 16383` gives a window of 0, and `[-0:]` keeps the whole input |
| Stage1.TruncateNegativeDropsPrefix | inference/infer.py:234-239 | a negative window drops a prefix of `-max_context` tokens instead of keeping a suffix |
| Stage1.NothingDecoded | inference/infer.py:172-179 | when the loop enumerates at most the instruction, nothing is decoded and extraction fails on the `None` raw output |
| Stage1.FewerThanTwoSectionsFail | inference/infer.py:171-179 | with fewer than two lyric sections, stage 1 fails, whatever `run_n_segments` is |
| Stage1.TwoSectionsOneDecode | inference/infer.py:171-179 | with two sections and `run_n_segments = 2`, only section 1 is decoded, in exactly one decode |
| Stage1.PromptsOfRunEndOpen | inference/infer.py:209-223 | when start- and end-of-audio differ and no separator id is end-of-audio, every segment prompt is non-empty and does not end with end-of-audio |
| Stage1.PromptEndsOpen | inference/infer.py:209-223 | under the same conditions, segment `i`'s token prompt, which ends with `[soa] + sep_ids`, is non-empty and does not end with end-of-audio |
| Stage1.DecodeCloses | inference/infer.py:259-261 | after an input that does not end with end-of-audio, a decode returns the input, the generated tokens, and one end-of-audio only when the generated tokens do not already end with one |
| Stage1.ModelInputFits | inference/infer.py:226-239 | the model input is a suffix of history + prompt (or of the prompt alone for segment 1) that fits the window, and holds the whole prompt when the prompt fits |
| Stage1.TruncateIsSuffix | inference/infer.py:234-239 | for every window the model input is a suffix of the full context, and for a window of at least 0 a non-empty context gives a non-empty input |
| Stage1.DecodeOutputShape | inference/infer.py:255-261 | a successful decode starts with its input and ends with end-of-audio |
| Stage1.LaterStepExtends | inference/infer.py:255-265 | for every window and any prompts, a decode past the first keeps the previous raw output as a prefix and ends with end-of-audio |
| Stage1.FirstDecode | inference/infer.py:226-267 | for every window of at least 0 (0 keeps the whole prompt), the raw output after segment 1 is the window-cut prompt, the generated tokens and the closing end-of-audio |
| Stage1.LaterDecodeAppends | inference/infer.py:262-265 | for every window of at least 0, a later segment appends its full prompt and only the newly generated tokens to the whole previous raw output, which is never truncated |
| Stage1.RawEndsWithEoa | inference/infer.py:259-267 | for every window and any prompts, after every decode the raw output ends with end-of-audio |
| Stage1.RawOutputGrows | inference/infer.py:262-267 | for every window and any prompts, each raw output is a prefix of every later one |
| Stage1.RawStep | inference/infer.py:262-267 | the raw output after a decode past the first has the previous raw output as a prefix |
| Stage1.RawAfterFailureSticks | inference/infer.py:259 | an exception in one decode ends the loop: every later state is that failure |
| Stage1.GenerateStage1 | inference/infer.py:142-267 | the stage-1 pass over the stripped genres and split lyrics equals the segment loop's defining function |
| Stage1.DecodeSegments | inference/infer.py:173-267 | the loop, skipping index 0 and stopping at the first failure, computes the specified raw output or failure |
| Stage1.DecodeSegment | inference/infer.py:180-267 | one iteration computes the specified next raw output |
| Stage1.CutContext | inference/infer.py:226-239 | the input selection and window cut compute the specified model input |
| Stage1.Decode | inference/infer.py:240-261 | the decode with the end-of-audio fix-up computes the specified output |
| Extraction.Positions | inference/infer.py:271-272 | `np.where(ids == t)`: exactly the positions holding `t`, increasing |
| Extraction.SpanCodes | inference/infer.py:282-285 | a pair's span without a leading 32016, truncated to even length; an empty span fails on the `[0]` index |
| Extraction.ExtractPairs | inference/infer.py:273-293 | unequal marker counts fail; otherwise the pairs from `range_begin` on are extracted and concatenated per track, and none at all fails the concatenation |
| Extraction.Extract | inference/infer.py:270-293 | extraction from the raw output, starting at pair 1 with an audio prompt and at pair 0 without |
| Extraction.SpanIsSlice | inference/infer.py:282 | the span of a pair is `ids[soa + 1 : eoa]` with Python's slice bounds |
| Extraction.SpanCodesFails | inference/infer.py:282-283 | processing a span fails exactly when it is empty, with an index error |
| Extraction.SpanCodesMeaning | inference/infer.py:282-285 | a non-empty span loses a leading 32016 and then at most one trailing token, leaving the longest even-length piece |
| Extraction.Evens | inference/infer.py:286-287 | the vocal row is the even positions, half the length |
| Extraction.Odds | inference/infer.py:288-290 | the instrumental row is the odd positions, half the length |
| Extraction.InterleaveSplit | inference/infer.py:285-290 | re-interleaving the vocal and instrumental rows gives back the even-length span |
| Extraction.SplitInterleave | inference/infer.py:285-290 | de-interleaving an interleaving gives back both rows |
| Extraction.PairTracksFails | inference/infer.py:282-291 | a pair yields tracks exactly when its span is non-empty |
| Extraction.TracksUpToOk | inference/infer.py:278-293 | the pair loop succeeds exactly when every extracted pair's span is non-empty, and otherwise fails with the index error |
| Extraction.ExtractOutcome | inference/infer.py:270-293 | unequal soa and eoa counts raise the marker error; no pair from `range_begin` on gives the empty-concatenate error; otherwise extraction succeeds exactly when every span from `range_begin` on is non-empty, and fails with the index error when one is empty |
| Extraction.OneSpan | inference/infer.py:278-291 | `[soa, x, y, eoa]` without an audio prompt gives vocal `x` and instrumental `y` |
| Extraction.MarkerAndOddTokenDropped | inference/infer.py:282-285 | a 32016 after soa and an odd last token are dropped from the span |
| Extraction.ReferenceOnlyFails | inference/infer.py:280-292 | with an audio prompt and only the reference pair, nothing is left to concatenate |
| Naming.Stem | inference/infer.py:296-298 | `cot_`, the genres with spaces as `-`, the sampling tag, `_maxtk` and the token budget, the track and the run id, every `.` replaced by `@` |
| Naming.ArtifactName | inference/infer.py:294-307 | the file name: the stem followed by `.npy`; the join onto `stage1_output_dir` is not modelled, since stage 2 uses only the base name |
| Naming.OnlyExtensionDot | inference/infer.py:294-300 | the name ends in `.npy`, has no other dot, and after `cot_` carries the genre text with spaces as `-` and dots as `@` |
| Naming.TrackNamesDiffer | inference/infer.py:294-307 | the vocal and instrumental artifacts of a run never share a name |
| TeacherForcing.PromptRow | inference/infer.py:344-359 | a prompt row: soa, stage_1, the row's codes, stage_2 |
| TeacherForcing.SameWidth | inference/infer.py:343 | the rows can be stacked: all as wide as the first |
| TeacherForcing.ForceStep | inference/infer.py:375-392 | one frame: each row gets its frame's token, then the model's new tokens, failing unless there are seven per row |
| TeacherForcing.Generate | inference/infer.py:326-402 | the rows cut from the frame tokens (rows of unequal width fail), every frame forced, then the part after the prompt of each row, rows in order |
| TeacherForcing.FrameTokens | inference/infer.py:327-333 | one stage-2 token per stage-1 frame, in order |
| TeacherForcing.BatchRows | inference/infer.py:336-343 | batch size above 1 cuts `batch_size` rows of frames `[300i, 300(i+1))`; otherwise the prompt is one row |
| TeacherForcing.BatchRowAt | inference/infer.py:338-341 | with enough frames, every batch row has 300 frames and row `r`, column `j` is frame `300r + j` |
| TeacherForcing.ForcedAfter | inference/infer.py:374-392 | after `k` frames, every row has length `3 + width + 8k` |
| TeacherForcing.ForcedLayout | inference/infer.py:344-392 | after `k` frames, every row is its prompt `soa stage_1 codes stage_2` followed, per frame `j`, by that frame's ground-truth token and seven generated ones |
| TeacherForcing.ForcedGenerated | inference/infer.py:374-392 | the seven tokens after frame `j`'s ground-truth token in a row are the model's reply for that row at frame `j`, given the rows after the earlier frames with frame `j`'s column appended, and later frames leave them alone |
| TeacherForcing.ForceStepFails | inference/infer.py:389-391 | a frame fails the assertion exactly when the model does not return seven new tokens for every row |
| TeacherForcing.ForcedFailureSticks | inference/infer.py:374-392 | a failed frame ends the loop with that failure |
| TeacherForcing.RowsOutputLayout | inference/infer.py:394-400 | the output is `8 * width` tokens per row, rows in batch order, with token `8j` of row `r` the row's frame `j` |
| TeacherForcing.SingleRowFrames | inference/infer.py:352-400 | with batch size at most 1, the output has `8F` tokens and token `8k` is frame `k`'s token |
| TeacherForcing.BatchFrames | inference/infer.py:336-400 | with a batch, token `8j` of row `r` in the output is frame `300r + j`'s token |
| TeacherForcing.Stage2Generate | inference/infer.py:326-402 | `stage2_generate` computes the specified output or failure |
| TeacherForcing.CutRows | inference/infer.py:336-343 | the row loop computes the specified batch rows |
| TeacherForcing.ForceFrames | inference/infer.py:374-392 | the frame loop computes the specified rows after all frames |
| TeacherForcing.ForceFrame | inference/infer.py:375-392 | one frame appends the ground-truth column and checks the seven tokens as specified |
| Stage2.FloorDiv | inference/infer.py:430-432 | Python's `//` rounds toward negative infinity for either sign of the divisor |
| Stage2.MainCalls | inference/infer.py:419-453 | one call over `[0, od*50)` with batch `num_batch` when `num_batch <= batch_size`; otherwise the segment calls, or the division and empty-concatenate failures |
| Stage2.TailCalls | inference/infer.py:456-460 | the frames `[od*50, T)`, when there are any, as one call of batch size 1 |
| Stage2.Plan | inference/infer.py:419-460 | the whole-chunk calls followed by the tail call |
| Stage2.RunCalls | inference/infer.py:434-460 | the calls made in order with their outputs concatenated, the first failing call ending the run |
| Stage2.FileTokens | inference/infer.py:419-460 | the stage-2 token stream of one artifact: the planned calls run in order |
| Stage2.FileCodes | inference/infer.py:419-473 | the token stream converted into a codec array and repaired |
| Stage2.ChunkArithmetic | inference/infer.py:419-420 | the whole chunks span `num_batch * 300` frames, and fewer than 300 frames remain |
| Stage2.SegmentCount | inference/infer.py:430-432 | with `0 < batch_size < num_batch` there are at least two segments covering `num_batch` chunks, the last with `num_batch % batch_size` when that is nonzero |
| Stage2.SegmentShape | inference/infer.py:434-444 | segment `seg` covers frames `[seg*bs*300, min((seg+1)*bs*300, num_batch*300))`, its width is its batch size times 300, and only the last segment can be short |
| Stage2.SegmentsTile | inference/infer.py:434-444 | the segments cover the whole chunks one after another, with no gap or overlap |
| Stage2.SegmentsSum | inference/infer.py:440-444 | the first `k` segments before the last hold `k * batch_size` chunks |
| Stage2.MainCallsFail | inference/infer.py:422-453 | the whole-chunk part fails exactly when there are more chunks than a non-positive batch size: zero divides by zero, negative leaves nothing to concatenate |
| Stage2.MainCallsShape | inference/infer.py:419-453 | the calls tile `[0, output_duration*50)`, each call is its batch size times 300 frames wide, the batch sizes sum to `num_batch`, and the last group takes `num_batch % batch_size` |
| Stage2.PlanTiles | inference/infer.py:419-460 | all calls cover `[0, T)` exactly once, and the remaining frames form one batch-size-1 call shorter than a chunk |
| Stage2.PlanShaped | inference/infer.py:419-460 | every planned call is a single row or full rows of 300 frames |
| Stage2.AlignedConcat | inference/infer.py:453-460 | concatenating the outputs of consecutive frame ranges gives the output of the joined range |
| Stage2.CallAligned | inference/infer.py:445-449 | each call's output has eight tokens per frame of its range, token `8t` being frame `t`'s token |
| Stage2.BatchAligned | inference/infer.py:395-400 | a full batch output holds frame `t`'s token at `8t` over the whole call |
| Stage2.RunAligned | inference/infer.py:434-460 | running tiling calls in order gives eight tokens per frame of the covered range, frame `t` at position `8t` |
| Stage2.StreamAligned | inference/infer.py:419-460 | an artifact of `T` frames yields `8T` stage-2 tokens, with token `8t` being frame `t`'s token |
| Stage2.RunCallsFailSticks | inference/infer.py:434-453 | the first failing call decides the artifact's outcome |
| Stage2.Stage2File | inference/infer.py:419-473 | one artifact's chunked generation, conversion and repair compute the specified array or failure |
| Stage2.Stage2Tokens | inference/infer.py:419-460 | the token stream of one artifact is the specified one |
| Stage2.MainOutput | inference/infer.py:422-453 | the whole-chunk branch computes the specified output |
| Stage2.RunSegments | inference/infer.py:434-453 | the segment loop collects one output per call, and their concatenation is the specified output |
| Repair.Mode | inference/infer.py:469-472 | the chosen value occurs in the row, no value occurs more often, and every value met before it occurs strictly less often |
| Repair.ModeUnique | inference/infer.py:469-472 | that choice is unique |
| Repair.RepairRow | inference/infer.py:466-473 | the row keeps its length and every valid code; each invalid one becomes the mode of the original row |
| Repair.Repaired | inference/infer.py:465-473 | repair keeps the shape of the array |
| Repair.RepairedRowValid | inference/infer.py:465-473 | the repaired row is all valid exactly when the row was already all valid, or the row is non-empty and its mode is valid |
| Repair.ModeKept | inference/infer.py:465-473 | when the mode is invalid, it is still the mode after repair |
| Repair.RepairRowIdempotent | inference/infer.py:465-473 | repairing a row twice changes nothing more |
| Repair.RepairedIdempotent | inference/infer.py:465-473 | repairing the array twice changes nothing more |
| Repair.RepairInvalidCodes | inference/infer.py:465-473 | the copy-and-fix loops over the array compute the specified repaired array |
| Repair.RepairLine | inference/infer.py:467-473 | the inner loop repairs one row of the copy and leaves the others alone |
| Stage2Files.Basename | inference/infer.py:408 | the base name is the part of the path after its last `/` |
| Stage2Files.Join | inference/infer.py:407-409 | `os.path.join` of two parts: an absolute second part replaces the first, otherwise a `/` is inserted unless the directory ends with one |
| Stage2Files.OutputName | inference/infer.py:407-409 | the output directory joined with the artifact's base name |
| Stage2Files.JoinRelative | inference/infer.py:407-409 | joining a name without `/` onto the output directory appends it after the directory, adding a `/` only when the directory does not already end with one |
| Stage2Files.OutputNameCollides | inference/infer.py:407-409 | two artifacts share an output file exactly when their base names are equal |
| Stage2Files.SavedName | inference/infer.py:475 | `np.save` writes the name itself when it ends with `.npy`, and the name with `.npy` appended otherwise |
| Stage2Files.OutputNameEndsNpy | inference/infer.py:407-409 | an artifact whose base name ends with `.npy` has an output name that does too, so `np.save` writes exactly that name |
| Stage2Files.Step | inference/infer.py:407-476 | one iteration: skipped after an exception or when the output name exists; otherwise the pass either raises, or its array is saved under the `np.save` name and the output name appended to the result |
| Stage2Files.InferenceAfter | inference/infer.py:406-476 | the result list, saved files and exception after the first `k` artifacts |
| Stage2Files.StepGrows | inference/infer.py:407-476 | an iteration appends nothing or exactly its output name; it writes at most one file, the `np.save` name of that output name, and changes no other file; after an exception it changes nothing; otherwise the output name exists afterwards or its array was saved under the suffixed name |
| Stage2Files.FailureSticks | inference/infer.py:406-476 | an exception ends the loop |
| Stage2Files.ProgressGrows | inference/infer.py:406-476 | the result list only grows at its end and no saved file disappears; when every base name ends with `.npy`, no saved file is written twice |
| Stage2Files.ResultGrows | inference/infer.py:406-476 | each prefix of the loop's result list is a prefix of every later one |
| Stage2Files.SavedKept | inference/infer.py:406-476 | no saved file disappears later in the loop |
| Stage2Files.SavedUnchanged | inference/infer.py:406-476 | when every output name ends with `.npy`, no saved file is written twice |
| Stage2Files.SavedKeysNpy | inference/infer.py:475 | every file the loop writes ends with `.npy` |
| Stage2Files.AlwaysConsistent | inference/infer.py:406-476 | the saved files are exactly the `np.save` names of the listed names; a listed name ending with `.npy` is listed once; no listed name existed before; every saved array is the stage-2 result of an artifact saved under that name |
| Stage2Files.CompletedCoversAll | inference/infer.py:406-476 | without an exception, every artifact's output name existed before the run or its array was saved under its `np.save` name |
| Stage2Files.AllDoneSkipsAll | inference/infer.py:411-413 | when every output already exists, nothing is generated, saved or returned |
| Stage2Files.RerunDoesNothing | inference/infer.py:411-413 | over artifacts whose base names end with `.npy`, a second run after a complete one does nothing |
| Stage2Files.UnsuffixedNeverSkipped | inference/infer.py:407-475 | an artifact whose output name lacks `.npy` is not skipped unless that very name existed before: it is run and listed again, or the run raises |
| Stage2Files.RerunRepeatsUnsuffixed | inference/infer.py:407-475 | so a second run after a complete one regenerates such an artifact: it raises or returns a non-empty list |
| Stage2Files.DuplicateSkipped | inference/infer.py:407-413 | a later artifact with the base name of an earlier one is skipped when that base name ends with `.npy` |
| Stage2Files.Stage2Inference | inference/infer.py:404-477 | `stage2_inference` computes the specified result list, saved files and exception |
| Stage2Files.InferenceLoop | inference/infer.py:406-476 | the loop over the artifacts computes the specified progress for any per-artifact pass |
| Stage2Files.Stage2Step | inference/infer.py:407-476 | one iteration computes the specified step |

## Left out

- gradio.py: the web front-end has no logic of its own and is not part of this model.
- The `.txt` file variants of the genre and lyrics arguments (lines 142-152) read a file. The model receives the text directly.
- Lyrics.IsWordChar: `\w` is modelled as ASCII letters, digits and `_`. Python's `\w` also accepts other Unicode letters and digits.
- Model loading, device placement, offloading and `torch.cuda.empty_cache` are library plumbing.
- The stage-1 and stage-2 `generate` calls are parameters. Their sampling parameters, guidance scale and `BlockTokenRangeProcessor` masking act on floating-point logits and are not modelled. Only "the input followed by new tokens" is kept.
- The audio codec and the vocoder (`encode`, `decode`, resampling, `save_audio`, the waveform mix) are floating-point audio and foreign calls. The audio prompt enters as its token ids and an integer frame window.
- The frame window `int(prompt_start_time * 50)` is computed from floats, so the model takes the two frame bounds as integers.
- The tokenizer and `CodecManipulator` (`tokenize`, `npy2ids`, `ids2npy`, `unflatten`, `offset_tok_ids`, `sep_ids`) are uninterpreted parameters, because their code is not part of this model. No round trip is claimed for them.
- The `unflatten` and `offset_tok_ids` calls of `stage2_generate` are modelled as one per-frame map from a stage-1 code to a stage-2 token, on a single codebook row.
- The run id `uuid4()` is not generated: it is an argument of the naming functions.
- `np.save`, `np.load` and `os.path.exists`: saving is an update of a map of saved files under the name `np.save` writes (`.npy` appended when missing, `Stage2Files.SavedName`), loading is a parameter, and existence is a predicate on names that existed before the run plus the files saved since. The resume check looks at the unsuffixed name, so the resume lemmas are stated for `.npy` artifacts, which every stage-1 artifact is (`Naming.OnlyExtensionDot`), and `Stage2Files.RerunRepeatsUnsuffixed` states what happens to the others.
- Stage1.FirstDecode: is stated for windows of at least 0 only. A negative window (`max_new_tokens` above 16383) can cut the model input down to nothing, or to a piece that ends with end-of-audio, so no fixed closing rule holds. `Stage1.TruncateNegativeDropsPrefix` states that cut, and `Stage1.RawEndsWithEoa` and `Stage1.RawOutputGrows` hold for every window.
- Stage1.LaterDecodeAppends: is stated for windows of at least 0 only, for the same reason.
- The casts `astype(np.int16)` and `astype(np.int32)`: codes are unbounded integers, so no wrap-around is modelled.
- Logging (`print`), progress bars (`tqdm`) and argument parsing are not modelled.
- The loop lemmas of `Stage2Files` are stated for any per-artifact pass `run`. `Stage2Files.RunOfIsPass` ties the real pass, `FileCodes`, to them.

Three consequences of the code are stated as lemmas:

- With two lyric sections and `run_n_segments = 2`, the bound `len(lyrics)`
  at line 171 lets the loop decode only section 1
  (`Stage1.TwoSectionsOneDecode`).
- With fewer than two sections `raw_output` stays `None`, and line 270 fails
  (`Stage1.FewerThanTwoSectionsFail`).
- A prompt longer than the window is itself cut, so the model then sees only
  the end of the current prompt (`Stage1.ModelInputFits`).
