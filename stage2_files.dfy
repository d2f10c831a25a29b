/** The loop of `stage2_inference` over the stage-1 artifacts: an artifact
    whose output file already exists is skipped (so that an interrupted run
    can be resumed), every other one is run through stage 2 and its repaired
    array saved under the artifact's base name in the output directory, with
    `.npy` appended by `np.save` when that name lacks it. */
module Stage2Files {
  import opened Outcomes
  import opened Collaborators
  import opened Stage2

  // ---------------------------------------------------------------------
  // Output names

  /** `os.path.basename`: what follows the last `/`. */
  function Basename(path: string): (b: string)
    ensures '/' !in b
    ensures |b| <= |path| && b == path[|path| - |b|..]
    ensures |b| < |path| ==> path[|path| - |b| - 1] == '/'
  {
    if |path| == 0 || path[|path| - 1] == '/' then []
    else
      var init := path[..|path| - 1];
      var b := Basename(init);
      assert init[|init| - |b|..] + [path[|path| - 1]] == path[|path| - |b| - 1..];
      assert |b| < |init| ==> path[|path| - |b| - 2] == init[|init| - |b| - 1];
      b + [path[|path| - 1]]
  }

  /** `os.path.join(dir, name)` for two parts. */
  function Join(dir: string, name: string): string {
    if |name| > 0 && name[0] == '/' then name
    else if |dir| == 0 || dir[|dir| - 1] == '/' then dir + name
    else dir + "/" + name
  }

  /** Where the stage-2 array of the artifact at `path` is saved. */
  function OutputName(dir: string, path: string): string {
    Join(dir, Basename(path))
  }

  /** The directory part of a joined name. */
  function DirPrefix(dir: string): string {
    if |dir| == 0 || dir[|dir| - 1] == '/' then dir else dir + "/"
  }

  /** A relative name is appended to the directory. */
  lemma JoinRelative(dir: string, name: string)
    requires '/' !in name
    ensures Join(dir, name) == DirPrefix(dir) + name
  {
    if |name| > 0 {
      assert name[0] in name;
    }
  }

  /** Two artifacts get the same output file exactly when their base names
      are equal. */
  lemma OutputNameCollides(dir: string, p: string, q: string)
    ensures OutputName(dir, p) == OutputName(dir, q) <==> Basename(p) == Basename(q)
  {
    var a, b := Basename(p), Basename(q);
    JoinRelative(dir, a);
    JoinRelative(dir, b);
    var d := DirPrefix(dir);
    if d + a == d + b {
      assert a == (d + a)[|d|..];
      assert b == (d + b)[|d|..];
    }
  }

  /** The name ends with the `.npy` extension: its last four characters
      are `.`, `n`, `p`, `y`. */
  predicate EndsNpy(name: string) {
    && |name| >= 4
    && name[|name| - 4] == '.' && name[|name| - 3] == 'n'
    && name[|name| - 2] == 'p' && name[|name| - 1] == 'y'
  }

  /** The file `np.save(name, …)` writes: `name` itself when it ends with
      `.npy`, otherwise `name` with `.npy` appended. */
  function SavedName(name: string): (f: string)
    ensures EndsNpy(f)
    ensures EndsNpy(name) ==> f == name
  {
    if EndsNpy(name) then name else name + ".npy"
  }

  /** Joining a relative `.npy` name onto a directory gives a `.npy` name. */
  lemma JoinEndsNpy(dir: string, b: string)
    requires '/' !in b && EndsNpy(b)
    ensures EndsNpy(Join(dir, b))
  {
    JoinRelative(dir, b);
    var n := DirPrefix(dir) + b;
    assert n[|n| - 4] == b[|b| - 4] && n[|n| - 3] == b[|b| - 3];
    assert n[|n| - 2] == b[|b| - 2] && n[|n| - 1] == b[|b| - 1];
  }

  /** An artifact whose base name ends with `.npy` has an output name that
      does too, so its array is saved under that very name. */
  lemma OutputNameEndsNpy(dir: string, path: string)
    ensures EndsNpy(Basename(path)) ==>
              EndsNpy(OutputName(dir, path)) && SavedName(OutputName(dir, path)) == OutputName(dir, path)
  {
    if EndsNpy(Basename(path)) {
      JoinEndsNpy(dir, Basename(path));
    }
  }

  /** Every artifact's base name ends with `.npy`, as every stage-1
      artifact's name does. */
  ghost predicate NpyArtifacts(paths: seq<string>) {
    forall i :: 0 <= i < |paths| ==> EndsNpy(Basename(paths[i]))
  }

  /** The output name of an `.npy` artifact ends with `.npy`. */
  lemma NpyOutputAt(dir: string, paths: seq<string>, i: nat)
    requires NpyArtifacts(paths) && i < |paths|
    ensures EndsNpy(OutputName(dir, paths[i]))
  {
    OutputNameEndsNpy(dir, paths[i]);
  }

  // ---------------------------------------------------------------------
  // The loop as a function

  /** What the loop is given: the collaborators, the output directory, the
      batch size, `np.load` and which output files existed before the run. */
  datatype Env = Env(
    tk: Tokenizer,
    sc: Stage2Codec,
    model: Stage2Model,
    outputDir: string,
    batchSize: int,
    load: string -> seq<int>,
    existed: string -> bool)

  /** The returned list, the files saved so far and the exception that
      stopped the loop, if one did. */
  datatype Progress = Progress(result: seq<string>, saved: map<string, Grid>, failure: Option<Error>)

  /** `os.path.exists` during the run: the file existed before or was saved since. */
  predicate Exists(env: Env, saved: map<string, Grid>, name: string) {
    env.existed(name) || name in saved
  }

  /** The stage-2 pass over the artifact at `path`, from loading it to the
      repaired array. */
  function RunOf(env: Env): string -> Result<Grid> {
    path => FileCodes(env.tk, env.sc, env.model, env.load(path), env.batchSize)
  }

  /** One iteration of the loop, for the artifact at `path`. */
  function Step(env: Env, run: string -> Result<Grid>, p: Progress, path: string): Progress {
    var name := OutputName(env.outputDir, path);
    if p.failure.Some? || Exists(env, p.saved, name) then p
    else
      match run(path)
      case Err(e) => Progress(p.result, p.saved, Some(e))
      case Ok(g) => Progress(p.result + [name], p.saved[SavedName(name) := g], None)
  }

  /** The loop after the first `k` artifacts, where `run` is the pass over
      one artifact (`RunOf(env)`; the loop's properties hold for any pass). */
  function InferenceAfter(env: Env, run: string -> Result<Grid>, paths: seq<string>, k: nat): Progress
    requires k <= |paths|
  {
    if k == 0 then Progress([], map[], None)
    else Step(env, run, InferenceAfter(env, run, paths, k - 1), paths[k - 1])
  }

  // ---------------------------------------------------------------------
  // Properties

  /** One iteration only appends its output name to the list and writes
      one file at most, the one `np.save` makes of that name; after an
      exception it changes nothing; without one, the output name exists
      afterwards or its array was saved under the suffixed name. */
  lemma StepGrows(env: Env, run: string -> Result<Grid>, p: Progress, path: string)
    ensures var q, name := Step(env, run, p, path), OutputName(env.outputDir, path);
            && (q.result == p.result || q.result == p.result + [name])
            && |p.result| <= |q.result| <= |p.result| + 1 && q.result[..|p.result|] == p.result
            && q.saved.Keys <= p.saved.Keys + {SavedName(name)}
            && (forall n :: n in p.saved ==> n in q.saved && (n != SavedName(name) ==> q.saved[n] == p.saved[n]))
            && (EndsNpy(name) ==> forall n :: n in p.saved ==> q.saved[n] == p.saved[n])
            && (p.failure.Some? ==> q == p)
            && (q.failure.None? ==> p.failure.None? && (Exists(env, q.saved, name) || SavedName(name) in q.saved))
  {
    var q := Step(env, run, p, path);
    assert q.result[..|p.result|] == p.result;
  }

  /** One iteration appends nothing or its output name. */
  lemma StepResult(env: Env, run: string -> Result<Grid>, p: Progress, path: string)
    ensures var q := Step(env, run, p, path);
            q.result == p.result || q.result == p.result + [OutputName(env.outputDir, path)]
  {
  }

  /** One iteration keeps every saved file, and when its output name ends
      with `.npy` it rewrites none. */
  lemma StepKeeps(env: Env, run: string -> Result<Grid>, p: Progress, path: string)
    ensures var q := Step(env, run, p, path);
            && (forall n :: n in p.saved ==> n in q.saved)
            && (EndsNpy(OutputName(env.outputDir, path)) ==> forall n :: n in p.saved ==> q.saved[n] == p.saved[n])
  {
  }

  /** An exception ends the loop: the later artifacts change nothing. */
  lemma {:induction false} FailureSticks(env: Env, run: string -> Result<Grid>, paths: seq<string>, k: nat, k': nat)
    requires k <= k' <= |paths| && InferenceAfter(env, run, paths, k).failure.Some?
    ensures InferenceAfter(env, run, paths, k') == InferenceAfter(env, run, paths, k)
    decreases k' - k
  {
    if k < k' {
      FailureSticks(env, run, paths, k, k' - 1);
      var p := InferenceAfter(env, run, paths, k' - 1);
      assert InferenceAfter(env, run, paths, k') == Step(env, run, p, paths[k' - 1]);
    }
  }

  /** The list only grows at its end. */
  lemma {:induction false} ResultGrows(env: Env, run: string -> Result<Grid>, paths: seq<string>, k: nat, k': nat)
    requires k <= k' <= |paths|
    ensures var p, q := InferenceAfter(env, run, paths, k), InferenceAfter(env, run, paths, k');
            |p.result| <= |q.result| && q.result[..|p.result|] == p.result
    decreases k' - k
  {
    if k < k' {
      ResultGrows(env, run, paths, k, k' - 1);
      var p := InferenceAfter(env, run, paths, k);
      var q := InferenceAfter(env, run, paths, k' - 1);
      var q' := InferenceAfter(env, run, paths, k');
      assert q' == Step(env, run, q, paths[k' - 1]);
      StepResult(env, run, q, paths[k' - 1]);
      assert q'.result[..|q.result|] == q.result;
      assert q'.result[..|p.result|] == q'.result[..|q.result|][..|p.result|];
    }
  }

  /** No saved file disappears. */
  lemma {:induction false} SavedKept(env: Env, run: string -> Result<Grid>, paths: seq<string>, k: nat, k': nat)
    requires k <= k' <= |paths|
    ensures forall n :: n in InferenceAfter(env, run, paths, k).saved ==> n in InferenceAfter(env, run, paths, k').saved
    decreases k' - k
  {
    if k < k' {
      SavedKept(env, run, paths, k, k' - 1);
      var q := InferenceAfter(env, run, paths, k' - 1);
      assert InferenceAfter(env, run, paths, k') == Step(env, run, q, paths[k' - 1]);
      StepKeeps(env, run, q, paths[k' - 1]);
    }
  }

  /** When every output name ends with `.npy`, no saved file is rewritten. */
  lemma {:induction false} SavedUnchanged(env: Env, run: string -> Result<Grid>, paths: seq<string>, k: nat, k': nat)
    requires k <= k' <= |paths|
    requires forall i :: 0 <= i < |paths| ==> EndsNpy(OutputName(env.outputDir, paths[i]))
    ensures var p, q := InferenceAfter(env, run, paths, k), InferenceAfter(env, run, paths, k');
            forall n :: n in p.saved ==> n in q.saved && q.saved[n] == p.saved[n]
    decreases k' - k
  {
    if k < k' {
      SavedUnchanged(env, run, paths, k, k' - 1);
      var q := InferenceAfter(env, run, paths, k' - 1);
      assert InferenceAfter(env, run, paths, k') == Step(env, run, q, paths[k' - 1]);
      StepKeeps(env, run, q, paths[k' - 1]);
    }
  }

  /** The loop only appends: the list grows at its end and no saved file
      disappears; when every base name ends with `.npy`, a saved file is
      never written again. */
  lemma ProgressGrows(env: Env, run: string -> Result<Grid>, paths: seq<string>, k: nat, k': nat)
    requires k <= k' <= |paths|
    ensures var p, q := InferenceAfter(env, run, paths, k), InferenceAfter(env, run, paths, k');
            && |p.result| <= |q.result| && q.result[..|p.result|] == p.result
            && (forall n :: n in p.saved ==> n in q.saved)
            && (NpyArtifacts(paths) ==> forall n :: n in p.saved ==> q.saved[n] == p.saved[n])
  {
    ResultGrows(env, run, paths, k, k');
    SavedKept(env, run, paths, k, k');
    if NpyArtifacts(paths) {
      forall i | 0 <= i < |paths| ensures EndsNpy(OutputName(env.outputDir, paths[i])) {
        NpyOutputAt(env.outputDir, paths, i);
      }
      SavedUnchanged(env, run, paths, k, k');
    }
  }

  /** Every file the loop writes ends with `.npy`. */
  lemma {:induction false} SavedKeysNpy(env: Env, run: string -> Result<Grid>, paths: seq<string>, k: nat)
    requires k <= |paths|
    ensures forall n :: n in InferenceAfter(env, run, paths, k).saved ==> EndsNpy(n)
  {
    if k > 0 {
      SavedKeysNpy(env, run, paths, k - 1);
      var p := InferenceAfter(env, run, paths, k - 1);
      assert InferenceAfter(env, run, paths, k) == Step(env, run, p, paths[k - 1]);
    }
  }

  /** The list and the saved files agree: the saved files are the `np.save`
      names of the listed names, a listed name ending with `.npy` is listed
      once, no name that existed before the run is listed, and each saved
      array is the stage-2 result of an artifact whose output is saved
      under that name. */
  ghost predicate Consistent(env: Env, run: string -> Result<Grid>, paths: seq<string>, p: Progress) {
    && (forall n :: n in p.saved <==> exists a :: 0 <= a < |p.result| && SavedName(p.result[a]) == n)
    && (forall a, b :: 0 <= a < b < |p.result| && p.result[a] == p.result[b] ==> !EndsNpy(p.result[a]))
    && (forall a :: 0 <= a < |p.result| ==> !env.existed(p.result[a]))
    && (forall n :: n in p.saved ==>
          exists i :: 0 <= i < |paths| && SavedName(OutputName(env.outputDir, paths[i])) == n
                      && run(paths[i]) == Ok(p.saved[n]))
  }

  /** The list and the saved files stay consistent throughout the loop. */
  lemma AlwaysConsistent(env: Env, run: string -> Result<Grid>, paths: seq<string>, k: nat)
    requires k <= |paths|
    ensures Consistent(env, run, paths, InferenceAfter(env, run, paths, k))
  {
    var i := 0;
    while i < k
      invariant i <= k && Consistent(env, run, paths, InferenceAfter(env, run, paths, i))
    {
      ConsistentNext(env, run, paths, i);
      i := i + 1;
    }
  }

  /** Consistency after `k` artifacts carries over to `k + 1`. */
  lemma ConsistentNext(env: Env, run: string -> Result<Grid>, paths: seq<string>, k: nat)
    requires k < |paths| && Consistent(env, run, paths, InferenceAfter(env, run, paths, k))
    ensures Consistent(env, run, paths, InferenceAfter(env, run, paths, k + 1))
  {
    StepConsistent(env, run, paths, InferenceAfter(env, run, paths, k), k);
  }

  /** One iteration keeps the list and the saved files consistent. */
  lemma StepConsistent(env: Env, run: string -> Result<Grid>, paths: seq<string>, p: Progress, k: nat)
    requires k < |paths| && Consistent(env, run, paths, p)
    ensures Consistent(env, run, paths, Step(env, run, p, paths[k]))
  {
    var name := OutputName(env.outputDir, paths[k]);
    if p.failure.None? && !Exists(env, p.saved, name) && run(paths[k]).Ok? {
      var g := run(paths[k]).value;
      var file := SavedName(name);
      var q := Progress(p.result + [name], p.saved[file := g], None);
      assert Step(env, run, p, paths[k]) == q;
      forall n ensures n in q.saved <==> exists a :: 0 <= a < |q.result| && SavedName(q.result[a]) == n {
        if n in p.saved {
          var a :| 0 <= a < |p.result| && SavedName(p.result[a]) == n;
          assert q.result[a] == p.result[a];
        } else if n == file {
          assert q.result[|p.result|] == name;
        } else {
          forall a | 0 <= a < |q.result| ensures SavedName(q.result[a]) != n {
            if a < |p.result| {
              assert q.result[a] == p.result[a];
            }
          }
        }
      }
      forall a, b | 0 <= a < b < |q.result| && q.result[a] == q.result[b]
        ensures !EndsNpy(q.result[a])
      {
        if b == |p.result| && EndsNpy(name) {
          assert false;
        }
      }
      forall n | n in q.saved
        ensures exists i :: 0 <= i < |paths| && SavedName(OutputName(env.outputDir, paths[i])) == n
                    && run(paths[i]) == Ok(q.saved[n])
      {
        if n == file {
          assert SavedName(OutputName(env.outputDir, paths[k])) == n && run(paths[k]) == Ok(q.saved[n]);
        } else {
          assert q.saved[n] == p.saved[n];
        }
      }
    }
  }

  /** The output name `n` existed before the run, or its array was saved. */
  predicate Covered(env: Env, saved: map<string, Grid>, n: string) {
    env.existed(n) || SavedName(n) in saved
  }

  /** A completed run has, for every artifact, either an output name that
      existed before the run or the file its array was saved to. */
  lemma {:induction false} CompletedCoversAll(env: Env, run: string -> Result<Grid>, paths: seq<string>, k: nat)
    requires k <= |paths| && InferenceAfter(env, run, paths, k).failure.None?
    ensures forall i :: 0 <= i < k ==>
              Covered(env, InferenceAfter(env, run, paths, k).saved, OutputName(env.outputDir, paths[i]))
  {
    if k > 0 {
      var p := InferenceAfter(env, run, paths, k - 1);
      var q := InferenceAfter(env, run, paths, k);
      assert q == Step(env, run, p, paths[k - 1]);
      StepGrows(env, run, p, paths[k - 1]);
      SavedKeysNpy(env, run, paths, k);
      CompletedCoversAll(env, run, paths, k - 1);
      forall i | 0 <= i < k ensures Covered(env, q.saved, OutputName(env.outputDir, paths[i])) {
        var n := OutputName(env.outputDir, paths[i]);
        if i < k - 1 {
          assert Covered(env, p.saved, n);
        } else if n in q.saved {
          assert EndsNpy(n);
        }
      }
    }
  }

  /** Resuming when every output exists does nothing and returns `[]`. */
  lemma {:induction false} AllDoneSkipsAll(env: Env, run: string -> Result<Grid>, paths: seq<string>, k: nat)
    requires k <= |paths|
    requires forall i :: 0 <= i < k ==> env.existed(OutputName(env.outputDir, paths[i]))
    ensures InferenceAfter(env, run, paths, k) == Progress([], map[], None)
  {
    if k > 0 {
      AllDoneSkipsAll(env, run, paths, k - 1);
      assert Exists(env, map[], OutputName(env.outputDir, paths[k - 1]));
    }
  }

  /** The files on disk after a run: those that existed, and those it saved. */
  function After(env: Env, p: Progress): Env {
    env.(existed := n => env.existed(n) || n in p.saved)
  }

  /** Running again after a completed run over `.npy` artifacts, with its
      files on disk, saves nothing and returns `[]`. */
  lemma RerunDoesNothing(env: Env, run: string -> Result<Grid>, paths: seq<string>)
    ensures var first := InferenceAfter(env, run, paths, |paths|);
            first.failure.None? && NpyArtifacts(paths) ==>
              InferenceAfter(After(env, first), run, paths, |paths|) == Progress([], map[], None)
  {
    var first := InferenceAfter(env, run, paths, |paths|);
    if first.failure.None? && NpyArtifacts(paths) {
      var again := After(env, first);
      CompletedCoversAll(env, run, paths, |paths|);
      forall i | 0 <= i < |paths| ensures again.existed(OutputName(env.outputDir, paths[i])) {
        OutputNameEndsNpy(env.outputDir, paths[i]);
        assert Covered(env, first.saved, OutputName(env.outputDir, paths[i]));
      }
      AllDoneSkipsAll(again, run, paths, |paths|);
    }
  }

  /** An artifact whose output name lacks `.npy` is never skipped unless
      that very name existed before the run: `np.save` wrote its array
      under the suffixed name, which the existence check does not look at. */
  lemma UnsuffixedNeverSkipped(env: Env, run: string -> Result<Grid>, paths: seq<string>, k: nat)
    requires k < |paths|
    ensures var n, p := OutputName(env.outputDir, paths[k]), InferenceAfter(env, run, paths, k);
            !EndsNpy(n) && !env.existed(n) && p.failure.None? ==>
              !Exists(env, p.saved, n)
              && (InferenceAfter(env, run, paths, k + 1).failure.Some?
                  || InferenceAfter(env, run, paths, k + 1).result == p.result + [n])
  {
    SavedKeysNpy(env, run, paths, k);
  }

  /** So a second run after a completed one regenerates an unsuffixed
      artifact that did not exist before: it either raises again or
      returns a non-empty list. */
  lemma RerunRepeatsUnsuffixed(env: Env, run: string -> Result<Grid>, paths: seq<string>)
    requires |paths| > 0
    ensures var first, n := InferenceAfter(env, run, paths, |paths|), OutputName(env.outputDir, paths[0]);
            var second := InferenceAfter(After(env, first), run, paths, |paths|);
            first.failure.None? && !EndsNpy(n) && !env.existed(n) ==>
              second.failure.Some? || |second.result| > 0
  {
    var first := InferenceAfter(env, run, paths, |paths|);
    var again := After(env, first);
    var n := OutputName(env.outputDir, paths[0]);
    if first.failure.None? && !EndsNpy(n) && !env.existed(n) {
      SavedKeysNpy(env, run, paths, |paths|);
      assert !again.existed(n);
      UnsuffixedNeverSkipped(again, run, paths, 0);
      var one := InferenceAfter(again, run, paths, 1);
      if one.failure.Some? {
        FailureSticks(again, run, paths, 1, |paths|);
      } else {
        ResultGrows(again, run, paths, 1, |paths|);
      }
    }
  }

  /** A later artifact with the base name of an earlier one is skipped
      when that name ends with `.npy`: its output file is the earlier
      artifact's, which exists by then. */
  lemma DuplicateSkipped(env: Env, run: string -> Result<Grid>, paths: seq<string>, i: nat, j: nat)
    requires i < j < |paths|
    ensures Basename(paths[i]) == Basename(paths[j]) && EndsNpy(Basename(paths[j])) ==>
              InferenceAfter(env, run, paths, j + 1) == InferenceAfter(env, run, paths, j)
  {
    var p := InferenceAfter(env, run, paths, j);
    if Basename(paths[i]) == Basename(paths[j]) && EndsNpy(Basename(paths[j])) && p.failure.None? {
      CompletedCoversAll(env, run, paths, j);
      OutputNameCollides(env.outputDir, paths[i], paths[j]);
      OutputNameEndsNpy(env.outputDir, paths[j]);
      assert Exists(env, p.saved, OutputName(env.outputDir, paths[j]));
    }
  }

  /** The progress after one more artifact; after an exception it is the
      loop's final state. */
  lemma NextProgress(env: Env, run: string -> Result<Grid>, paths: seq<string>, i: nat, q: Progress)
    requires i < |paths| && InferenceAfter(env, run, paths, i).failure.None?
    requires q == Step(env, run, InferenceAfter(env, run, paths, i), paths[i])
    ensures InferenceAfter(env, run, paths, i + 1) == q
    ensures q.failure.Some? ==> InferenceAfter(env, run, paths, |paths|) == q
  {
    if q.failure.Some? {
      FailureSticks(env, run, paths, i + 1, |paths|);
    }
  }

  // ---------------------------------------------------------------------
  // The loop

  /** `run` is the stage-2 pass of `env` over each artifact. */
  ghost predicate IsPass(env: Env, run: string -> Result<Grid>) {
    forall path {:trigger FileCodes(env.tk, env.sc, env.model, env.load(path), env.batchSize)} ::
      run(path) == FileCodes(env.tk, env.sc, env.model, env.load(path), env.batchSize)
  }

  lemma RunOfIsPass(env: Env)
    ensures IsPass(env, RunOf(env))
  {
    forall path ensures RunOf(env)(path) == FileCodes(env.tk, env.sc, env.model, env.load(path), env.batchSize) {
    }
  }

  /** `stage2_inference(model, stage1_output_set, stage2_output_dir, batch_size)`. */
  method Stage2Inference(env: Env, paths: seq<string>) returns (p: Progress)
    ensures p == InferenceAfter(env, RunOf(env), paths, |paths|)
  {
    RunOfIsPass(env);
    p := InferenceLoop(env, RunOf(env), paths);
  }

  /** The loop over the artifacts, for the pass `run` that the body performs. */
  method InferenceLoop(env: Env, ghost run: string -> Result<Grid>, paths: seq<string>) returns (p: Progress)
    requires IsPass(env, run)
    ensures p == InferenceAfter(env, run, paths, |paths|)
  {
    p := Progress([], map[], None);
    var i := 0;
    while i < |paths|
      invariant 0 <= i <= |paths|
      invariant p == InferenceAfter(env, run, paths, i) && p.failure.None?
    {
      var q := Stage2Step(env, run, p, paths[i]);
      NextProgress(env, run, paths, i, q);
      p := q;
      if p.failure.Some? {
        return;
      }
      i := i + 1;
    }
  }

  /** One pass of the loop's body: skip the artifact if its output file
      exists, otherwise load it, run stage 2 over it and save the result. */
  method Stage2Step(env: Env, ghost run: string -> Result<Grid>, p: Progress, path: string) returns (q: Progress)
    requires p.failure.None? && IsPass(env, run)
    ensures q == Step(env, run, p, path)
  {
    var name := OutputName(env.outputDir, path);
    if env.existed(name) || name in p.saved {
      return p;
    }
    var codes := Stage2File(env.tk, env.sc, env.model, env.load(path), env.batchSize);
    if codes.Err? {
      return Progress(p.result, p.saved, Some(codes.error));
    }
    q := Progress(p.result + [name], p.saved[SavedName(name) := codes.value], None);
  }
}
