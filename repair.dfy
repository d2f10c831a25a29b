/** The repair of the stage-2 codes: every code outside `[0, 1023]` is
    replaced by the most frequent value of its row in the unrepaired array.
    `Counter` lists values in order of first occurrence and `sorted` is
    stable, so among equally frequent values the one met first wins. */
module Repair {
  import opened Collaborators

  /** A code the stage-2 codec can decode. */
  predicate ValidCode(c: int) {
    0 <= c <= MaxCode
  }

  predicate AllValid(s: seq<int>) {
    forall j :: 0 <= j < |s| ==> ValidCode(s[j])
  }

  /** How often `v` occurs in `s` (`Counter(s)[v]`). */
  function Count(s: seq<int>, v: int): nat {
    if |s| == 0 then 0 else (if s[0] == v then 1 else 0) + Count(s[1..], v)
  }

  /** Where `v` first occurs in `s`: the order in which `Counter` lists it. */
  function FirstIndex(s: seq<int>, v: int): (k: nat)
    requires v in s
    ensures k < |s| && s[k] == v && v !in s[..k]
  {
    if s[0] == v then 0
    else
      var k := FirstIndex(s[1..], v);
      assert s[..k + 1] == [s[0]] + s[1..][..k];
      k + 1
  }

  /** `m` is what `sorted(Counter(s).items(), key=count, reverse=True)[0][0]`
      picks: it occurs in `s`, no value occurs more often, and every value
      met before `m`'s first occurrence occurs strictly less often. */
  predicate IsMode(s: seq<int>, m: int) {
    && m in s
    && (forall k :: 0 <= k < |s| ==> Count(s, s[k]) <= Count(s, m))
    && (forall k :: 0 <= k < FirstIndex(s, m) ==> Count(s, s[k]) < Count(s, m))
  }

  /** A row has one mode at most. */
  lemma ModeUnique(s: seq<int>, a: int, b: int)
    requires IsMode(s, a) && IsMode(s, b)
    ensures a == b
  {
    var ia, ib := FirstIndex(s, a), FirstIndex(s, b);
    assert Count(s, s[ia]) <= Count(s, b) && Count(s, s[ib]) <= Count(s, a);
    assert ia == ib;
  }

  /** The state of a left-to-right scan after the first `i` positions: `best`
      is the mode of the whole row among the values met so far. */
  predicate ScanState(s: seq<int>, i: nat, best: int) {
    && 0 < i <= |s|
    && best in s
    && FirstIndex(s, best) < i
    && (forall k :: 0 <= k < i ==> Count(s, s[k]) <= Count(s, best))
    && (forall k :: 0 <= k < FirstIndex(s, best) ==> Count(s, s[k]) < Count(s, best))
  }

  /** The scan's candidate after looking at position `i`: a value replaces
      the candidate only when it occurs strictly more often. */
  function Better(s: seq<int>, i: nat, best: int): int
    requires i < |s|
  {
    if Count(s, s[i]) > Count(s, best) then s[i] else best
  }

  lemma ScanStep(s: seq<int>, i: nat, best: int)
    requires ScanState(s, i, best) && i < |s|
    ensures ScanState(s, i + 1, Better(s, i, best))
  {
    if Count(s, s[i]) > Count(s, best) {
      forall k | 0 <= k < i ensures s[k] != s[i] {
        assert Count(s, s[k]) <= Count(s, best);
      }
      var f := FirstIndex(s, s[i]);
    }
  }

  function ModeScan(s: seq<int>, i: nat, best: int): (m: int)
    requires ScanState(s, i, best)
    ensures IsMode(s, m)
    decreases |s| - i
  {
    if i == |s| then best
    else
      ScanStep(s, i, best);
      ModeScan(s, i + 1, Better(s, i, best))
  }

  /** The most frequent value of a non-empty row, ties going to the value
      met first. */
  function Mode(s: seq<int>): (m: int)
    requires |s| > 0
    ensures IsMode(s, m)
  {
    assert FirstIndex(s, s[0]) == 0;
    ModeScan(s, 1, s[0])
  }

  /** One row repaired against its own unrepaired values. */
  function RepairRow(line: seq<int>): (r: seq<int>)
    ensures |r| == |line|
    ensures forall j :: 0 <= j < |r| ==> if ValidCode(line[j]) then r[j] == line[j] else IsMode(line, r[j])
  {
    seq(|line|, j requires 0 <= j < |line| => if ValidCode(line[j]) then line[j] else Mode(line))
  }

  /** The whole array repaired, row by row; the shape is kept. */
  function Repaired(g: Grid): (r: Grid)
    ensures |r| == |g| && forall i :: 0 <= i < |r| ==> |r[i]| == |g[i]|
  {
    seq(|g|, i requires 0 <= i < |g| => RepairRow(g[i]))
  }

  /** Every repaired code is valid exactly when the row was already valid
      or its mode is a valid code. */
  lemma RepairedRowValid(line: seq<int>)
    ensures AllValid(RepairRow(line)) <==> AllValid(line) || (|line| > 0 && ValidCode(Mode(line)))
  {
    var r := RepairRow(line);
    if !AllValid(line) {
      var j :| 0 <= j < |line| && !ValidCode(line[j]);
      assert r[j] == Mode(line);
    }
    if |line| > 0 && ValidCode(Mode(line)) {
      forall j | 0 <= j < |r| ensures ValidCode(r[j]) {
        if !ValidCode(line[j]) {
          ModeUnique(line, r[j], Mode(line));
        }
      }
    }
  }

  lemma {:induction false} CountSame(s: seq<int>, r: seq<int>, v: int)
    requires |s| == |r|
    requires forall j :: 0 <= j < |s| ==> (s[j] == v <==> r[j] == v)
    ensures Count(s, v) == Count(r, v)
  {
    if |s| > 0 {
      assert s[0] == v <==> r[0] == v;
      CountSame(s[1..], r[1..], v);
    }
  }

  lemma {:induction false} CountMore(s: seq<int>, r: seq<int>, v: int)
    requires |s| == |r|
    requires forall j :: 0 <= j < |s| ==> s[j] == v ==> r[j] == v
    ensures Count(s, v) <= Count(r, v)
  {
    if |s| > 0 {
      assert s[0] == v ==> r[0] == v;
      CountMore(s[1..], r[1..], v);
    }
  }

  /** Repairing a row whose mode is invalid moves every invalid code to the
      mode; the mode of the result is the same value. */
  lemma ModeKept(line: seq<int>)
    requires |line| > 0 && !ValidCode(Mode(line))
    ensures IsMode(RepairRow(line), Mode(line))
  {
    var m := Mode(line);
    var r := RepairRow(line);
    var k0 := FirstIndex(line, m);
    assert r[k0] == m;
    CountMore(line, r, m);
    forall k | 0 <= k < |r| ensures Count(r, r[k]) <= Count(r, m) {
      if r[k] != m {
        SameCountForValid(line, k);
      }
    }
    var f := FirstIndex(r, m);
    forall k | 0 <= k < f ensures Count(r, r[k]) < Count(r, m) {
      assert r[..f][k] == r[k];
      SameCountForValid(line, k);
    }
  }

  /** A code the repair leaves in place occurs as often after it as before. */
  lemma SameCountForValid(line: seq<int>, k: nat)
    requires k < |line| && RepairRow(line)[k] != Mode(line)
    ensures ValidCode(line[k]) && RepairRow(line)[k] == line[k]
    ensures Count(RepairRow(line), line[k]) == Count(line, line[k])
  {
    var r := RepairRow(line);
    var m := Mode(line);
    var v := line[k];
    forall j | 0 <= j < |line| ensures line[j] == v <==> r[j] == v {
    }
    CountSame(line, r, v);
  }

  /** Repairing a row twice changes nothing more. */
  lemma RepairRowIdempotent(line: seq<int>)
    ensures RepairRow(RepairRow(line)) == RepairRow(line)
  {
    var r := RepairRow(line);
    if |line| > 0 && !ValidCode(Mode(line)) {
      ModeKept(line);
      ModeUnique(r, Mode(r), Mode(line));
    } else {
      RepairedRowValid(line);
    }
  }

  lemma RepairedIdempotent(g: Grid)
    ensures Repaired(Repaired(g)) == Repaired(g)
  {
    forall i | 0 <= i < |g| ensures Repaired(Repaired(g))[i] == Repaired(g)[i] {
      RepairRowIdempotent(g[i]);
    }
  }

  // ---------------------------------------------------------------------
  // The nested loops over the array

  /** Row `i` of a 2-D array. */
  function RowOf(a: array2<int>, i: nat): (line: seq<int>)
    reads a
    requires i < a.Length0
    ensures |line| == a.Length1 && forall j :: 0 <= j < |line| ==> line[j] == a[i, j]
  {
    seq(a.Length1, j requires 0 <= j < a.Length1 reads a => a[i, j])
  }

  /** The rows of a 2-D array. */
  function GridOf(a: array2<int>): (g: Grid)
    reads a
    ensures |g| == a.Length0 && forall i :: 0 <= i < |g| ==> g[i] == RowOf(a, i)
  {
    seq(a.Length0, i requires 0 <= i < a.Length0 reads a => RowOf(a, i))
  }

  /** `fixed_output = copy.deepcopy(output)`, then every out-of-range code
      of `fixed_output` set to the mode of its row of `output`. */
  method RepairInvalidCodes(output: array2<int>) returns (fixed: array2<int>)
    ensures fixed.Length0 == output.Length0 && fixed.Length1 == output.Length1
    ensures GridOf(fixed) == Repaired(GridOf(output))
  {
    var rows, cols := output.Length0, output.Length1;
    fixed := new int[rows, cols]((i, j) reads output requires 0 <= i < rows && 0 <= j < cols => output[i, j]);
    var i := 0;
    while i < rows
      invariant 0 <= i <= rows
      invariant forall r, c :: 0 <= r < rows && 0 <= c < cols ==>
                  fixed[r, c] == if r < i then RepairRow(RowOf(output, r))[c] else output[r, c]
    {
      RepairLine(output, fixed, i);
      i := i + 1;
    }
    forall r | 0 <= r < rows ensures GridOf(fixed)[r] == Repaired(GridOf(output))[r] {
      assert RowOf(fixed, r) == RepairRow(RowOf(output, r));
    }
  }

  /** The inner loop over the codes of row `i`. */
  method RepairLine(output: array2<int>, fixed: array2<int>, i: nat)
    requires fixed != output
    requires fixed.Length0 == output.Length0 && fixed.Length1 == output.Length1 && i < output.Length0
    requires forall c :: 0 <= c < fixed.Length1 ==> fixed[i, c] == output[i, c]
    modifies fixed
    ensures forall c :: 0 <= c < fixed.Length1 ==> fixed[i, c] == RepairRow(RowOf(output, i))[c]
    ensures forall r, c :: 0 <= r < fixed.Length0 && r != i && 0 <= c < fixed.Length1 ==> fixed[r, c] == old(fixed[r, c])
  {
    var line := RowOf(output, i);
    var j := 0;
    while j < fixed.Length1
      invariant 0 <= j <= fixed.Length1
      invariant forall c :: 0 <= c < j ==> fixed[i, c] == RepairRow(line)[c]
      invariant forall c :: j <= c < fixed.Length1 ==> fixed[i, c] == line[c]
      invariant forall r, c :: 0 <= r < fixed.Length0 && r != i && 0 <= c < fixed.Length1 ==> fixed[r, c] == old(fixed[r, c])
    {
      if line[j] < 0 || line[j] > MaxCode {
        fixed[i, j] := Mode(line);
      }
      j := j + 1;
    }
  }
}
