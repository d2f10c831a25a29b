/** The lyric splitter: `re.findall(r"\[(\w+)\](.*?)\n(?=\[|\Z)", lyrics,
    re.DOTALL)`, each match rendered as "[label]\n" + stripped body + "\n\n".

    The regular expression is replaced by a hand-written scanner. At a
    position holding '[' it reads the longest run of word characters, which
    must be non-empty and followed by ']'; the body is then the SHORTEST
    text (newlines included) that is followed by a newline standing right
    before '[' or at the very end of the input. The scan is leftmost-first
    and resumes after the consumed newline, as `findall` does. */
module Lyrics {
  import opened Outcomes

  /** `\w`, restricted to ASCII letters, digits and underscore. */
  predicate IsWordChar(c: char) {
    ('a' <= c <= 'z') || ('A' <= c <= 'Z') || ('0' <= c <= '9') || c == '_'
  }

  /** The characters Python's `str.isspace` accepts (so `str.strip` removes them). */
  predicate IsSpace(c: char) {
    var n := c as int;
    (9 <= n <= 13) || (28 <= n <= 32) || n == 0x85 || n == 0xA0 || n == 0x1680
    || (0x2000 <= n <= 0x200A) || n == 0x2028 || n == 0x2029 || n == 0x202F
    || n == 0x205F || n == 0x3000
  }

  // ---------------------------------------------------------------------
  // str.strip()

  function SkipSpaces(s: string, k: nat): (i: nat)
    requires k <= |s|
    ensures k <= i <= |s|
    ensures forall m :: k <= m < i ==> IsSpace(s[m])
    ensures i < |s| ==> !IsSpace(s[i])
    decreases |s| - k
  {
    if k == |s| || !IsSpace(s[k]) then k else SkipSpaces(s, k + 1)
  }

  function SkipSpacesBack(s: string, k: nat): (j: nat)
    requires k <= |s|
    ensures j <= k
    ensures forall m :: j <= m < k ==> IsSpace(s[m])
    ensures 0 < j ==> !IsSpace(s[j - 1])
  {
    if k == 0 || !IsSpace(s[k - 1]) then k else SkipSpacesBack(s, k - 1)
  }

  /** Index of the first character `strip` keeps. */
  function StripStart(s: string): (i: nat)
    ensures i <= |s|
    ensures forall m :: 0 <= m < i ==> IsSpace(s[m])
    ensures i < |s| ==> !IsSpace(s[i])
  {
    SkipSpaces(s, 0)
  }

  /** Index just past the last character `strip` keeps. */
  function StripEnd(s: string): (j: nat)
    ensures StripStart(s) <= j <= |s|
    ensures forall m :: j <= m < |s| ==> IsSpace(s[m])
    ensures StripStart(s) < j ==> !IsSpace(s[j - 1])
  {
    var i, j := StripStart(s), SkipSpacesBack(s, |s|);
    if j < i then i else j
  }

  /** `s.strip()`: the infix of `s` left after removing leading and trailing
      white space; it neither starts nor ends with white space. */
  function Strip(s: string): (r: string)
    ensures r == s[StripStart(s)..StripEnd(s)]
    ensures r == [] || (!IsSpace(r[0]) && !IsSpace(r[|r| - 1]))
  {
    s[StripStart(s)..StripEnd(s)]
  }

  // ---------------------------------------------------------------------
  // The scanner

  /** One regular-expression match: the two captured groups, where the match
      starts (at '[') and where it ends (just after the consumed newline). */
  datatype Match = Match(start: nat, name: string, body: string, end: nat)

  /** A newline that the lookahead `(?=\[|\Z)` accepts. */
  predicate IsTerminator(s: string, j: int) {
    0 <= j < |s| && s[j] == '\n' && (j + 1 == |s| || s[j + 1] == '[')
  }

  /** What it means for `m` to be the match of the pattern that starts at
      `m.start`, stated without the scanner. */
  ghost predicate IsMatch(s: string, m: Match) {
    var q := m.start + 1 + |m.name|;
    var j := m.end - 1;
    && |m.name| >= 1
    && q + 1 <= j < |s|
    && s[m.start] == '['
    && s[m.start + 1..q] == m.name
    && (forall k :: 0 <= k < |m.name| ==> IsWordChar(m.name[k]))
    && s[q] == ']'
    && s[q + 1..j] == m.body
    && IsTerminator(s, j)
    && (forall k :: q + 1 <= k < j ==> !IsTerminator(s, k))
  }

  /** End of the run of word characters that starts at `k`. */
  function WordRunEnd(s: string, k: nat): (e: nat)
    requires k <= |s|
    ensures k <= e <= |s|
    ensures forall m :: k <= m < e ==> IsWordChar(s[m])
    ensures e < |s| ==> !IsWordChar(s[e])
    decreases |s| - k
  {
    if k == |s| || !IsWordChar(s[k]) then k else WordRunEnd(s, k + 1)
  }

  /** The first terminating newline at or after `k`, if any. */
  function NextTerminator(s: string, k: nat): (r: Option<nat>)
    requires k <= |s|
    ensures r.Some? ==> k <= r.value && IsTerminator(s, r.value)
    ensures r.Some? ==> forall m :: k <= m < r.value ==> !IsTerminator(s, m)
    ensures r.None? ==> forall m :: k <= m < |s| ==> !IsTerminator(s, m)
    decreases |s| - k
  {
    if k == |s| then None
    else if IsTerminator(s, k) then Some(k)
    else NextTerminator(s, k + 1)
  }

  /** The match of the pattern anchored at position `p`, if there is one. */
  function MatchAt(s: string, p: nat): Option<Match> {
    if p < |s| && s[p] == '[' then
      var q := WordRunEnd(s, p + 1);
      if p + 1 < q < |s| && s[q] == ']' then
        match NextTerminator(s, q + 1)
        case Some(j) => Some(Match(p, s[p + 1..q], s[q + 1..j], j + 1))
        case None => None
      else None
    else None
  }

  /** The scanner finds exactly the matches the pattern describes. */
  lemma MatchAtCorrect(s: string, p: nat, m: Match)
    ensures MatchAt(s, p) == Some(m) <==> (m.start == p && IsMatch(s, m))
  {
    if m.start == p && IsMatch(s, m) {
      var q := p + 1 + |m.name|;
      var j := m.end - 1;
      forall k | p + 1 <= k < q ensures IsWordChar(s[k]) {
        assert s[k] == m.name[k - (p + 1)];
      }
      assert !IsWordChar(s[q]);
      assert WordRunEnd(s, p + 1) == q;
      assert IsTerminator(s, j);
      assert NextTerminator(s, q + 1) == Some(j);
    }
  }

  ghost predicate Covers(ms: seq<Match>, p: int) {
    exists i :: 0 <= i < |ms| && ms[i].start <= p < ms[i].end
  }

  /** `findall` from position `pos`: the matches the scanner finds, in
      document order and none overlapping the next. */
  function FindAll(s: string, pos: nat): (ms: seq<Match>)
    ensures forall i :: 0 <= i < |ms| ==> pos <= ms[i].start && MatchAt(s, ms[i].start) == Some(ms[i])
    ensures forall i :: 0 <= i < |ms| - 1 ==> ms[i].end <= ms[i + 1].start
    decreases |s| - pos
  {
    if pos >= |s| then []
    else match MatchAt(s, pos)
      case Some(m) => [m] + FindAll(s, m.end)
      case None => FindAll(s, pos + 1)
  }

  /** Every reported match is a match of the pattern. */
  lemma FindAllSound(s: string, pos: nat, i: nat)
    requires i < |FindAll(s, pos)|
    ensures IsMatch(s, FindAll(s, pos)[i])
  {
    var m := FindAll(s, pos)[i];
    MatchAtCorrect(s, m.start, m);
  }

  /** Leftmost-first: every position from `pos` on where the pattern matches
      lies inside a reported match, so no match is skipped. */
  lemma {:induction false} FindAllComplete(s: string, pos: nat, p: nat)
    requires pos <= p < |s| && MatchAt(s, p).Some?
    ensures Covers(FindAll(s, pos), p)
    decreases |s| - pos
  {
    var ms := FindAll(s, pos);
    match MatchAt(s, pos)
    case Some(m) =>
      assert ms == [m] + FindAll(s, m.end);
      if p < m.end {
        assert ms[0] == m;
        MatchAtCorrect(s, pos, m);
      } else {
        FindAllComplete(s, m.end, p);
        var rest := FindAll(s, m.end);
        var i :| 0 <= i < |rest| && rest[i].start <= p < rest[i].end;
        assert ms[i + 1] == rest[i];
      }
    case None =>
      if p == pos {
        assert false;
      } else {
        FindAllComplete(s, pos + 1, p);
      }
  }

  /** One lyric section as the prompt shows it. */
  function Render(m: Match): string {
    "[" + m.name + "]\n" + Strip(m.body) + "\n\n"
  }

  /** `split_lyrics`: every match, in document order, rendered. */
  function SplitLyrics(text: string): (sections: seq<string>)
    ensures |sections| == |FindAll(text, 0)|
    ensures forall i :: 0 <= i < |sections| ==> sections[i] == Render(FindAll(text, 0)[i])
  {
    var ms := FindAll(text, 0);
    seq(|ms|, i requires 0 <= i < |ms| => Render(ms[i]))
  }
}
