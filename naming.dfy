/** The file names of the stage-1 artifacts: the genre text with spaces
    turned into dashes, the fixed sampling parameters, the token budget,
    the track and the run's random id, with every dot turned into `@`, and
    then the `.npy` extension. */
module Naming {

  /** `s.replace(a, b)` for single characters. */
  function ReplaceChar(s: string, a: char, b: char): (r: string)
    ensures |r| == |s|
    ensures forall i :: 0 <= i < |r| ==> r[i] == (if s[i] == a then b else s[i])
  {
    if |s| == 0 then [] else [if s[0] == a then b else s[0]] + ReplaceChar(s[1..], a, b)
  }

  /** Python's `str(n)` for a natural number. */
  function NatToString(n: nat): (r: string)
    ensures |r| > 0
    ensures forall i :: 0 <= i < |r| ==> '0' <= r[i] <= '9'
  {
    var digit := ['0' + (n % 10) as char];
    if n < 10 then digit else NatToString(n / 10) + digit
  }

  /** Python's `str(n)` for an integer. */
  function IntToString(n: int): (r: string)
    ensures forall i :: 0 <= i < |r| ==> r[i] == '-' || '0' <= r[i] <= '9'
  {
    if n < 0 then "-" + NatToString(-n) else NatToString(n)
  }

  /** The sampling parameters as formatted into the name:
      `top_p = 0.93`, `temperature = 1.0`, `repetition_penalty = 1.2`. */
  const SamplingTag: string := "_tp0.93_T1.0_rp1.2"

  /** The two stage-1 tracks. */
  datatype Track = Vocal | Instrumental

  function TrackName(t: Track): string {
    match t
    case Vocal => "vocal"
    case Instrumental => "instrumental"
  }

  /** The name before the extension, dots already replaced. */
  function Stem(genres: string, maxNewTokens: int, track: Track, randomId: string): string {
    ReplaceChar("cot_" + ReplaceChar(genres, ' ', '-') + SamplingTag + "_maxtk" + IntToString(maxNewTokens)
                + "_" + TrackName(track) + "_" + randomId, '.', '@')
  }

  /** The artifact's file name. */
  function ArtifactName(genres: string, maxNewTokens: int, track: Track, randomId: string): string {
    Stem(genres, maxNewTokens, track, randomId) + ".npy"
  }

  /** The name's only dot is the one of the extension, and the genre text
      follows `cot_` with spaces turned into dashes and dots into `@`. */
  lemma OnlyExtensionDot(genres: string, maxNewTokens: int, track: Track, randomId: string)
    ensures var name := ArtifactName(genres, maxNewTokens, track, randomId);
            && |name| >= 4 && name[|name| - 4..] == ".npy"
            && (forall i :: 0 <= i < |name| - 4 ==> name[i] != '.')
            && (forall i :: 0 <= i < |genres| ==>
                  name[4 + i] == if genres[i] == ' ' then '-' else if genres[i] == '.' then '@' else genres[i])
  {
    var stem := Stem(genres, maxNewTokens, track, randomId);
    var name := ArtifactName(genres, maxNewTokens, track, randomId);
    assert name[..|stem|] == stem;
    forall i | 0 <= i < |name| - 4
      ensures name[i] != '.'
    {
      assert name[i] == stem[i];
    }
    var raw := "cot_" + ReplaceChar(genres, ' ', '-') + SamplingTag + "_maxtk" + IntToString(maxNewTokens)
               + "_" + TrackName(track) + "_" + randomId;
    forall i | 0 <= i < |genres|
      ensures name[4 + i] == if genres[i] == ' ' then '-' else if genres[i] == '.' then '@' else genres[i]
    {
      assert raw[4 + i] == ReplaceChar(genres, ' ', '-')[i];
      assert name[4 + i] == stem[4 + i];
    }
  }

  /** The prefix shared by both tracks' names. */
  function Prefix(genres: string, maxNewTokens: int): string {
    "cot_" + ReplaceChar(genres, ' ', '-') + SamplingTag + "_maxtk" + IntToString(maxNewTokens) + "_"
  }

  /** The vocal and the instrumental artifact of a run never share a name. */
  lemma TrackNamesDiffer(genres: string, maxNewTokens: int, randomId: string)
    ensures ArtifactName(genres, maxNewTokens, Vocal, randomId) != ArtifactName(genres, maxNewTokens, Instrumental, randomId)
  {
    var p := Prefix(genres, maxNewTokens);
    var rv := p + "vocal" + "_" + randomId;
    var ri := p + "instrumental" + "_" + randomId;
    assert rv[|p|] == 'v' && ri[|p|] == 'i';
    assert Stem(genres, maxNewTokens, Vocal, randomId)[|p|] == 'v';
    assert Stem(genres, maxNewTokens, Instrumental, randomId)[|p|] == 'i';
    assert ArtifactName(genres, maxNewTokens, Vocal, randomId)[|p|] == 'v';
  }
}
