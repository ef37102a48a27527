/** LeaderboardManager.isTopTen of leaderboard.js: whether a final distance
    earns a place on the stored top-ten list. The list itself comes from the
    leaderboard service; only the rule that reads it is modelled. */
module Leaderboard {

  /** One stored entry: a player's initial and the distance it scored. */
  datatype ScoreEntry = ScoreEntry(initial: string, score: int)

  /** The number of places on the board. */
  const Places: nat := 10

  /** isTopTen(score) over the stored scores: a board with fewer than ten
      entries takes any score; a full board takes only a score strictly
      above its tenth entry. */
  function IsTopTen(scores: seq<ScoreEntry>, score: int): (r: bool)
    ensures |scores| < Places ==> r
    ensures |scores| >= Places ==> (r <==> score > scores[Places - 1].score)
  {
    if |scores| < Places then true
    else score > scores[Places - 1].score
  }

  /** The order the service hands the list back in: best score first. */
  predicate Ranked(scores: seq<ScoreEntry>)
  {
    forall i, j :: 0 <= i < j < |scores| ==> scores[i].score >= scores[j].score
  }

  /** How many stored entries score at least `score`. */
  function AtLeast(scores: seq<ScoreEntry>, score: int): (n: nat)
    ensures n <= |scores|
  {
    if scores == [] then 0
    else (if scores[0].score >= score then 1 else 0) + AtLeast(scores[1..], score)
  }

  /** Counting over a concatenation adds the counts of the two parts. */
  lemma {:induction false} AtLeastAppend(a: seq<ScoreEntry>, b: seq<ScoreEntry>, score: int)
    ensures AtLeast(a + b, score) == AtLeast(a, score) + AtLeast(b, score)
  {
    if a == [] {
      assert a + b == b;
    } else {
      assert (a + b)[1..] == a[1..] + b;
      AtLeastAppend(a[1..], b, score);
    }
  }

  /** When every entry scores at least `score`, all of them are counted. */
  lemma {:induction false} AtLeastAll(scores: seq<ScoreEntry>, score: int)
    requires forall j :: 0 <= j < |scores| ==> scores[j].score >= score
    ensures AtLeast(scores, score) == |scores|
  {
    if scores != [] {
      AtLeastAll(scores[1..], score);
    }
  }

  /** When every entry scores below `score`, none of them is counted. */
  lemma {:induction false} AtLeastNone(scores: seq<ScoreEntry>, score: int)
    requires forall j :: 0 <= j < |scores| ==> scores[j].score < score
    ensures AtLeast(scores, score) == 0
  {
    if scores != [] {
      AtLeastNone(scores[1..], score);
    }
  }

  /** On a ranked board, isTopTen holds exactly when the score would rank
      within the first ten places: fewer than ten stored entries are as good
      as it. A tie with the tenth entry therefore does not qualify. */
  lemma TopTenIsRank(scores: seq<ScoreEntry>, score: int)
    requires Ranked(scores)
    ensures IsTopTen(scores, score) <==> AtLeast(scores, score) < Places
  {
    if |scores| >= Places {
      var k := Places - 1;
      if score > scores[k].score {
        assert scores == scores[..k] + scores[k..];
        AtLeastAppend(scores[..k], scores[k..], score);
        assert forall j :: 0 <= j < |scores[k..]| ==> scores[k..][j].score < score by {
          forall j | 0 <= j < |scores[k..]|
            ensures scores[k..][j].score < score
          {
            assert scores[k..][j] == scores[k + j];
          }
        }
        AtLeastNone(scores[k..], score);
      } else {
        assert scores == scores[..Places] + scores[Places..];
        AtLeastAppend(scores[..Places], scores[Places..], score);
        AtLeastAll(scores[..Places], score);
      }
    }
  }

  /** A score that qualifies keeps qualifying when it is higher. */
  lemma TopTenMonotone(scores: seq<ScoreEntry>, s1: int, s2: int)
    requires s1 <= s2 && IsTopTen(scores, s1)
    ensures IsTopTen(scores, s2)
  {
  }

  /** The rule reads only the board's length and its tenth score: boards that
      agree on those give the same answer for every score, whatever their
      entries beyond the tenth. */
  lemma TopTenReadsTenth(a: seq<ScoreEntry>, b: seq<ScoreEntry>, score: int)
    requires |a| < Places <==> |b| < Places
    requires |a| >= Places ==> a[Places - 1].score == b[Places - 1].score
    ensures IsTopTen(a, score) == IsTopTen(b, score)
  {
  }
}
