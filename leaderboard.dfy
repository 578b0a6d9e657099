/**
 * `useLeaderboard`: every registered player gets a score (a failed or non-OK fetch, or a
 * falsy score, counts as 0), the players are sorted by score, highest first, with a stable
 * sort, numbered 1..n in that order, and summarised by count, highest and rounded mean score.
 */
module Leaderboard {
  import opened Common

  datatype Player = Player(address: string, score: nat, position: nat)

  datatype Stats = Stats(totalPlayers: nat, highestScore: nat, averageScore: nat)

  /**
   * How the per-player score request ended: the request threw, the response was not OK, or
   * the JSON body arrived with `score` (`None` when that field is falsy: missing, null or 0).
   */
  datatype ScoreFetch = FetchThrew | NotOk | Fetched(score: Option<nat>)

  /** The score recorded for a player: `data.score || 0`, and 0 on any failure. */
  function ScoreOf(f: ScoreFetch): (r: nat)
    ensures f.Fetched? && f.score.Some? ==> r == f.score.value
    ensures !f.Fetched? || f.score.None? ==> r == 0
  {
    match f
    case Fetched(Some(s)) => s
    case _ => 0
  }

  /** The players before sorting, one per address, in the order of the address list. */
  function Unranked(addresses: seq<string>, fetch: string -> ScoreFetch): (r: seq<Player>)
    ensures |r| == |addresses|
    ensures forall i :: 0 <= i < |r| ==>
              r[i].address == addresses[i] && r[i].score == ScoreOf(fetch(addresses[i])) && r[i].position == 0
  {
    seq(|addresses|, i requires 0 <= i < |addresses| => Player(addresses[i], ScoreOf(fetch(addresses[i])), 0))
  }

  /** Scores never increase along the list. */
  predicate SortedByScore(s: seq<Player>) {
    forall i, j :: 0 <= i < j < |s| ==> s[i].score >= s[j].score
  }

  /** The players of `s` with score `k`, in their order in `s`. */
  function WithScore(s: seq<Player>, k: nat): seq<Player> {
    if s == [] then []
    else (if s[0].score == k then [s[0]] else []) + WithScore(s[1..], k)
  }

  /** Insert `p` into a list sorted by score, ahead of every player whose score it equals. */
  function Insert(p: Player, s: seq<Player>): (r: seq<Player>)
    ensures |r| == |s| + 1
    ensures multiset(r) == multiset(s) + multiset{p}
  {
    if s == [] || p.score >= s[0].score then [p] + s
    else
      assert s == [s[0]] + s[1..];
      [s[0]] + Insert(p, s[1..])
  }

  /** Inserting into a sorted list keeps it sorted. */
  lemma {:induction false} InsertSorted(p: Player, s: seq<Player>)
    requires SortedByScore(s)
    ensures SortedByScore(Insert(p, s))
  {
    if s != [] && p.score < s[0].score {
      var rest := Insert(p, s[1..]);
      InsertSorted(p, s[1..]);
      assert s == [s[0]] + s[1..];
      forall j | 0 <= j < |rest| ensures rest[j].score <= s[0].score {
        assert rest[j] in multiset(rest);
        if rest[j] != p {
          assert rest[j] in multiset(s[1..]);
          var k :| 0 <= k < |s[1..]| && s[1..][k] == rest[j];
          assert s[k + 1] == rest[j];
        }
      }
      assert Insert(p, s) == [s[0]] + rest;
    }
  }

  /**
   * `playersWithScores.sort((a, b) => b.score - a.score)`: a stable sort, highest score first,
   * here as insertion sort.
   */
  function SortByScore(s: seq<Player>): (r: seq<Player>)
    ensures |r| == |s|
    ensures SortedByScore(r)
    ensures multiset(r) == multiset(s)
  {
    if s == [] then []
    else
      assert s == [s[0]] + s[1..];
      InsertSorted(s[0], SortByScore(s[1..]));
      Insert(s[0], SortByScore(s[1..]))
  }

  lemma {:induction false} InsertWithScore(p: Player, s: seq<Player>, k: nat)
    requires SortedByScore(s)
    ensures WithScore(Insert(p, s), k) == (if p.score == k then [p] else []) + WithScore(s, k)
  {
    if s == [] || p.score >= s[0].score {
      assert ([p] + s)[1..] == s;
    } else {
      InsertWithScore(p, s[1..], k);
      assert ([s[0]] + Insert(p, s[1..]))[1..] == Insert(p, s[1..]);
    }
  }

  /**
   * Stability: players with equal scores keep the relative order they had in the address
   * list, for every score.
   */
  lemma {:induction false} SortIsStable(s: seq<Player>, k: nat)
    ensures WithScore(SortByScore(s), k) == WithScore(s, k)
  {
    if s != [] {
      SortIsStable(s[1..], k);
      InsertWithScore(s[0], SortByScore(s[1..]), k);
    }
  }

  /** `.map((player, index) => ({ ...player, position: index + 1 }))`. */
  function Numbered(s: seq<Player>): (r: seq<Player>)
    ensures |r| == |s|
    ensures forall i :: 0 <= i < |r| ==> r[i] == s[i].(position := i + 1)
  {
    seq(|s|, i requires 0 <= i < |s| => s[i].(position := i + 1))
  }

  /** The published list: sorted, then numbered. */
  function Rank(s: seq<Player>): seq<Player> {
    Numbered(SortByScore(s))
  }

  /**
   * What the leaderboard promises about its list: same length, positions 1..n in list order,
   * scores non-increasing, and apart from the positions a stable reordering of the input.
   */
  lemma RankSpec(s: seq<Player>)
    ensures |Rank(s)| == |s|
    ensures forall i :: 0 <= i < |s| ==> Rank(s)[i].position == i + 1
    ensures SortedByScore(Rank(s))
    ensures forall i :: 0 <= i < |s| ==> Rank(s)[i] == SortByScore(s)[i].(position := i + 1)
    ensures multiset(SortByScore(s)) == multiset(s)
    ensures forall k: nat :: WithScore(SortByScore(s), k) == WithScore(s, k)
  {
    forall k: nat ensures WithScore(SortByScore(s), k) == WithScore(s, k) {
      SortIsStable(s, k);
    }
  }

  function Max(a: nat, b: nat): nat {
    if a >= b then a else b
  }

  /** `Math.max(...scores, 0)`. */
  function HighestScore(s: seq<Player>): (r: nat)
    ensures forall i :: 0 <= i < |s| ==> s[i].score <= r
    ensures r == 0 || exists i :: 0 <= i < |s| && s[i].score == r
  {
    if s == [] then 0
    else
      var rest := HighestScore(s[1..]);
      assert forall i :: 1 <= i < |s| ==> s[i] == s[1..][i - 1];
      Max(s[0].score, rest)
  }

  /** In a sorted non-empty list the highest score is the first player's. */
  lemma HighestIsFirst(s: seq<Player>)
    requires SortedByScore(s) && s != []
    ensures HighestScore(s) == s[0].score
  {
    if HighestScore(s) != 0 {
      var i :| 0 <= i < |s| && s[i].score == HighestScore(s);
      assert s[0].score >= s[i].score;
    }
  }

  /** The sum of all scores. */
  function TotalScore(s: seq<Player>): nat {
    if s == [] then 0 else s[0].score + TotalScore(s[1..])
  }

  /**
   * `Math.round(sum / n)` for n > 0: the integer nearest to the mean, halves rounded up;
   * 0 for an empty list.
   */
  function RoundedMean(sum: nat, n: nat): (r: nat)
    ensures n > 0 ==> 2 * n * r <= 2 * sum + n < 2 * n * r + 2 * n
    ensures n == 0 ==> r == 0
  {
    if n == 0 then 0
    else
      var q := (2 * sum + n) / (2 * n);
      assert 2 * n * q <= 2 * sum + n < 2 * n * q + 2 * n by {
        var d := 2 * n;
        var a := 2 * sum + n;
        assert a == d * (a / d) + a % d;
      }
      q
  }

  /** The stats published with the list. */
  function ComputeStats(s: seq<Player>): (r: Stats)
    ensures r.totalPlayers == |s|
    ensures |s| == 0 ==> r == Stats(0, 0, 0)
  {
    Stats(|s|, HighestScore(s), if |s| > 0 then RoundedMean(TotalScore(s), |s|) else 0)
  }

  /** No score exceeds the highest, so neither does their sum exceed n times it. */
  lemma {:induction false} TotalAtMost(s: seq<Player>, m: nat)
    requires forall i :: 0 <= i < |s| ==> s[i].score <= m
    ensures TotalScore(s) <= |s| * m
  {
    if s != [] {
      assert forall i :: 0 <= i < |s[1..]| ==> s[1..][i].score <= m by {
        forall i | 0 <= i < |s[1..]| ensures s[1..][i].score <= m {
          assert s[1..][i] == s[i + 1];
        }
      }
      TotalAtMost(s[1..], m);
    }
  }

  /** Multiplying by a positive factor preserves strict order. */
  lemma CancelFactor(n: nat, a: nat, b: nat)
    requires n > 0 && n * a < n * b
    ensures a < b
  {
  }

  /** A rounded mean of values bounded by `m` is itself at most `m`. */
  lemma MeanAtMost(sum: nat, n: nat, m: nat)
    requires n > 0 && sum <= n * m
    ensures RoundedMean(sum, n) <= m
  {
    var r := RoundedMean(sum, n);
    var d := 2 * n;
    assert d * r <= 2 * sum + n;
    assert d * (m + 1) == 2 * (n * m) + d;
    CancelFactor(d, r, m + 1);
  }

  /** The average never exceeds the highest score. */
  lemma AverageAtMostHighest(s: seq<Player>)
    ensures ComputeStats(s).averageScore <= ComputeStats(s).highestScore
  {
    if |s| > 0 {
      TotalAtMost(s, HighestScore(s));
      MeanAtMost(TotalScore(s), |s|, HighestScore(s));
    }
  }

  /** The state `useLeaderboard` keeps with `useState`. */
  class LeaderboardState {
    var players: seq<Player>
    var stats: Stats
    var isLoading: bool
    var error: Option<string>

    constructor ()
      ensures players == [] && stats == Stats(0, 0, 0) && isLoading && error == None
    {
      players := [];
      stats := Stats(0, 0, 0);
      isLoading := true;
      error := None;
    }

    /**
     * `fetchScores`. `addresses` is `getPlayers()` (`None` when it is absent or not an array);
     * `fetch` gives the outcome of each player's score request. No address yields an empty
     * board and leaves `error` as it was; otherwise the error is cleared and the ranked list and
     * its stats published. Either way loading ends.
     */
    method FetchScores(addresses: Option<seq<string>>, fetch: string -> ScoreFetch)
      modifies this
      ensures !isLoading
      ensures addresses.None? || addresses.value == [] ==>
                players == [] && stats == Stats(0, 0, 0) && error == old(error)
      ensures addresses.Some? && addresses.value != [] ==>
                players == Rank(Unranked(addresses.value, fetch)) && stats == ComputeStats(players) && error == None
    {
      if addresses.None? || addresses.value == [] {
        players := [];
        stats := Stats(0, 0, 0);
        isLoading := false;
        return;
      }
      isLoading := true;
      error := None;
      var sorted := Rank(Unranked(addresses.value, fetch));
      players := sorted;
      stats := ComputeStats(sorted);
      isLoading := false;
    }
  }

  /** The hook's reported `isLoading` and `error`. */
  datatype Report = Report(isLoading: bool, error: Option<string>)

  /**
   * `isLoading: playersLoading || isLoading` and `error: playersError?.message || error || null`:
   * the player-list read error wins over the score error; an empty message counts as none.
   */
  function Reported(playersLoading: bool, playersError: Option<string>, isLoading: bool, error: Option<string>): (r: Report)
    ensures r.isLoading <==> playersLoading || isLoading
    ensures Present(playersError) ==> r.error == playersError
    ensures !Present(playersError) && Present(error) ==> r.error == error
    ensures r.error.None? <==> !Present(playersError) && !Present(error)
  {
    Report(playersLoading || isLoading, if Present(playersError) then playersError else if Present(error) then error else None)
  }
}
