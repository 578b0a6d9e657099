/**
 * `useDiceGameEvents`: the two `onLogs` callbacks of the `PlayerWon` and `PlayerLost`
 * subscriptions. Each log of a batch is handled in order: a log whose player is the user
 * (compared case-insensitively) becomes the latest result and is prepended to a history
 * that keeps the ten newest results; any other log is ignored, and a log whose handling
 * throws is skipped.
 */
module GameEvents {
  import opened Common

  /** How many results the history keeps. */
  const HISTORY_LIMIT: nat := 10

  datatype Outcome = Won | Lost

  /**
   * A result as the hook records it. Amounts stay in wei: the ether text `formatEther` would
   * make of them is not modelled. `timestamp` is the clock reading `Date.now()`.
   */
  datatype GameResult = GameResult(
    outcome: Outcome,
    betAmount: nat,
    winningAmount: Option<nat>,
    rolledNumber: int,
    transactionHash: string,
    timestamp: int)

  /**
   * The decoded `args` of a log. `player` is `""` when absent; an amount is `None` when it is not
   * a bigint, and then `formatEther` throws. `winningAmount` is read only from `PlayerWon` logs.
   */
  datatype EventArgs = EventArgs(player: string, betAmount: Option<nat>, winningAmount: Option<nat>, rolledNumber: int)

  /** A log as delivered to `onLogs`; reading the players of a log without `args` throws. */
  datatype Log = Log(args: Option<EventArgs>, transactionHash: Option<string>)

  /** `address || privyAddress`: the connected account, else the first Privy wallet. */
  function UserAddress(account: Option<string>, wallets: seq<string>): (r: Option<string>)
    ensures Present(account) ==> r == account
    ensures !Present(account) && |wallets| > 0 ==> r == Some(wallets[0])
    ensures !Present(account) && |wallets| == 0 ==> r == None
  {
    OrElse(account, if |wallets| > 0 then Some(wallets[0]) else None)
  }

  /** `userAddress && player && player.toLowerCase() === userAddress.toLowerCase()`. */
  predicate IsUsersLog(user: Option<string>, player: string) {
    Present(user) && player != "" && SameAddress(player, user.value)
  }

  /** What handling one log amounts to. */
  datatype LogOutcome = Ignored | Threw | Recorded(result: GameResult)

  /** The body of the `forEach` callback for one log of an `outcome` subscription. */
  function HandleLog(outcome: Outcome, log: Log, user: Option<string>, now: int): (r: LogOutcome)
    ensures r.Recorded? ==> log.args.Some? && IsUsersLog(user, log.args.value.player)
    ensures log.args.Some? && !IsUsersLog(user, log.args.value.player) ==> r == Ignored
    ensures !Present(user) ==> !r.Recorded?
    ensures r.Recorded? ==> r.result.outcome == outcome && r.result.timestamp == now
    ensures r.Recorded? ==> (r.result.winningAmount.Some? <==> outcome == Won)
    ensures r.Recorded? ==> log.args.value.betAmount == Some(r.result.betAmount)
    ensures r.Recorded? && outcome == Won ==> r.result.winningAmount == log.args.value.winningAmount
    ensures r.Recorded? ==> r.result.rolledNumber == log.args.value.rolledNumber
    ensures r.Recorded? ==>
              r.result.transactionHash == (if log.transactionHash.Some? then log.transactionHash.value else "")
    ensures log.args.None? ==> r == Threw
    ensures log.args.Some? && IsUsersLog(user, log.args.value.player) ==>
              (r.Recorded? <==> log.args.value.betAmount.Some? &&
                                (outcome == Won ==> log.args.value.winningAmount.Some?))
  {
    match log.args
    case None => Threw
    case Some(args) =>
      if !IsUsersLog(user, args.player) then Ignored
      else if args.betAmount.None? then Threw
      else if outcome == Won && args.winningAmount.None? then Threw
      else
        var hash := if log.transactionHash.Some? then log.transactionHash.value else "";
        var winning := if outcome == Won then args.winningAmount else None;
        Recorded(GameResult(outcome, args.betAmount.value, winning, args.rolledNumber, hash, now))
  }

  /** The results a batch records, in the order of its logs. */
  function RecordedResults(outcome: Outcome, logs: seq<Log>, user: Option<string>, now: int): seq<GameResult>
  {
    if logs == [] then []
    else
      var last := HandleLog(outcome, logs[|logs| - 1], user, now);
      RecordedResults(outcome, logs[..|logs| - 1], user, now) + (if last.Recorded? then [last.result] else [])
  }

  /** Logs are handled independently: a batch records what its two halves record, in order. */
  lemma {:induction false} RecordedAppend(outcome: Outcome, a: seq<Log>, b: seq<Log>, user: Option<string>, now: int)
    ensures RecordedResults(outcome, a + b, user, now) ==
            RecordedResults(outcome, a, user, now) + RecordedResults(outcome, b, user, now)
  {
    if b != [] {
      var b' := b[..|b| - 1];
      assert (a + b)[..|a + b| - 1] == a + b';
      assert (a + b)[|a + b| - 1] == b[|b| - 1];
      RecordedAppend(outcome, a, b', user, now);
    } else {
      assert a + b == a;
    }
  }

  /** A log that throws, or that is not the user's, leaves the rest of its batch as it would be without it. */
  lemma SkippedLogChangesNothing(outcome: Outcome, a: seq<Log>, bad: Log, b: seq<Log>, user: Option<string>, now: int)
    requires !HandleLog(outcome, bad, user, now).Recorded?
    ensures RecordedResults(outcome, a + [bad] + b, user, now) == RecordedResults(outcome, a + b, user, now)
  {
    RecordedAppend(outcome, a + [bad], b, user, now);
    RecordedAppend(outcome, a, [bad], user, now);
    RecordedAppend(outcome, a, b, user, now);
    assert [bad][..0] == [];
  }

  /** Without a user address a batch records nothing. */
  lemma {:induction false} NoUserRecordsNothing(outcome: Outcome, logs: seq<Log>, now: int)
    ensures RecordedResults(outcome, logs, None, now) == []
  {
    if logs != [] {
      NoUserRecordsNothing(outcome, logs[..|logs| - 1], now);
    }
  }

  /** `[result, ...prev.slice(0, 9)]`. */
  function PushResult(r: GameResult, prev: seq<GameResult>): (h: seq<GameResult>)
    ensures |h| <= HISTORY_LIMIT
    ensures |h| == if |prev| < HISTORY_LIMIT then |prev| + 1 else HISTORY_LIMIT
    ensures h[0] == r && h[1..] == prev[..|h| - 1]
  {
    [r] + Take(prev, HISTORY_LIMIT - 1)
  }

  /** The history after pushing each of `rs` in turn. */
  function PushAll(prev: seq<GameResult>, rs: seq<GameResult>): seq<GameResult>
  {
    if rs == [] then prev else PushResult(rs[|rs| - 1], PushAll(prev, rs[..|rs| - 1]))
  }

  function Reverse<T>(s: seq<T>): (r: seq<T>)
    ensures |r| == |s|
    ensures forall i :: 0 <= i < |s| ==> r[i] == s[|s| - 1 - i]
  {
    if s == [] then [] else [s[|s| - 1]] + Reverse(s[..|s| - 1])
  }

  /**
   * The history lists the newest result first and keeps the ten newest: after a batch it is
   * the batch's results, newest first, followed by the old history, cut to ten.
   */
  lemma {:induction false} PushAllNewestFirst(prev: seq<GameResult>, rs: seq<GameResult>)
    requires |prev| <= HISTORY_LIMIT
    ensures PushAll(prev, rs) == Take(Reverse(rs) + prev, HISTORY_LIMIT)
  {
    if rs != [] {
      var init := rs[..|rs| - 1];
      PushAllNewestFirst(prev, init);
      var x := Reverse(init) + prev;
      assert Reverse(rs) + prev == [rs[|rs| - 1]] + x;
      assert Take(x, HISTORY_LIMIT)[..|Take(x, HISTORY_LIMIT)|] == Take(x, HISTORY_LIMIT);
      assert Take(Take(x, HISTORY_LIMIT), HISTORY_LIMIT - 1) == Take(x, HISTORY_LIMIT - 1);
    }
  }

  /** Handling one more log of a batch appends what that log records. */
  lemma RecordedStep(outcome: Outcome, logs: seq<Log>, i: nat, user: Option<string>, now: int)
    requires i < |logs|
    ensures HandleLog(outcome, logs[i], user, now).Recorded? ==>
              RecordedResults(outcome, logs[..i + 1], user, now) ==
              RecordedResults(outcome, logs[..i], user, now) + [HandleLog(outcome, logs[i], user, now).result]
    ensures !HandleLog(outcome, logs[i], user, now).Recorded? ==>
              RecordedResults(outcome, logs[..i + 1], user, now) == RecordedResults(outcome, logs[..i], user, now)
  {
    assert logs[..i + 1][..i] == logs[..i];
    assert RecordedResults(outcome, logs[..i], user, now) + [] == RecordedResults(outcome, logs[..i], user, now);
  }

  /** Pushing one more result pushes it onto the history built so far. */
  lemma PushAllSnoc(prev: seq<GameResult>, rs: seq<GameResult>, r: GameResult)
    ensures PushAll(prev, rs + [r]) == PushResult(r, PushAll(prev, rs))
  {
    assert (rs + [r])[..|rs|] == rs;
  }

  /** The latest result after a batch: its last recorded result, or the previous one. */
  function LatestAfter(prev: Option<GameResult>, rs: seq<GameResult>): Option<GameResult> {
    if rs == [] then prev else Some(rs[|rs| - 1])
  }

  /** The state `useDiceGameEvents` keeps with `useState`. */
  class EventCorrelator {
    var latestResult: Option<GameResult>
    var gameResults: seq<GameResult>

    ghost predicate Valid()
      reads this
    {
      |gameResults| <= HISTORY_LIMIT
    }

    constructor ()
      ensures Valid() && latestResult == None && gameResults == []
    {
      latestResult := None;
      gameResults := [];
    }

    /**
     * `onLogs` of the `outcome` subscription: `logs.forEach` over the batch with the user
     * address of the current render and one clock reading.
     */
    method OnLogs(outcome: Outcome, logs: seq<Log>, user: Option<string>, now: int)
      requires Valid()
      modifies this
      ensures Valid()
      ensures gameResults == PushAll(old(gameResults), RecordedResults(outcome, logs, user, now))
      ensures latestResult == LatestAfter(old(latestResult), RecordedResults(outcome, logs, user, now))
    {
      var i := 0;
      while i < |logs|
        invariant 0 <= i <= |logs|
        invariant Valid()
        invariant gameResults == PushAll(old(gameResults), RecordedResults(outcome, logs[..i], user, now))
        invariant latestResult == LatestAfter(old(latestResult), RecordedResults(outcome, logs[..i], user, now))
      {
        RecordedStep(outcome, logs, i, user, now);
        match HandleLog(outcome, logs[i], user, now) {
          case Recorded(result) =>
            PushAllSnoc(old(gameResults), RecordedResults(outcome, logs[..i], user, now), result);
            latestResult := Some(result);
            gameResults := PushResult(result, gameResults);
          case _ =>
        }
        i := i + 1;
      }
      assert logs[..|logs|] == logs;
    }

    /** `clearLatestResult`: forget the latest result, keep the history. */
    method ClearLatestResult()
      modifies this
      ensures latestResult == None && gameResults == old(gameResults)
    {
      latestResult := None;
    }
  }
}
