/**
 * The dice page (`app/page.tsx`): its roll handler, the effects that move a roll from
 * submitted to confirmed to resolved, the notification auto-clear rule, the roll button's
 * `disabled` predicate and the rolling-dice frame cycle.
 *
 * A render's state is a `PageState` record: the page's own `useState` fields plus the values
 * the two hooks hand it (`transactionHash`, `isConfirmed`, `latestResult`). `handleRollDice`
 * awaits `rollDice`, so it is two steps, `BeginRoll` and `FinishRoll`, between which React may
 * render and run the effects. Each effect is a guarded step on the record.
 */
module HomePage {
  import opened Common
  import opened WalletWrite
  import opened GameEvents
  import opened DiceGameActions

  datatype NotificationKind = Success | Failure

  datatype Notification = Notification(message: string, kind: NotificationKind)

  datatype PageState = PageState(
    betAmount: Option<int>,
    notification: Option<Notification>,
    isPendingResult: bool,
    processedTransactionHash: Option<string>,
    hasReceivedResult: bool,
    transactionHash: Option<string>,
    isConfirmed: bool,
    latestResult: Option<GameResult>)

  const ENTER_VALID_BET: string := "Please enter a valid bet amount"
  /** "🎲 Dice roll confirmed! Waiting for VRF result...", split at its only 'W'. */
  const CONFIRMED_HEAD: string := "\U{1F3B2} Dice roll confirmed! "
  const CONFIRMED_TAIL: string := "aiting for VRF result..."
  const ROLL_CONFIRMED: string := CONFIRMED_HEAD + "W" + CONFIRMED_TAIL
  const ROLL_FAILED: string := "Failed to roll dice. Please try again."
  const CONFIRM_FAILED: string := "Transaction failed to confirm. Please try again."

  function BelowMinimumMessage(minBetText: string): string {
    "Bet amount must be at least " + minBetText + " ETH"
  }

  function SubmittedMessage(hash: string): string {
    "\U{1F3B2} Dice roll submitted! Transaction: " + Take(hash, 10) + "..."
  }

  const WON_HEAD: string := "\U{1F389} You WON! Rolled "
  const LOST_HEAD: string := "\U{1F614} You lost. Rolled "

  /** The win message; `amountText` is the winning amount as `toFixed(6)` prints it. */
  function WonMessage(rolled: int, amountText: string): string {
    WON_HEAD + (IntToString(rolled) + ". You won " + amountText + " ETH!")
  }

  function LostMessage(rolled: int): string {
    LOST_HEAD + (IntToString(rolled) + ". Better luck next time!")
  }

  /**
   * The two checks at the top of `handleRollDice`; `minBet` is `minBetEth` in wei and
   * `minBetText` its text. `None` when the bet may be submitted.
   */
  function BetError(bet: Option<int>, minBet: int, minBetText: string): (r: Option<string>)
    ensures r.None? <==> PositiveAmount(bet) && bet.value >= minBet
    ensures !PositiveAmount(bet) ==> r == Some(ENTER_VALID_BET)
    ensures PositiveAmount(bet) && bet.value < minBet ==> r == Some(BelowMinimumMessage(minBetText))
  {
    if !PositiveAmount(bet) then Some(ENTER_VALID_BET)
    else if bet.value < minBet then Some(BelowMinimumMessage(minBetText))
    else None
  }

  /**
   * `handleRollDice` up to `await rollDice(...)`: a rejected bet only sets the error
   * notification; an accepted one resets the tracking of the previous roll, clears the
   * notification and the latest result, and is then submitted.
   */
  function BeginRoll(s: PageState, minBet: int, minBetText: string): (r: PageState)
    ensures BetError(s.betAmount, minBet, minBetText).Some? ==>
              r == s.(notification := Some(Notification(BetError(s.betAmount, minBet, minBetText).value, Failure)))
    ensures BetError(s.betAmount, minBet, minBetText).None? ==>
              r.processedTransactionHash.None? && !r.hasReceivedResult && !r.isPendingResult &&
              r.notification.None? && r.latestResult.None? &&
              r.betAmount == s.betAmount && r.transactionHash == s.transactionHash && r.isConfirmed == s.isConfirmed
  {
    match BetError(s.betAmount, minBet, minBetText)
    case Some(message) => s.(notification := Some(Notification(message, Failure)))
    case None =>
      s.(processedTransactionHash := None, hasReceivedResult := false, isPendingResult := false,
         notification := None, latestResult := None)
  }

  /** The failure notice of `handleRollDice`: the error's message, or a fixed text for a non-`Error`. */
  function RollFailureText(e: ActionError): (r: string)
    ensures e.IsErrorInstance() ==> r == e.Message()
    ensures !e.IsErrorInstance() ==> r == ROLL_FAILED
  {
    if e.IsErrorInstance() then e.Message() else ROLL_FAILED
  }

  /**
   * `handleRollDice` after `rollDice` settles: a hash becomes the hook's new (not yet
   * confirmed) transaction and is announced; an error's message is shown.
   */
  function FinishRoll(s: PageState, rolled: Result<string, ActionError>): (r: PageState)
    ensures r.isPendingResult == s.isPendingResult && r.processedTransactionHash == s.processedTransactionHash
    ensures r.latestResult == s.latestResult && r.hasReceivedResult == s.hasReceivedResult
    ensures r.betAmount == s.betAmount
    ensures rolled.Ok? ==> r.transactionHash == Some(rolled.value) && !r.isConfirmed &&
                           r.notification == Some(Notification(SubmittedMessage(rolled.value), Success))
    ensures rolled.Err? ==> r.transactionHash == s.transactionHash && r.isConfirmed == s.isConfirmed &&
                            r.notification == Some(Notification(RollFailureText(rolled.error), Failure))
  {
    match rolled
    case Ok(hash) =>
      s.(transactionHash := Some(hash), isConfirmed := false,
         notification := Some(Notification(SubmittedMessage(hash), Success)))
    case Err(e) => s.(notification := Some(Notification(RollFailureText(e), Failure)))
  }

  /** The receipt of the hook's current transaction arrives. */
  function ReceiptArrives(s: PageState): PageState {
    s.(isConfirmed := true)
  }

  /** The events hook publishes a new latest result. */
  function ResultArrives(s: PageState, result: GameResult): PageState {
    s.(latestResult := Some(result))
  }

  /** The guard of the confirmation effect. */
  predicate ConfirmationDue(s: PageState) {
    s.isConfirmed && Present(s.transactionHash) && s.transactionHash != s.processedTransactionHash
  }

  /**
   * The confirmation effect: a confirmed hash not yet processed starts the wait for the
   * result, is marked processed, and clears the bet field.
   */
  function ConfirmationEffect(s: PageState): (r: PageState)
    ensures !ConfirmationDue(s) ==> r == s
    ensures ConfirmationDue(s) ==>
              r.isPendingResult && !r.hasReceivedResult && r.processedTransactionHash == s.transactionHash &&
              r.notification == Some(Notification(ROLL_CONFIRMED, Success)) && r.betAmount.None? &&
              r.transactionHash == s.transactionHash && r.latestResult == s.latestResult &&
              r.isConfirmed == s.isConfirmed
    ensures !ConfirmationDue(r)
  {
    if ConfirmationDue(s) then
      s.(isPendingResult := true, processedTransactionHash := s.transactionHash, hasReceivedResult := false,
         notification := Some(Notification(ROLL_CONFIRMED, Success)), betAmount := None)
    else s
  }

  /** The result-received effect: a result ends the wait, once. */
  function ResultReceivedEffect(s: PageState): (r: PageState)
    ensures s.latestResult.Some? && s.isPendingResult && !s.hasReceivedResult ==>
              r == s.(isPendingResult := false, hasReceivedResult := true)
    ensures !(s.latestResult.Some? && s.isPendingResult && !s.hasReceivedResult) ==> r == s
  {
    if s.latestResult.Some? && s.isPendingResult && !s.hasReceivedResult then
      s.(isPendingResult := false, hasReceivedResult := true)
    else s
  }

  /** The effect meant to drop the "waiting" notice when a result arrives. */
  function ClearWaitingEffect(s: PageState): PageState {
    if s.latestResult.Some? && s.notification.Some? && Contains(s.notification.value.message, "Waiting for result") then
      s.(notification := None)
    else s
  }

  /**
   * The result-notification effect, run when `latestResult` changes: announce the win or
   * loss and clear the bet field. `amountText` is the six-decimal rendering of the win.
   */
  function ResultNotificationEffect(s: PageState, amountText: string): (r: PageState)
    ensures s.latestResult.None? ==> r == s
    ensures s.latestResult.Some? && s.latestResult.value.outcome == Won ==>
              r.notification == Some(Notification(WonMessage(s.latestResult.value.rolledNumber, amountText), Success))
    ensures s.latestResult.Some? && s.latestResult.value.outcome == Lost ==>
              r.notification == Some(Notification(LostMessage(s.latestResult.value.rolledNumber), Failure))
    ensures s.latestResult.Some? ==> r == s.(notification := r.notification, betAmount := None)
  {
    match s.latestResult
    case None => s
    case Some(result) =>
      var n := if result.outcome == Won then Notification(WonMessage(result.rolledNumber, amountText), Success)
               else Notification(LostMessage(result.rolledNumber), Failure);
      s.(notification := Some(n), betAmount := None)
  }

  /** The receipt-error effect. */
  function ConfirmErrorEffect(s: PageState, confirmError: bool): (r: PageState)
    ensures confirmError ==> r == s.(notification := Some(Notification(CONFIRM_FAILED, Failure)))
    ensures !confirmError ==> r == s
  {
    if confirmError then s.(notification := Some(Notification(CONFIRM_FAILED, Failure))) else s
  }

  /** Whether the five-second auto-clear timer is set for the current notification. */
  predicate AutoClearScheduled(n: Option<Notification>) {
    n.Some? && !Contains(n.value.message, "WON!") && !Contains(n.value.message, "You lost")
  }

  /** The roll button's `disabled` attribute. */
  predicate RollDisabled(bet: Option<int>, minBet: int, isRollingDice: bool, isConfirming: bool,
                         isPendingResult: bool, isAuthenticated: bool) {
    !PositiveAmount(bet) || bet.value < minBet || isRollingDice || isConfirming || isPendingResult || !isAuthenticated
  }

  /** An enabled button means the handler's own checks pass and no roll is in progress. */
  lemma EnabledButtonPassesChecks(bet: Option<int>, minBet: int, minBetText: string, isRollingDice: bool,
                                  isConfirming: bool, isPendingResult: bool, isAuthenticated: bool)
    requires !RollDisabled(bet, minBet, isRollingDice, isConfirming, isPendingResult, isAuthenticated)
    ensures BetError(bet, minBet, minBetText).None?
    ensures isAuthenticated && !isRollingDice && !isConfirming && !isPendingResult
  {
  }

  /**
   * Running the confirmation effect twice in a row is running it once. This does not make it
   * fire once per hash: a new roll resets the processed hash (see `StaleConfirmationRefires`).
   */
  lemma ConfirmationOncePerHash(s: PageState)
    ensures ConfirmationEffect(ConfirmationEffect(s)) == ConfirmationEffect(s)
    ensures ConfirmationDue(s) ==> ConfirmationEffect(s).processedTransactionHash == s.transactionHash
  {
  }

  /** A result ends the wait once; applying the effect again is a no-op. */
  lemma ResultReceivedIdempotent(s: PageState)
    ensures ResultReceivedEffect(ResultReceivedEffect(s)) == ResultReceivedEffect(s)
    ensures s.latestResult.Some? && !s.hasReceivedResult ==>
              !ResultReceivedEffect(s).isPendingResult
  {
  }

  lemma WonMessageHasMarker(rolled: int, amountText: string)
    ensures Contains(WonMessage(rolled, amountText), "WON!")
  {
    assert WON_HEAD[6..10] == "WON!";
    OccursInPrefix(WON_HEAD, IntToString(rolled) + ". You won " + amountText + " ETH!", "WON!", 6);
  }

  lemma LostMessageHasMarker(rolled: int)
    ensures Contains(LostMessage(rolled), "You lost")
  {
    assert LOST_HEAD[2..10] == "You lost";
    OccursInPrefix(LOST_HEAD, IntToString(rolled) + ". Better luck next time!", "You lost", 2);
  }

  /** Win and loss announcements are never auto-cleared. */
  lemma ResultNoticesStay(s: PageState, amountText: string)
    requires s.latestResult.Some?
    ensures !AutoClearScheduled(ResultNotificationEffect(s, amountText).notification)
  {
    var result := s.latestResult.value;
    if result.outcome == Won {
      WonMessageHasMarker(result.rolledNumber, amountText);
    } else {
      LostMessageHasMarker(result.rolledNumber);
    }
  }

  lemma ConfirmedNoticeNotWin()
    ensures !Contains(ROLL_CONFIRMED, "WON!")
  {
    assert 'W' !in CONFIRMED_HEAD && 'W' !in CONFIRMED_TAIL;
    assert CONFIRMED_TAIL[..3][1] != "WON!"[1..][1];
    NotContainedAround(CONFIRMED_HEAD, CONFIRMED_TAIL, "WON!");
  }

  lemma ConfirmedNoticeNotLoss()
    ensures !Contains(ROLL_CONFIRMED, "You lost")
  {
    assert 'Y' !in CONFIRMED_HEAD && 'Y' !in CONFIRMED_TAIL;
    assert 'Y' !in ROLL_CONFIRMED;
    NotContainedWithoutFirst(ROLL_CONFIRMED, "You lost");
  }

  /** The confirmation notice is auto-cleared. */
  lemma ConfirmedNoticeClears(kind: NotificationKind)
    ensures AutoClearScheduled(Some(Notification(ROLL_CONFIRMED, kind)))
  {
    ConfirmedNoticeNotWin();
    ConfirmedNoticeNotLoss();
  }

  /** The invalid-bet notice is auto-cleared. */
  lemma InvalidBetNoticeClears(kind: NotificationKind)
    ensures AutoClearScheduled(Some(Notification(ENTER_VALID_BET, kind)))
  {
    NotContainedWithoutFirst(ENTER_VALID_BET, "WON!");
    NotContainedWithoutFirst(ENTER_VALID_BET, "You lost");
  }

  /**
   * The effect that should clear the confirmation notice when the result arrives never
   * fires for it: the notice says "Waiting for VRF result", not "Waiting for result".
   */
  lemma WaitingNoticeNeverCleared(s: PageState)
    requires s.notification.Some? && s.notification.value.message == ROLL_CONFIRMED
    ensures ClearWaitingEffect(s) == s
  {
    ConfirmedNoticeNotWaiting();
  }

  lemma ConfirmedNoticeNotWaiting()
    ensures !Contains(ROLL_CONFIRMED, "Waiting for result")
  {
    var sub := "Waiting for result";
    assert 'W' !in CONFIRMED_HEAD && 'W' !in CONFIRMED_TAIL;
    assert CONFIRMED_TAIL[..17][11] != sub[1..][11];
    assert ROLL_CONFIRMED == CONFIRMED_HEAD + [sub[0]] + CONFIRMED_TAIL;
    NotContainedAround(CONFIRMED_HEAD, CONFIRMED_TAIL, sub);
  }

  /**
   * As written, starting a roll forgets the processed hash while the previous hash is still
   * confirmed, so the confirmation effect fires again for that old hash before the new one
   * exists. If the wallet then refuses the roll, the page is left waiting for a result that
   * will never come, with the roll button disabled.
   */
  lemma StaleConfirmationRefires()
    ensures var r := GameResult(Won, 1000, Some(2000), 4, "0xaa", 0);
            var settled := PageState(Some(1000), None, false, Some("0xaa"), true, Some("0xaa"), true, Some(r));
            var started := BeginRoll(settled, 1000, "0.000000000000001");
            var refired := ConfirmationEffect(started);
            var refused := FinishRoll(refired, Err(ProviderFailed(ProviderError(Some(4001), "User rejected the request.", "Error: User rejected the request.", true))));
            !ConfirmationDue(settled) && ConfirmationDue(started) &&
            refused.isPendingResult && refused.latestResult.None? &&
            ConfirmationEffect(refused) == refused && ResultReceivedEffect(refused) == refused &&
            RollDisabled(Some(1000), 1000, false, false, refused.isPendingResult, true)
  {
  }

  /** Starting a roll that keeps the processed hash: the corrected reset. */
  function BeginRollFixed(s: PageState, minBet: int, minBetText: string): (r: PageState)
    ensures BetError(s.betAmount, minBet, minBetText).Some? ==> r == BeginRoll(s, minBet, minBetText)
    ensures BetError(s.betAmount, minBet, minBetText).None? ==>
              r == BeginRoll(s, minBet, minBetText).(processedTransactionHash := s.processedTransactionHash)
  {
    match BetError(s.betAmount, minBet, minBetText)
    case Some(message) => s.(notification := Some(Notification(message, Failure)))
    case None =>
      s.(hasReceivedResult := false, isPendingResult := false, notification := None, latestResult := None)
  }

  /**
   * With the corrected reset a confirmed hash is processed once: once the confirmation
   * effect has run, starting a roll does not make it fire again, and a refused roll leaves
   * nothing pending.
   */
  lemma FixedRollDoesNotRefire(s: PageState, minBet: int, minBetText: string, e: ActionError)
    ensures var settled := ConfirmationEffect(s);
            var started := BeginRollFixed(settled, minBet, minBetText);
            !ConfirmationDue(started) &&
            (BetError(settled.betAmount, minBet, minBetText).None? ==>
               !FinishRoll(ConfirmationEffect(started), Err(e)).isPendingResult)
  {
  }

  /**
   * From the state `started` a roll has been started in, a submitted `hash` goes submitted,
   * confirmed and waiting with the bet cleared, then resolved and no longer waiting, with a
   * result notice that stays.
   */
  predicate CompletesRoll(started: PageState, hash: string, result: GameResult, amountText: string) {
    var submitted := FinishRoll(started, Ok(hash));
    var waiting := ConfirmationEffect(ReceiptArrives(submitted));
    var resolved := ResultNotificationEffect(ResultReceivedEffect(ResultArrives(waiting, result)), amountText);
    !ConfirmationDue(submitted) &&
    waiting.isPendingResult && waiting.processedTransactionHash == Some(hash) && waiting.betAmount.None? &&
    !resolved.isPendingResult && resolved.hasReceivedResult && resolved.latestResult == Some(result) &&
    !AutoClearScheduled(resolved.notification)
  }

  /** The rest of a roll once its hash is known, from any state where that hash is new. */
  lemma CompletesFrom(started: PageState, hash: string, result: GameResult, amountText: string)
    requires hash != "" && started.processedTransactionHash != Some(hash)
    ensures CompletesRoll(started, hash, result, amountText)
  {
    var submitted := FinishRoll(started, Ok(hash));
    var waiting := ConfirmationEffect(ReceiptArrives(submitted));
    ResultNoticesStay(ResultReceivedEffect(ResultArrives(waiting, result)), amountText);
  }

  /**
   * The whole life of an accepted roll, both as written and with the corrected reset:
   * submitted, confirmed, waiting, resolved. The new hash differs from the processed one, so
   * its confirmation is handled, and the result ends the wait.
   */
  lemma RollLifecycle(s: PageState, minBet: int, minBetText: string, hash: string, result: GameResult, amountText: string)
    requires BetError(s.betAmount, minBet, minBetText).None?
    requires hash != ""
    ensures CompletesRoll(BeginRoll(s, minBet, minBetText), hash, result, amountText)
    ensures s.processedTransactionHash != Some(hash) ==>
              CompletesRoll(BeginRollFixed(s, minBet, minBetText), hash, result, amountText)
  {
    CompletesFrom(BeginRoll(s, minBet, minBetText), hash, result, amountText);
    if s.processedTransactionHash != Some(hash) {
      CompletesFrom(BeginRollFixed(s, minBet, minBetText), hash, result, amountText);
    }
  }

  /**
   * The page's state as the component holds it: its own `useState` fields, and the values
   * the action and event hooks hand it on each render. Each method is one of the steps above
   * applied in place.
   */
  class RollPage {
    var betAmount: Option<int>
    var notification: Option<Notification>
    var isPendingResult: bool
    var processedTransactionHash: Option<string>
    var hasReceivedResult: bool
    var transactionHash: Option<string>
    var isConfirmed: bool
    var latestResult: Option<GameResult>

    function State(): PageState
      reads this
    {
      PageState(betAmount, notification, isPendingResult, processedTransactionHash, hasReceivedResult,
                transactionHash, isConfirmed, latestResult)
    }

    /** The initial render: an empty bet, no notice, nothing pending or processed. */
    constructor ()
      ensures State() == PageState(None, None, false, None, false, None, false, None)
      ensures !ConfirmationDue(State())
    {
      betAmount := None;
      notification := None;
      isPendingResult := false;
      processedTransactionHash := None;
      hasReceivedResult := false;
      transactionHash := None;
      isConfirmed := false;
      latestResult := None;
    }

    /** `handleRollDice` up to the awaited `rollDice`. */
    method StartRoll(minBet: int, minBetText: string) returns (submit: bool)
      modifies this
      ensures State() == BeginRoll(old(State()), minBet, minBetText)
      ensures submit <==> BetError(old(betAmount), minBet, minBetText).None?
    {
      var invalid := BetError(betAmount, minBet, minBetText);
      if invalid.Some? {
        notification := Some(Notification(invalid.value, Failure));
        return false;
      }
      submit := true;
      processedTransactionHash := None;
      hasReceivedResult := false;
      isPendingResult := false;
      notification := None;
      latestResult := None;
    }

    /** `handleRollDice` once `rollDice` has settled with `rolled`. */
    method SettleRoll(rolled: Result<string, ActionError>)
      modifies this
      ensures State() == FinishRoll(old(State()), rolled)
    {
      match rolled {
        case Ok(hash) =>
          transactionHash := Some(hash);
          isConfirmed := false;
          notification := Some(Notification(SubmittedMessage(hash), Success));
        case Err(e) =>
          notification := Some(Notification(RollFailureText(e), Failure));
      }
    }

    /**
     * `handleRollDice` as a whole: the page's checks, then `rollDice` on the actions hook only
     * for an accepted bet, then the settled outcome. `rolled` is `None` when no write was made.
     */
    method HandleRollDice(actions: DiceGameActions, prediction: int, minBet: int, minBetText: string,
                          session: Session, world: WalletWorld)
      returns (rolled: Option<Result<string, ActionError>>)
      modifies this, actions
      ensures rolled.None? <==> BetError(old(betAmount), minBet, minBetText).Some?
      ensures rolled.None? ==> State() == BeginRoll(old(State()), minBet, minBetText) && unchanged(actions)
      ensures rolled.Some? ==> State() == FinishRoll(BeginRoll(old(State()), minBet, minBetText), rolled.value)
      ensures rolled.Some? && ValidateRoll(prediction, old(betAmount), session).None? ==>
                rolled.value == Submit(world) && !actions.IsWritePending()
      ensures rolled.Some? && ValidateRoll(prediction, old(betAmount), session).Some? ==>
                rolled.value == Err(ValidateRoll(prediction, old(betAmount), session).value)
      ensures rolled.Some? && rolled.value.Ok? ==> transactionHash == actions.transactionHash
    {
      var bet := betAmount;
      var submit := StartRoll(minBet, minBetText);
      if !submit {
        return None;
      }
      var r := actions.RollDice(prediction, bet, session, world);
      SettleRoll(r);
      rolled := Some(r);
    }

    /** The confirmation effect. */
    method OnConfirmation()
      modifies this
      ensures State() == ConfirmationEffect(old(State()))
      ensures !ConfirmationDue(State())
    {
      if isConfirmed && Present(transactionHash) && transactionHash != processedTransactionHash {
        isPendingResult := true;
        processedTransactionHash := transactionHash;
        hasReceivedResult := false;
        notification := Some(Notification(ROLL_CONFIRMED, Success));
        betAmount := None;
      }
    }

    /** The result-received effect. */
    method OnResultReceived()
      modifies this
      ensures State() == ResultReceivedEffect(old(State()))
    {
      if latestResult.Some? && isPendingResult && !hasReceivedResult {
        isPendingResult := false;
        hasReceivedResult := true;
      }
    }

    /** The effect meant to clear the "waiting" notice. */
    method OnClearWaiting()
      modifies this
      ensures State() == ClearWaitingEffect(old(State()))
    {
      if latestResult.Some? && notification.Some? && Contains(notification.value.message, "Waiting for result") {
        notification := None;
      }
    }

    /** The result-notification effect. */
    method OnResult(amountText: string)
      modifies this
      ensures State() == ResultNotificationEffect(old(State()), amountText)
      ensures latestResult.Some? ==> !AutoClearScheduled(notification)
    {
      if latestResult.Some? {
        var result := latestResult.value;
        if result.outcome == Won {
          notification := Some(Notification(WonMessage(result.rolledNumber, amountText), Success));
        } else {
          notification := Some(Notification(LostMessage(result.rolledNumber), Failure));
        }
        betAmount := None;
        ResultNoticesStay(old(State()), amountText);
      }
    }

    /** The receipt-error effect. */
    method OnConfirmError(confirmError: bool)
      modifies this
      ensures State() == ConfirmErrorEffect(old(State()), confirmError)
    {
      if confirmError {
        notification := Some(Notification(CONFIRM_FAILED, Failure));
      }
    }
  }

  /** One tick of the rolling animation: `frameIndex = (frameIndex % 6) + 1`. */
  function NextFrame(frame: int): (r: int)
    requires 1 <= frame <= 6
    ensures 1 <= r <= 6
    ensures r == if frame == 6 then 1 else frame + 1
  {
    frame % 6 + 1
  }

  /** The face shown after `k + 1` ticks when the animation starts from face 1. */
  function Face(k: nat): int {
    (k + 1) % 6 + 1
  }

  /** After `k` ticks the animation shows `k % 6 + 1`; the next tick shows `Face(k)`. */
  lemma FaceStep(k: nat)
    ensures NextFrame(k % 6 + 1) == Face(k) == (k + 1) % 6 + 1
  {
  }

  /** The faces are those of a die and repeat every six ticks. */
  lemma FacePeriod(k: nat)
    ensures 1 <= Face(k) <= 6
    ensures Face(k + 6) == Face(k)
  {
  }

  /**
   * The frames `startDiceRollingAnimation` shows over `ticks` ticks of its interval, starting
   * from face 1: each is a face of the die, the k-th is `(k + 1) % 6 + 1`, and they repeat
   * every six ticks.
   */
  method RollingFrames(ticks: nat) returns (frames: seq<int>)
    ensures |frames| == ticks
    ensures forall k :: 0 <= k < ticks ==> 1 <= frames[k] <= 6
    ensures forall k :: 0 <= k < ticks ==> frames[k] == (k + 1) % 6 + 1
    ensures forall k :: 0 <= k < ticks - 6 ==> frames[k + 6] == frames[k]
  {
    var frameIndex := 1;
    frames := [];
    while |frames| < ticks
      invariant |frames| <= ticks
      invariant frameIndex == |frames| % 6 + 1
      invariant forall k :: 0 <= k < |frames| ==> frames[k] == Face(k)
    {
      ghost var n := |frames|;
      FaceStep(n);
      frameIndex := NextFrame(frameIndex);
      frames := frames + [frameIndex];
    }
    forall k | 0 <= k < ticks - 6
      ensures frames[k + 6] == frames[k]
    {
      FacePeriod(k);
    }
    forall k | 0 <= k < ticks
      ensures 1 <= frames[k] <= 6
    {
      FacePeriod(k);
    }
  }
}
