/**
 * `useDiceGameActions`: the dice-roll write. Guards run in a fixed order before any state
 * changes; then the in-flight flag is raised, the last error cleared, and the submit pipeline
 * either records the transaction hash or records and re-throws its error; the flag always
 * drops again (the `finally`).
 */
module DiceGameActions {
  import opened Common
  import opened WalletWrite

  /** A die face: `!prediction || prediction < 1 || prediction > 6` rejects everything else. */
  predicate ValidPrediction(prediction: int) {
    1 <= prediction <= 6
  }

  /** The guards of `rollDice`, in source order; `None` when every guard passes. */
  function ValidateRoll(prediction: int, bet: Option<int>, session: Session): (r: Option<ActionError>)
    ensures r.None? <==>
              ValidPrediction(prediction) && PositiveAmount(bet) && IsAuthenticated(session) && |session.wallets| > 0
    ensures r.Some? ==> r.value.IsValidation()
    ensures !ValidPrediction(prediction) ==> r == Some(InvalidPrediction)
    ensures r == Some(InvalidBetAmount) <==> ValidPrediction(prediction) && !PositiveAmount(bet)
    ensures r == Some(NotAuthenticated) <==>
              ValidPrediction(prediction) && PositiveAmount(bet) && !IsAuthenticated(session)
    ensures r == Some(NoWallets) <==>
              ValidPrediction(prediction) && PositiveAmount(bet) && IsAuthenticated(session) && |session.wallets| == 0
  {
    if !ValidPrediction(prediction) then Some(InvalidPrediction)
    else if !PositiveAmount(bet) then Some(InvalidBetAmount)
    else if !IsAuthenticated(session) then Some(NotAuthenticated)
    else if |session.wallets| == 0 then Some(NoWallets)
    else None
  }

  /** The state `useDiceGameActions` keeps with `useState`. */
  class DiceGameActions {
    var isRollingDice: bool
    var transactionHash: Option<string>
    var writeError: Option<ActionError>

    constructor ()
      ensures !isRollingDice && transactionHash == None && writeError == None
    {
      isRollingDice := false;
      transactionHash := None;
      writeError := None;
    }

    /** `isWritePending`, an alias of `isRollingDice`. */
    predicate IsWritePending()
      reads this
    {
      isRollingDice
    }

    /** Entering the `try`: raise the in-flight flag and clear the last error. */
    method BeginWrite()
      modifies this
      ensures isRollingDice && writeError == None && transactionHash == old(transactionHash)
    {
      isRollingDice := true;
      writeError := None;
    }

    /** Leaving the `try`: record the hash or the error, then the `finally` drops the flag. */
    method EndWrite(outcome: Result<string, ActionError>)
      modifies this
      ensures !isRollingDice
      ensures outcome.Ok? ==> transactionHash == Some(outcome.value) && writeError == old(writeError)
      ensures outcome.Err? ==> transactionHash == old(transactionHash) && writeError == Some(outcome.error)
    {
      match outcome {
        case Ok(hash) => transactionHash := Some(hash);
        case Err(e) => writeError := Some(e);
      }
      isRollingDice := false;
    }

    /**
     * `rollDice(prediction, betAmount)`. `r` is what the promise settles to: the hash, or the
     * error it throws. A guard failure throws before the `try` and changes nothing.
     */
    method RollDice(prediction: int, bet: Option<int>, session: Session, world: WalletWorld)
      returns (r: Result<string, ActionError>)
      modifies this
      ensures ValidateRoll(prediction, bet, session).Some? ==>
                r == Err(ValidateRoll(prediction, bet, session).value) &&
                isRollingDice == old(isRollingDice) &&
                transactionHash == old(transactionHash) && writeError == old(writeError)
      ensures ValidateRoll(prediction, bet, session).None? ==> r == Submit(world) && !IsWritePending()
      ensures ValidateRoll(prediction, bet, session).None? && r.Ok? ==>
                transactionHash == Some(r.value) && writeError == None
      ensures ValidateRoll(prediction, bet, session).None? && r.Err? ==>
                transactionHash == old(transactionHash) && writeError == Some(r.error)
    {
      var invalid := ValidateRoll(prediction, bet, session);
      if invalid.Some? {
        return Err(invalid.value);
      }
      BeginWrite();
      r := Submit(world);
      EndWrite(r);
    }
  }
}
