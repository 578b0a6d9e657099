/**
 * `useLiquidityPoolActions`: the add- and remove-liquidity writes. Both follow the guard,
 * raise-flag, record-hash-or-error, drop-flag pattern of the dice roll, each with its own
 * in-flight flag, and both record into one shared `transactionHash`.
 */
module LiquidityPoolActions {
  import opened Common
  import opened WalletWrite

  /** The guards of `addLiquidity` and `removeLiquidity`, in source order. */
  function ValidateLiquidity(amount: Option<int>, session: Session): (r: Option<ActionError>)
    ensures r.None? <==> PositiveAmount(amount) && IsAuthenticated(session) && |session.wallets| > 0
    ensures r.Some? ==> r.value.IsValidation()
    ensures !PositiveAmount(amount) ==> r == Some(InvalidAmount)
    ensures r == Some(NotAuthenticated) <==> PositiveAmount(amount) && !IsAuthenticated(session)
    ensures r == Some(NoWallets) <==> PositiveAmount(amount) && IsAuthenticated(session) && |session.wallets| == 0
  {
    if !PositiveAmount(amount) then Some(InvalidAmount)
    else if !IsAuthenticated(session) then Some(NotAuthenticated)
    else if |session.wallets| == 0 then Some(NoWallets)
    else None
  }

  /** Which of the two writes is running. */
  datatype LiquidityWrite = Add | Remove

  /** The state `useLiquidityPoolActions` keeps with `useState`. */
  class LiquidityPoolActions {
    var isAddingLiquidity: bool
    var isRemovingLiquidity: bool
    var transactionHash: Option<string>
    var writeError: Option<ActionError>

    constructor ()
      ensures !isAddingLiquidity && !isRemovingLiquidity && transactionHash == None && writeError == None
    {
      isAddingLiquidity := false;
      isRemovingLiquidity := false;
      transactionHash := None;
      writeError := None;
    }

    /** `isWritePending`: either write is in flight. */
    predicate IsWritePending()
      reads this
    {
      isAddingLiquidity || isRemovingLiquidity
    }

    /** The in-flight flag of `kind`. */
    function InFlight(kind: LiquidityWrite): bool
      reads this
    {
      if kind == Add then isAddingLiquidity else isRemovingLiquidity
    }

    /** Entering the `try`: raise the flag of `kind` and clear the last error. */
    method BeginWrite(kind: LiquidityWrite)
      modifies this
      ensures InFlight(kind) && IsWritePending() && writeError == None
      ensures transactionHash == old(transactionHash)
      ensures kind == Add ==> isRemovingLiquidity == old(isRemovingLiquidity)
      ensures kind == Remove ==> isAddingLiquidity == old(isAddingLiquidity)
    {
      if kind == Add {
        isAddingLiquidity := true;
      } else {
        isRemovingLiquidity := true;
      }
      writeError := None;
    }

    /** Leaving the `try`: record the hash or the error; the `finally` drops the flag of `kind`. */
    method EndWrite(kind: LiquidityWrite, outcome: Result<string, ActionError>)
      modifies this
      ensures !InFlight(kind)
      ensures kind == Add ==> isRemovingLiquidity == old(isRemovingLiquidity)
      ensures kind == Remove ==> isAddingLiquidity == old(isAddingLiquidity)
      ensures outcome.Ok? ==> transactionHash == Some(outcome.value) && writeError == old(writeError)
      ensures outcome.Err? ==> transactionHash == old(transactionHash) && writeError == Some(outcome.error)
    {
      match outcome {
        case Ok(hash) => transactionHash := Some(hash);
        case Err(e) => writeError := Some(e);
      }
      if kind == Add {
        isAddingLiquidity := false;
      } else {
        isRemovingLiquidity := false;
      }
    }

    /**
     * `addLiquidity(amount)` or `removeLiquidity(amount)`; `r` is the hash the promise
     * resolves to or the error it throws. A guard failure changes nothing. On success the
     * shared hash becomes the hash of this write, whichever of the two it was.
     */
    method Write(kind: LiquidityWrite, amount: Option<int>, session: Session, world: WalletWorld)
      returns (r: Result<string, ActionError>)
      modifies this
      ensures ValidateLiquidity(amount, session).Some? ==>
                r == Err(ValidateLiquidity(amount, session).value) &&
                isAddingLiquidity == old(isAddingLiquidity) && isRemovingLiquidity == old(isRemovingLiquidity) &&
                transactionHash == old(transactionHash) && writeError == old(writeError)
      ensures ValidateLiquidity(amount, session).None? ==> r == Submit(world) && !InFlight(kind)
      ensures kind == Add ==> isRemovingLiquidity == old(isRemovingLiquidity)
      ensures kind == Remove ==> isAddingLiquidity == old(isAddingLiquidity)
      ensures ValidateLiquidity(amount, session).None? && r.Ok? ==>
                transactionHash == Some(r.value) && writeError == None
      ensures ValidateLiquidity(amount, session).None? && r.Err? ==>
                transactionHash == old(transactionHash) && writeError == Some(r.error)
    {
      var invalid := ValidateLiquidity(amount, session);
      if invalid.Some? {
        return Err(invalid.value);
      }
      BeginWrite(kind);
      r := Submit(world);
      EndWrite(kind, r);
    }

    /** `addLiquidity(amount)`. */
    method AddLiquidity(amount: Option<int>, session: Session, world: WalletWorld)
      returns (r: Result<string, ActionError>)
      modifies this
      ensures ValidateLiquidity(amount, session).Some? ==>
                r == Err(ValidateLiquidity(amount, session).value) &&
                isAddingLiquidity == old(isAddingLiquidity) &&
                transactionHash == old(transactionHash) && writeError == old(writeError)
      ensures ValidateLiquidity(amount, session).None? ==> r == Submit(world) && !isAddingLiquidity
      ensures isRemovingLiquidity == old(isRemovingLiquidity)
      ensures ValidateLiquidity(amount, session).None? && r.Ok? ==>
                transactionHash == Some(r.value) && writeError == None
      ensures ValidateLiquidity(amount, session).None? && r.Err? ==>
                transactionHash == old(transactionHash) && writeError == Some(r.error)
    {
      r := Write(Add, amount, session, world);
    }

    /** `removeLiquidity(amount)`. */
    method RemoveLiquidity(amount: Option<int>, session: Session, world: WalletWorld)
      returns (r: Result<string, ActionError>)
      modifies this
      ensures ValidateLiquidity(amount, session).Some? ==>
                r == Err(ValidateLiquidity(amount, session).value) &&
                isRemovingLiquidity == old(isRemovingLiquidity) &&
                transactionHash == old(transactionHash) && writeError == old(writeError)
      ensures ValidateLiquidity(amount, session).None? ==> r == Submit(world) && !isRemovingLiquidity
      ensures isAddingLiquidity == old(isAddingLiquidity)
      ensures ValidateLiquidity(amount, session).None? && r.Ok? ==>
                transactionHash == Some(r.value) && writeError == None
      ensures ValidateLiquidity(amount, session).None? && r.Err? ==>
                transactionHash == old(transactionHash) && writeError == Some(r.error)
    {
      r := Write(Remove, amount, session, world);
    }
  }

  /**
   * An add followed by a remove: each settles as its own pipeline, the shared hash is the
   * last successful write's, and neither flag is left raised.
   */
  method AddThenRemove(pool: LiquidityPoolActions, amount: Option<int>, session: Session, first: WalletWorld, second: WalletWorld)
    returns (added: Result<string, ActionError>, removed: Result<string, ActionError>)
    requires !pool.IsWritePending()
    modifies pool
    ensures ValidateLiquidity(amount, session).None? ==> added == Submit(first) && removed == Submit(second)
    ensures ValidateLiquidity(amount, session).None? && removed.Ok? ==> pool.transactionHash == Some(removed.value)
    ensures ValidateLiquidity(amount, session).None? && added.Ok? && removed.Err? ==>
              pool.transactionHash == Some(added.value)
    ensures !pool.IsWritePending()
  {
    added := pool.AddLiquidity(amount, session, first);
    removed := pool.RemoveLiquidity(amount, session, second);
  }
}
