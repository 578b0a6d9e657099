/**
 * The part the two write hooks (dice rolls and liquidity) share: the session they check,
 * the Sepolia chain guard run against the wallet's provider, and the submit pipeline that
 * runs inside their `try` blocks. The provider, the wallet client and the contract write are
 * outside this model; each awaited call is an input `Reply` that either resolves or rejects.
 */
module WalletWrite {
  import opened Common

  /** Chain id of Sepolia, the only network the contracts are deployed on. */
  const SEPOLIA_ID: int := 11155111

  /** EIP-1193 wallet error code for "unrecognized chain id". */
  const UNRECOGNIZED_CHAIN: int := 4902

  /**
   * A rejection from the wallet provider or the contract write: its `code` when it carries
   * one, its `message`, the text a template literal makes of it (`String(error)`, such as
   * "Error: ..." for an `Error`), and whether it is an `Error` instance at all.
   */
  datatype ProviderError = ProviderError(code: Option<int>, message: string, text: string, isError: bool)

  /** The settled value of an awaited external call. */
  datatype Reply<T> = Resolved(value: T) | Rejected(error: ProviderError)

  /** The authentication provider's view of the user, as both write hooks read it. */
  datatype Session = Session(ready: bool, authenticated: bool, wallets: seq<string>)

  /** `isAuthenticated` and `isWalletConnected` of both write hooks. */
  predicate IsAuthenticated(s: Session) {
    s.ready && s.authenticated
  }

  /** `amount` is the text of the amount field, parsed to wei; `None` is the empty string. */
  predicate PositiveAmount(amount: Option<int>) {
    amount.Some? && amount.value > 0
  }

  /** The requests `ensureCorrectChain` can send to the provider. */
  datatype ProviderRequest = ChainIdRequest | SwitchChainRequest(chainId: int) | AddChainRequest(chainId: int)

  /** How the provider answers each of those requests (the chain id already decoded from hex). */
  datatype ChainReplies = ChainReplies(chainId: Reply<int>, switchChain: Reply<()>, addChain: Reply<()>)

  /** The requests made and, when the guard throws, the error it wraps. */
  datatype ChainCheck = ChainCheck(requests: seq<ProviderRequest>, failure: Option<ProviderError>)

  /**
   * `ensureCorrectChain`: ask for the chain id; if it is not Sepolia ask to switch; if the switch
   * is refused because the wallet does not know the chain (code 4902) ask to add it; any other
   * failure, including one of the chain-id or add requests, is wrapped and re-thrown.
   */
  function EnsureCorrectChain(replies: ChainReplies): (r: ChainCheck)
    ensures |r.requests| >= 1 && r.requests[0] == ChainIdRequest
    ensures r.requests <= [ChainIdRequest, SwitchChainRequest(SEPOLIA_ID), AddChainRequest(SEPOLIA_ID)]
    ensures replies.chainId == Resolved(SEPOLIA_ID) <==> r.requests == [ChainIdRequest] && r.failure.None?
    ensures SwitchChainRequest(SEPOLIA_ID) in r.requests <==>
              replies.chainId.Resolved? && replies.chainId.value != SEPOLIA_ID
    ensures AddChainRequest(SEPOLIA_ID) in r.requests <==>
              replies.chainId.Resolved? && replies.chainId.value != SEPOLIA_ID &&
              replies.switchChain.Rejected? && replies.switchChain.error.code == Some(UNRECOGNIZED_CHAIN)
    ensures forall q :: q in r.requests ==> q == ChainIdRequest || q == SwitchChainRequest(SEPOLIA_ID) || q == AddChainRequest(SEPOLIA_ID)
    ensures r.failure.None? <==>
              replies.chainId.Resolved? &&
              (replies.chainId.value == SEPOLIA_ID || replies.switchChain.Resolved? ||
               (replies.switchChain.error.code == Some(UNRECOGNIZED_CHAIN) && replies.addChain.Resolved?))
    ensures replies.chainId.Rejected? ==> r == ChainCheck([ChainIdRequest], Some(replies.chainId.error))
    ensures replies.chainId.Resolved? && replies.chainId.value != SEPOLIA_ID && replies.switchChain.Rejected? ==>
              r.failure == (if replies.switchChain.error.code != Some(UNRECOGNIZED_CHAIN) then Some(replies.switchChain.error)
                            else if replies.addChain.Rejected? then Some(replies.addChain.error)
                            else None)
  {
    match replies.chainId
    case Rejected(e) => ChainCheck([ChainIdRequest], Some(e))
    case Resolved(id) =>
      if id == SEPOLIA_ID then ChainCheck([ChainIdRequest], None)
      else
        match replies.switchChain
        case Resolved(_) => ChainCheck([ChainIdRequest, SwitchChainRequest(SEPOLIA_ID)], None)
        case Rejected(e) =>
          if e.code == Some(UNRECOGNIZED_CHAIN) then
            var requests := [ChainIdRequest, SwitchChainRequest(SEPOLIA_ID), AddChainRequest(SEPOLIA_ID)];
            match replies.addChain
            case Resolved(_) => ChainCheck(requests, None)
            case Rejected(e2) => ChainCheck(requests, Some(e2))
          else ChainCheck([ChainIdRequest, SwitchChainRequest(SEPOLIA_ID)], Some(e))
  }

  /** The errors the write hooks throw, each with its message. */
  datatype ActionError =
    | InvalidPrediction
    | InvalidBetAmount
    | InvalidAmount
    | NotAuthenticated
    | NoWallets
    | NoProvider
    | ChainSwitchFailed(cause: ProviderError)
    | NoAccount
    | ProviderFailed(cause: ProviderError)
  {
    /** True for the errors thrown by the guards, before any state is touched. */
    predicate IsValidation() {
      InvalidPrediction? || InvalidBetAmount? || InvalidAmount? || NotAuthenticated? || NoWallets?
    }

    /**
     * `error instanceof Error`: every error the hooks construct is one; a rethrown provider
     * rejection is one only if the provider made it so.
     */
    predicate IsErrorInstance() {
      !ProviderFailed? || cause.isError
    }

    /** `error.message`. */
    function Message(): string {
      match this
      case InvalidPrediction => "Invalid prediction. Must be between 1 and 6"
      case InvalidBetAmount => "Invalid bet amount"
      case InvalidAmount => "Invalid amount"
      case NotAuthenticated => "Wallet not authenticated with Privy"
      case NoWallets => "No wallets connected"
      case NoProvider => "No Ethereum provider available"
      case ChainSwitchFailed(cause) => "Failed to switch to Sepolia network: " + cause.text
      case NoAccount => "No account connected"
      case ProviderFailed(cause) => cause.message
    }
  }

  /**
   * How the outside world answers one write: the wallet's provider lookup (resolving to no
   * provider is `Resolved(false)`), the chain guard's requests, the account list and the
   * contract write, which resolves to the transaction hash.
   */
  datatype WalletWorld = WalletWorld(
    provider: Reply<bool>,
    chain: ChainReplies,
    accounts: Reply<seq<string>>,
    write: Reply<string>)

  /** Every awaited step of the submit pipeline succeeded. */
  predicate AllStepsSucceed(w: WalletWorld) {
    w.provider == Resolved(true) &&
    EnsureCorrectChain(w.chain).failure.None? &&
    w.accounts.Resolved? && |w.accounts.value| > 0 && w.accounts.value[0] != "" &&
    w.write.Resolved?
  }

  /**
   * The body of the `try` in `rollDice`, `addLiquidity` and `removeLiquidity` after the
   * in-flight flag is set: provider, chain guard, account, write. The first failing step decides
   * the error; only a pipeline in which every step succeeds yields the hash of the write.
   */
  function Submit(w: WalletWorld): (r: Result<string, ActionError>)
    ensures r.Ok? <==> AllStepsSucceed(w)
    ensures r.Ok? ==> w.write == Resolved(r.value)
    ensures r.Err? ==> !r.error.IsValidation()
    ensures w.provider.Rejected? ==> r == Err(ProviderFailed(w.provider.error))
    ensures w.provider == Resolved(false) ==> r == Err(NoProvider)
    ensures w.provider == Resolved(true) && EnsureCorrectChain(w.chain).failure.Some? ==>
              r == Err(ChainSwitchFailed(EnsureCorrectChain(w.chain).failure.value))
    ensures r.Err? && r.error.ChainSwitchFailed? ==> w.provider == Resolved(true)
    ensures w.provider == Resolved(true) && EnsureCorrectChain(w.chain).failure.None? && w.accounts.Rejected? ==>
              r == Err(ProviderFailed(w.accounts.error))
    ensures w.provider == Resolved(true) && EnsureCorrectChain(w.chain).failure.None? && w.accounts.Resolved? &&
            (|w.accounts.value| == 0 || w.accounts.value[0] == "") ==>
              r == Err(NoAccount)
    ensures w.provider == Resolved(true) && EnsureCorrectChain(w.chain).failure.None? && w.accounts.Resolved? &&
            |w.accounts.value| > 0 && w.accounts.value[0] != "" && w.write.Rejected? ==>
              r == Err(ProviderFailed(w.write.error))
  {
    match w.provider
    case Rejected(e) => Err(ProviderFailed(e))
    case Resolved(available) =>
      if !available then Err(NoProvider)
      else
        var check := EnsureCorrectChain(w.chain);
        if check.failure.Some? then Err(ChainSwitchFailed(check.failure.value))
        else
          match w.accounts
          case Rejected(e) => Err(ProviderFailed(e))
          case Resolved(accounts) =>
            if |accounts| == 0 || accounts[0] == "" then Err(NoAccount)
            else
              match w.write
              case Rejected(e) => Err(ProviderFailed(e))
              case Resolved(hash) => Ok(hash)
  }
}
