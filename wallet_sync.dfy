/**
 * The two components that keep the wallet library's connection in step with the
 * authentication provider: `PrivyWagmiSync` connects or disconnects, and `WalletSyncManager`
 * asks to switch to Sepolia. Each effect is a decision over one snapshot of its inputs; the
 * `connect`, `disconnect` and `switchChain` calls it makes are returned as actions.
 */
module WalletSync {
  import opened Common
  import opened WalletWrite

  /** What the first effect of `PrivyWagmiSync` does; a connector is named by its `name`. */
  datatype SyncAction = Connect(connector: string) | Disconnect | NoAction

  /**
   * `PrivyWagmiSync`: connect with the first connector when a ready, authenticated user with
   * a Privy wallet is not connected; disconnect when a ready, unauthenticated user is.
   */
  function SyncDecision(ready: bool, authenticated: bool, privyAddress: Option<string>,
                        isConnected: bool, connectors: seq<string>): (r: SyncAction)
    ensures r.Connect? <==> ready && authenticated && Present(privyAddress) && !isConnected && |connectors| > 0
    ensures r.Connect? ==> r.connector == connectors[0]
    ensures r == Disconnect <==> ready && !authenticated && isConnected
    ensures !ready ==> r == NoAction
  {
    if ready && authenticated && Present(privyAddress) && !isConnected && |connectors| > 0 then Connect(connectors[0])
    else if ready && !authenticated && isConnected then Disconnect
    else NoAction
  }

  /** The connection state once an action has taken effect. */
  function Connected(isConnected: bool, action: SyncAction): bool {
    match action
    case Connect(_) => true
    case Disconnect => false
    case NoAction => isConnected
  }

  /**
   * The effect settles after one action: once the connection reflects what it did, the next
   * run of the effect on the same session does nothing, so it never flips back and forth.
   */
  lemma SyncSettles(ready: bool, authenticated: bool, privyAddress: Option<string>,
                    isConnected: bool, connectors: seq<string>)
    ensures var action := SyncDecision(ready, authenticated, privyAddress, isConnected, connectors);
            SyncDecision(ready, authenticated, privyAddress, Connected(isConnected, action), connectors) == NoAction
  {
  }

  /** `WalletSyncManager`: the chain to switch to, when connected to a known chain other than Sepolia. */
  function SwitchRequest(isConnected: bool, chainId: Option<int>): (r: Option<int>)
    ensures r.Some? <==> isConnected && chainId.Some? && chainId.value != SEPOLIA_ID
    ensures r.Some? ==> r.value == SEPOLIA_ID
  {
    if isConnected && chainId.Some? && chainId.value != SEPOLIA_ID then Some(SEPOLIA_ID) else None
  }

  /** Once the wallet is on the chain the switch asked for, no further switch is requested. */
  lemma SwitchSettles(isConnected: bool, chainId: Option<int>)
    requires SwitchRequest(isConnected, chainId).Some?
    ensures SwitchRequest(isConnected, SwitchRequest(isConnected, chainId)) == None
  {
  }

  /** One run of the effect: the `(isConnected, chain?.id)` it sees. */
  datatype ChainSnapshot = ChainSnapshot(isConnected: bool, chainId: Option<int>)

  predicate Mismatched(s: ChainSnapshot) {
    SwitchRequest(s.isConnected, s.chainId).Some?
  }

  /** How many switches the effect requests over successive snapshots. */
  function SwitchCount(snapshots: seq<ChainSnapshot>): nat {
    if snapshots == [] then 0
    else SwitchCount(snapshots[..|snapshots| - 1]) + (if Mismatched(snapshots[|snapshots| - 1]) then 1 else 0)
  }

  /** Switch requests over a run are the requests of its two parts. */
  lemma {:induction false} SwitchCountAppend(a: seq<ChainSnapshot>, b: seq<ChainSnapshot>)
    ensures SwitchCount(a + b) == SwitchCount(a) + SwitchCount(b)
  {
    if b != [] {
      assert (a + b)[..|a + b| - 1] == a + b[..|b| - 1];
      SwitchCountAppend(a, b[..|b| - 1]);
    } else {
      assert a + b == a;
    }
  }

  /** Every mismatched snapshot requests a switch of its own, however many came before. */
  lemma {:induction false} SwitchCountIsMismatches(snapshots: seq<ChainSnapshot>)
    ensures SwitchCount(snapshots) == |set i | 0 <= i < |snapshots| && Mismatched(snapshots[i])|
  {
    if snapshots != [] {
      var n := |snapshots| - 1;
      var init := snapshots[..n];
      SwitchCountIsMismatches(init);
      var before := set i | 0 <= i < n && Mismatched(init[i]);
      var after := set i | 0 <= i < |snapshots| && Mismatched(snapshots[i]);
      assert forall i :: 0 <= i < n ==> init[i] == snapshots[i];
      if Mismatched(snapshots[n]) {
        assert after == before + {n};
      } else {
        assert after == before;
      }
    }
  }

  /**
   * No memory of an earlier request: a mismatched snapshot always adds one more switch,
   * whatever was requested before it.
   */
  lemma RepeatedMismatchRepeatsSwitch(earlier: seq<ChainSnapshot>, s: ChainSnapshot)
    requires Mismatched(s)
    ensures SwitchCount(earlier + [s]) == SwitchCount(earlier) + 1
  {
    assert (earlier + [s])[..|earlier|] == earlier;
  }
}
