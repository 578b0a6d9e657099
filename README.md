# Dice prediction game frontend: a verified model of its state logic

The frontend of the dice prediction game is a Next.js app. A player bets ether on a die face, the
contract rolls with Chainlink VRF, and the app watches for the `PlayerWon` / `PlayerLost` events.
Most of the app is presentation around a wallet SDK (Privy), a contract library (wagmi/viem) and
RPC calls. This project models the sequential logic inside it and proves what that logic promises:

- **WalletWrite** (`wallet_write.dfy`) covers what the two write hooks share:
  - the session checks;
  - the Sepolia chain guard `ensureCorrectChain`: read the chain id, switch, and add the chain on error 4902;
  - the submit pipeline: provider, chain, account, contract write.

  Every awaited wallet call is an input that resolves or rejects.
- **DiceGameActions** and **LiquidityPoolActions** are the write hooks as classes. Each write:
  - checks its guards in order, before any state changes;
  - raises its in-flight flag and clears the last error;
  - records the hash, or records the error and rethrows it;
  - always drops the flag.
- **GameEvents** is `useDiceGameEvents` as a class. A method walks a batch of logs; the user's
  results become the latest result and are prepended to a history capped at ten.
- **Leaderboard** is `useLeaderboard`:
  - per-player score defaulting;
  - a stable sort by score, highest first;
  - positions 1..n;
  - count, highest and rounded mean score;
  - the combined loading and error report.
- **HomePage** is the dice page:
  - `handleRollDice`;
  - the confirmation, result and notification effects, as guarded steps on a state record and as
    a class whose methods apply them in place;
  - the auto-clear rule;
  - the roll button's `disabled` predicate;
  - the rolling-dice frame cycle.
- **LeaderboardPage** is the leaderboard page's helpers: the effective address, the current-player
  lookup and the "You" highlight, `formatAddress`, and the position icon and colour.
- **WalletSync** is the connect/disconnect decision of `PrivyWagmiSync` and the auto-switch
  decision of `WalletSyncManager`.

Amounts are integers in wei. An empty amount field is `None`. Strings are `seq<char>`, and
addresses are compared after ASCII lower-casing.

## Model

| member | source | states |
|---|---|---|
| WalletWrite.EnsureCorrectChain | frontend-dice-prediction-game/src/hooks/useDiceGameActions.ts:27-72 | The chain id is always read first. The requests made are a prefix of: chain id, one switch, one add-chain, in that order, all for Sepolia. On Sepolia nothing more is requested. Otherwise the switch is requested; the add-chain request follows exactly when the switch was rejected with 4902. Any other rejection is reported as the failure. |
| WalletWrite.IsAuthenticated | frontend-dice-prediction-game/src/hooks/useDiceGameActions.ts:150-151 | `isAuthenticated` and `isWalletConnected`: the session is ready and authenticated. |
| WalletWrite.Submit | frontend-dice-prediction-game/src/hooks/useDiceGameActions.ts:92-131 | The write succeeds exactly when every step succeeds, and then yields the write's hash. The first failing step decides the error: a rejected or missing provider, a chain failure (wrapped), a rejected account request, an empty account list or first account, and a rejected write each give their own error. None of them is a validation error. |
| WalletWrite.ActionError.Message | frontend-dice-prediction-game/src/hooks/useDiceGameActions.ts:71-117 | The message of each error the write hooks throw: the four guard texts, the provider and account texts, the 'Failed to switch to Sepolia network: ' wrapper around the cause's text, and a rethrown rejection's own message. |
| DiceGameActions.ValidateRoll | frontend-dice-prediction-game/src/hooks/useDiceGameActions.ts:76-90 | The guards run in source order: prediction in 1..6, then a positive bet, then ready and authenticated, then a wallet. Each error occurs exactly when the earlier guards pass and its own fails. |
| DiceGameActions.DiceGameActions.constructor | frontend-dice-prediction-game/src/hooks/useDiceGameActions.ts:9-11 | The initial hook state: not rolling, no hash, no error. |
| DiceGameActions.DiceGameActions.IsWritePending | frontend-dice-prediction-game/src/hooks/useDiceGameActions.ts:144 | `isWritePending` is the rolling flag; `RollDice` leaves it down whatever the outcome. |
| DiceGameActions.DiceGameActions.BeginWrite | frontend-dice-prediction-game/src/hooks/useDiceGameActions.ts:92-94 | Entering the `try` raises `isRollingDice`, clears `writeError` and keeps the hash. |
| DiceGameActions.DiceGameActions.EndWrite | frontend-dice-prediction-game/src/hooks/useDiceGameActions.ts:130-138 | A hash is recorded, or an error is recorded and the hash kept. The flag drops either way. |
| DiceGameActions.DiceGameActions.RollDice | frontend-dice-prediction-game/src/hooks/useDiceGameActions.ts:75-139 | A guard failure throws and changes nothing. Otherwise the result is the submit pipeline's. The flag is down afterwards. Success records the hash; failure records the error and keeps the old hash. |
| LiquidityPoolActions.ValidateLiquidity | frontend-dice-prediction-game/src/hooks/useLiquidityPoolActions.ts:76-87 | 'Invalid amount' comes before the auth check, and the auth check before the wallet check. Each error occurs exactly in its case. |
| LiquidityPoolActions.LiquidityPoolActions.constructor | frontend-dice-prediction-game/src/hooks/useLiquidityPoolActions.ts:9-12 | The initial hook state: neither write in flight, no hash, no error. |
| LiquidityPoolActions.LiquidityPoolActions.IsWritePending | frontend-dice-prediction-game/src/hooks/useLiquidityPoolActions.ts:203 | `isWritePending` is true while either write is in flight; `BeginWrite` raises it and `AddThenRemove` ends with it down. |
| LiquidityPoolActions.LiquidityPoolActions.BeginWrite | frontend-dice-prediction-game/src/hooks/useLiquidityPoolActions.ts:89-91 | Raises the flag of the write being made, leaves the other flag, and clears the error. |
| LiquidityPoolActions.LiquidityPoolActions.EndWrite | frontend-dice-prediction-game/src/hooks/useLiquidityPoolActions.ts:126-134 | Records the hash or the error, and drops only this write's flag. |
| LiquidityPoolActions.LiquidityPoolActions.Write | frontend-dice-prediction-game/src/hooks/useLiquidityPoolActions.ts:76-135 | Guard failures change nothing. Otherwise the result is the pipeline's, and the shared hash becomes this write's hash on success. The other write's flag is untouched. |
| LiquidityPoolActions.LiquidityPoolActions.AddLiquidity | frontend-dice-prediction-game/src/hooks/useLiquidityPoolActions.ts:76-135 | `addLiquidity`: the contract of `Write` for an add. `isRemovingLiquidity` is unchanged. |
| LiquidityPoolActions.LiquidityPoolActions.RemoveLiquidity | frontend-dice-prediction-game/src/hooks/useLiquidityPoolActions.ts:137-196 | `removeLiquidity`: the contract of `Write` for a remove. `isAddingLiquidity` is unchanged. |
| LiquidityPoolActions.AddThenRemove | frontend-dice-prediction-game/src/hooks/useLiquidityPoolActions.ts:11 | After a validated add and then a remove on the one shared `transactionHash`, each result is its own pipeline's. The hash is the remove's when it succeeds, and stays the add's when only the add succeeds. No flag is left raised. |
| Leaderboard.ScoreOf | frontend-dice-prediction-game/src/hooks/useLeaderboard.ts:76-92 | A thrown or non-OK fetch, or a falsy score, gives 0. Otherwise the fetched score is used. |
| Leaderboard.Unranked | frontend-dice-prediction-game/src/hooks/useLeaderboard.ts:62-96 | There is one player per address, in address order, each with its fetched-or-zero score. No player is dropped. |
| Leaderboard.Insert | frontend-dice-prediction-game/src/hooks/useLeaderboard.ts:99-100 | Insertion adds exactly the one player: length plus one, multiset plus that player. |
| Leaderboard.InsertSorted | frontend-dice-prediction-game/src/hooks/useLeaderboard.ts:99-100 | Inserting into a list sorted by descending score keeps it sorted. |
| Leaderboard.SortByScore | frontend-dice-prediction-game/src/hooks/useLeaderboard.ts:99-100 | The sorted list is a permutation of the input, with non-increasing scores. |
| Leaderboard.InsertWithScore | frontend-dice-prediction-game/src/hooks/useLeaderboard.ts:99-100 | Insertion puts the new player ahead of every player with the same score. |
| Leaderboard.SortIsStable | frontend-dice-prediction-game/src/hooks/useLeaderboard.ts:99-100 | Players with equal scores keep their address-list order, for every score. |
| Leaderboard.Numbered | frontend-dice-prediction-game/src/hooks/useLeaderboard.ts:101-104 | Row i becomes the same player with position i + 1. |
| Leaderboard.RankSpec | frontend-dice-prediction-game/src/hooks/useLeaderboard.ts:99-104 | The published list has the input's length and positions exactly 1..n in list order. It is sorted, and apart from positions it is a stable permutation of the input. |
| Leaderboard.Rank | frontend-dice-prediction-game/src/hooks/useLeaderboard.ts:99-104 | The published list: the stable sort by score, numbered from 1. Its properties are stated by `RankSpec`. |
| Leaderboard.HighestScore | frontend-dice-prediction-game/src/hooks/useLeaderboard.ts:109 | `Math.max(...scores, 0)`: no score exceeds it, and it is 0 or some player's score. |
| Leaderboard.HighestIsFirst | frontend-dice-prediction-game/src/hooks/useLeaderboard.ts:107-109 | On the sorted list the highest score is the first player's. |
| Leaderboard.TotalScore | frontend-dice-prediction-game/src/hooks/useLeaderboard.ts:110 | The `reduce` sum of all scores; `TotalAtMost` bounds it by n times the highest. |
| Leaderboard.RoundedMean | frontend-dice-prediction-game/src/hooks/useLeaderboard.ts:110 | For n > 0 the result r satisfies r - 1/2 <= sum/n < r + 1/2, which is `Math.round`. For n = 0 it is 0. |
| Leaderboard.ComputeStats | frontend-dice-prediction-game/src/hooks/useLeaderboard.ts:107-110 | `totalPlayers` is the list length, and an empty list has all-zero stats. |
| Leaderboard.TotalAtMost | frontend-dice-prediction-game/src/hooks/useLeaderboard.ts:110 | A sum of n scores each at most m is at most n·m. |
| Leaderboard.MeanAtMost | frontend-dice-prediction-game/src/hooks/useLeaderboard.ts:110 | A rounded mean of a sum at most n·m is at most m. |
| Leaderboard.AverageAtMostHighest | frontend-dice-prediction-game/src/hooks/useLeaderboard.ts:107-110 | The published average never exceeds the published highest score. |
| Leaderboard.LeaderboardState.constructor | frontend-dice-prediction-game/src/hooks/useLeaderboard.ts:19-26 | The initial state: no players, zero stats, loading, no error. |
| Leaderboard.LeaderboardState.FetchScores | frontend-dice-prediction-game/src/hooks/useLeaderboard.ts:45-123 | An absent or empty address list publishes an empty board with zero stats and keeps the error. Otherwise the error is cleared, and the ranked list and its stats are published. Loading ends either way. |
| Leaderboard.Reported | frontend-dice-prediction-game/src/hooks/useLeaderboard.ts:129-130 | Loading is the OR of both flags. The error is the player-list error if non-empty, else the score error if non-empty, else none. |
| GameEvents.UserAddress | frontend-dice-prediction-game/src/hooks/useDiceGameEvents.ts:25-26 | The user address is the connected account if non-empty, else the first Privy wallet, else none. |
| GameEvents.IsUsersLog | frontend-dice-prediction-game/src/hooks/useDiceGameEvents.ts:80 | A log is the user's exactly when a non-empty user address and a non-empty player match case-insensitively; `HandleLog` records only such logs. |
| GameEvents.HandleLog | frontend-dice-prediction-game/src/hooks/useDiceGameEvents.ts:58-100 | A log is recorded only if it is the user's, case-insensitively. Another player's log is ignored. Missing args or amounts throw. A won result carries the winning amount and a lost one none. A missing hash is recorded as "". The timestamp is the clock reading. |
| GameEvents.RecordedAppend | frontend-dice-prediction-game/src/hooks/useDiceGameEvents.ts:55 | Logs are handled independently and in order: a batch records what its parts record. |
| GameEvents.SkippedLogChangesNothing | frontend-dice-prediction-game/src/hooks/useDiceGameEvents.ts:58-100 | A log that throws or is not the user's leaves the rest of the batch's results as they would be without it. |
| GameEvents.NoUserRecordsNothing | frontend-dice-prediction-game/src/hooks/useDiceGameEvents.ts:80 | Without a user address no log is recorded. |
| GameEvents.RecordedStep | frontend-dice-prediction-game/src/hooks/useDiceGameEvents.ts:55-101 | Handling one more log appends exactly that log's result if it records one, and nothing otherwise. |
| GameEvents.PushAllSnoc | frontend-dice-prediction-game/src/hooks/useDiceGameEvents.ts:94 | Pushing one more result pushes it onto the history built so far. |
| GameEvents.PushResult | frontend-dice-prediction-game/src/hooks/useDiceGameEvents.ts:94 | The new result comes first, followed by the previous history cut to nine. The length is at most ten. |
| GameEvents.PushAllNewestFirst | frontend-dice-prediction-game/src/hooks/useDiceGameEvents.ts:93-94 | After a batch, the history is the batch's results newest first, followed by the old history, cut to ten. |
| GameEvents.EventCorrelator.constructor | frontend-dice-prediction-game/src/hooks/useDiceGameEvents.ts:18-19 | No latest result and an empty history. |
| GameEvents.EventCorrelator.OnLogs | frontend-dice-prediction-game/src/hooks/useDiceGameEvents.ts:52-101 | The history becomes the old history with each recorded result pushed in turn. The latest result becomes the batch's last recorded result, or stays as it was. The ten-entry cap is kept. |
| GameEvents.EventCorrelator.ClearLatestResult | frontend-dice-prediction-game/src/hooks/useDiceGameEvents.ts:173 | Forgets the latest result and leaves the history unchanged. |
| HomePage.BetError | frontend-dice-prediction-game/src/app/page.tsx:114-122 | An empty or non-positive bet gives 'Please enter a valid bet amount'. A bet below the minimum gives 'Bet amount must be at least … ETH'. Otherwise there is no error. |
| HomePage.BelowMinimumMessage | frontend-dice-prediction-game/src/app/page.tsx:120 | 'Bet amount must be at least ', the minimum bet's text, then ' ETH'. |
| HomePage.BeginRoll | frontend-dice-prediction-game/src/app/page.tsx:113-135 | A rejected bet sets only the error notice. An accepted one clears the processed hash, the received and pending flags, the notice and the latest result, and keeps the bet and the hook's hash. |
| HomePage.RollFailureText | frontend-dice-prediction-game/src/app/page.tsx:142-149 | The failure notice shows an `Error`'s message, and 'Failed to roll dice. Please try again.' for anything else. |
| HomePage.FinishRoll | frontend-dice-prediction-game/src/app/page.tsx:136-149 | A hash becomes the new, unconfirmed transaction and is announced by its first ten characters. A failure shows its text and keeps the hook's hash and confirmation. Either way the bet, the pending and received flags, the processed hash and the latest result are kept. |
| HomePage.SubmittedMessage | frontend-dice-prediction-game/src/app/page.tsx:139 | The submitted notice, naming the first ten characters of the hash. |
| HomePage.ConfirmationEffect | frontend-dice-prediction-game/src/app/page.tsx:163-178 | Fires only for a confirmed, non-empty hash other than the processed one. It then sets pending, records the hash, resets received, shows the confirmed notice and clears the bet, keeping the hash, the confirmation and the latest result. It is never due again right after. |
| HomePage.ResultReceivedEffect | frontend-dice-prediction-game/src/app/page.tsx:181-187 | Clears pending and sets received exactly when a result is present while pending and not yet received. Otherwise nothing changes. |
| HomePage.ConfirmationDue | frontend-dice-prediction-game/src/app/page.tsx:164 | The confirmation effect's guard: confirmed, a non-empty hash, and that hash is not the processed one. |
| HomePage.ClearWaitingEffect | frontend-dice-prediction-game/src/app/page.tsx:190-194 | Drops the notice when a result is present and the notice contains 'Waiting for result'; `WaitingNoticeNeverCleared` shows the confirmed notice never does. |
| HomePage.ResultNotificationEffect | frontend-dice-prediction-game/src/app/page.tsx:197-227 | A result sets the won (success) or lost (error) notice and clears the bet, and changes nothing else. No result changes nothing. |
| HomePage.WonMessage | frontend-dice-prediction-game/src/app/page.tsx:211 | The win notice, with the rolled number and the winning amount's text; `WonMessageHasMarker` shows it contains 'WON!'. |
| HomePage.LostMessage | frontend-dice-prediction-game/src/app/page.tsx:219 | The loss notice, with the rolled number; `LostMessageHasMarker` shows it contains 'You lost'. |
| HomePage.ConfirmErrorEffect | frontend-dice-prediction-game/src/app/page.tsx:230-237 | A receipt error sets 'Transaction failed to confirm. Please try again.'. |
| HomePage.EnabledButtonPassesChecks | frontend-dice-prediction-game/src/app/page.tsx:850-858 | An enabled roll button implies that the handler's bet checks pass and that the user is authenticated and not rolling, confirming or waiting. |
| HomePage.RollDisabled | frontend-dice-prediction-game/src/app/page.tsx:850-858 | The roll button is disabled for an empty, non-positive or below-minimum bet, while rolling, confirming or waiting, or when not authenticated. |
| HomePage.AutoClearScheduled | frontend-dice-prediction-game/src/app/page.tsx:153-160 | A notice is scheduled to clear exactly when it contains neither 'WON!' nor 'You lost'. |
| HomePage.ConfirmationOncePerHash | frontend-dice-prediction-game/src/app/page.tsx:163-178 | Running the confirmation effect twice in a row equals running it once, and a run that fires records the hash as processed. |
| HomePage.ResultReceivedIdempotent | frontend-dice-prediction-game/src/app/page.tsx:181-187 | The result-received effect is idempotent. A result that is not yet received ends the wait. |
| HomePage.ResultNoticesStay | frontend-dice-prediction-game/src/app/page.tsx:153-160 | Win and loss notices are never auto-cleared. |
| HomePage.ConfirmedNoticeClears | frontend-dice-prediction-game/src/app/page.tsx:153-160 | The confirmation notice is auto-cleared. |
| HomePage.InvalidBetNoticeClears | frontend-dice-prediction-game/src/app/page.tsx:153-160 | The invalid-bet notice is auto-cleared. |
| HomePage.WaitingNoticeNeverCleared | frontend-dice-prediction-game/src/app/page.tsx:190-194 | The effect meant to drop the waiting notice never changes the state when that notice is showing, because the text it looks for does not occur in the notice. |
| HomePage.StaleConfirmationRefires | frontend-dice-prediction-game/src/app/page.tsx:126-164 | As written, a new roll makes the confirmation effect fire again for the old hash. A refused roll is then left pending with no result coming and the button disabled. |
| HomePage.BeginRollFixed | frontend-dice-prediction-game/src/app/page.tsx:124-135 | The corrected start of a roll: as written, except that the processed hash is kept. |
| HomePage.FixedRollDoesNotRefire | frontend-dice-prediction-game/src/app/page.tsx:126-164 | With the corrected start, an already processed confirmation never fires again, and a refused roll leaves nothing pending. |
| HomePage.RollLifecycle | frontend-dice-prediction-game/src/app/page.tsx:113-227 | For the start as written, and for the corrected start when the hash is new: a roll goes submitted, then confirmed and waiting with the bet cleared, then resolved and not waiting, with a result notice that stays. |
| HomePage.CompletesFrom | frontend-dice-prediction-game/src/app/page.tsx:136-227 | From any state in which the submitted hash is new and non-empty, the roll completes: confirmed, waiting, then resolved with a notice that stays. |
| HomePage.RollPage.constructor | frontend-dice-prediction-game/src/app/page.tsx:23-27 | The initial render: empty bet, no notice, nothing pending or processed. |
| HomePage.RollPage.StartRoll | frontend-dice-prediction-game/src/app/page.tsx:113-135 | Updates the page state in place exactly as `BeginRoll`, and reports whether the bet may be submitted: exactly when the page's bet checks pass. |
| HomePage.RollPage.HandleRollDice | frontend-dice-prediction-game/src/app/page.tsx:113-150 | A rejected bet sets only its notice and never reaches `rollDice`: the actions hook is unchanged. An accepted bet is submitted once, and the page settles with that outcome. The outcome is the submit pipeline's, or the hook's guard error. On success the page's hash is the hook's. |
| HomePage.RollPage.SettleRoll | frontend-dice-prediction-game/src/app/page.tsx:136-149 | Updates the page state in place exactly as `FinishRoll`. |
| HomePage.RollPage.OnConfirmation | frontend-dice-prediction-game/src/app/page.tsx:163-178 | Updates the page state in place exactly as `ConfirmationEffect`, after which it is not due. |
| HomePage.RollPage.OnResultReceived | frontend-dice-prediction-game/src/app/page.tsx:181-187 | Updates the page state in place exactly as `ResultReceivedEffect`. |
| HomePage.RollPage.OnClearWaiting | frontend-dice-prediction-game/src/app/page.tsx:190-194 | Updates the page state in place exactly as `ClearWaitingEffect`. |
| HomePage.RollPage.OnResult | frontend-dice-prediction-game/src/app/page.tsx:197-227 | Updates the page state in place exactly as `ResultNotificationEffect`. The notice it sets is never auto-cleared. |
| HomePage.RollPage.OnConfirmError | frontend-dice-prediction-game/src/app/page.tsx:230-237 | Updates the page state in place exactly as `ConfirmErrorEffect`. |
| HomePage.NextFrame | frontend-dice-prediction-game/src/app/page.tsx:93-94 | From a face 1..6 one animation tick shows the next face, wrapping from 6 back to 1. |
| HomePage.FaceStep | frontend-dice-prediction-game/src/app/page.tsx:91-94 | After k ticks the frame is k mod 6 + 1, and the next tick shows (k + 1) mod 6 + 1. |
| HomePage.FacePeriod | frontend-dice-prediction-game/src/app/page.tsx:91-94 | Every frame is a die face, 1..6, and the frames repeat every six ticks. |
| HomePage.RollingFrames | frontend-dice-prediction-game/src/app/page.tsx:91-95 | Tick k shows face (k + 1) mod 6 + 1, always in 1..6, and the faces repeat every six ticks. |
| LeaderboardPage.EffectiveAddress | frontend-dice-prediction-game/src/app/leaderboard/page.tsx:24 | The connected account if non-empty, else the Privy wallet. It is undefined only when both are missing. |
| LeaderboardPage.ScoreReadEnabled | frontend-dice-prediction-game/src/app/leaderboard/page.tsx:47 | The score read's `enabled`: a truthy effective address, authenticated and ready. |
| LeaderboardPage.ScoreReadNeedsAddress | frontend-dice-prediction-game/src/app/leaderboard/page.tsx:47 | The user's score read runs only for an authenticated, ready session with a non-empty address. |
| LeaderboardPage.FirstMatch | frontend-dice-prediction-game/src/app/leaderboard/page.tsx:260 | `find` stops at the first row that is the user's. Either no earlier row is, or no row at all is. |
| LeaderboardPage.IsYou | frontend-dice-prediction-game/src/app/leaderboard/page.tsx:260 | A row is the user's when an effective address exists and matches the row's address case-insensitively. |
| LeaderboardPage.CurrentPlayer | frontend-dice-prediction-game/src/app/leaderboard/page.tsx:260 | There is a current player exactly when some row matches case-insensitively, and it is the first such row. An undefined address matches none. |
| LeaderboardPage.BannerMatchesHighlight | frontend-dice-prediction-game/src/app/leaderboard/page.tsx:414-456 | The "You" highlight and the current-player banner use one predicate. A banner exists exactly when some row is highlighted, and it shows the first highlighted row. |
| LeaderboardPage.CurrentPlayerPosition | frontend-dice-prediction-game/src/app/leaderboard/page.tsx:364-369 | On a ranked board the banner's position is the current player's row number. |
| LeaderboardPage.FormatAddress | frontend-dice-prediction-game/src/app/leaderboard/page.tsx:262-264 | The first six characters, then "...", then the last four. The result has 13 characters for addresses of 10 or more, and the exact length for shorter ones; from six characters on, "..." sits at positions 6-8. |
| LeaderboardPage.PositionIcon | frontend-dice-prediction-game/src/app/leaderboard/page.tsx:266-273 | Gold, silver and bronze medals for 1, 2 and 3. Any other position is "#" followed by its decimal text, and only those start with "#". |
| LeaderboardPage.PositionColor | frontend-dice-prediction-game/src/app/leaderboard/page.tsx:275-282 | Three podium gradients, and one default gradient for every other position. |
| LeaderboardPage.ColorsDistinguishPodium | frontend-dice-prediction-game/src/app/leaderboard/page.tsx:275-282 | Two positions share a gradient only when they are equal or both off the podium. |
| WalletSync.SyncDecision | frontend-dice-prediction-game/src/components/PrivyWagmiSync.tsx:14-31 | Connect happens exactly when the session is ready and authenticated, a Privy wallet address exists, the wallet is not connected and a connector exists; it uses the first connector. Disconnect happens exactly when the session is ready, not authenticated and connected. Never both, and nothing before ready. |
| WalletSync.SyncSettles | frontend-dice-prediction-game/src/components/PrivyWagmiSync.tsx:14-31 | Once the connection reflects the action taken, the next run does nothing. |
| WalletSync.SwitchRequest | frontend-dice-prediction-game/src/components/WalletSyncManager.tsx:14-19 | A switch is requested exactly when connected to a known chain other than Sepolia, and it always targets Sepolia. |
| WalletSync.SwitchSettles | frontend-dice-prediction-game/src/components/WalletSyncManager.tsx:14-19 | On the chain the switch asked for, no further switch is requested. |
| WalletSync.SwitchCountAppend | frontend-dice-prediction-game/src/components/WalletSyncManager.tsx:14-19 | The switches requested over a run of snapshots add up over its parts. |
| WalletSync.SwitchCountIsMismatches | frontend-dice-prediction-game/src/components/WalletSyncManager.tsx:14-19 | One switch is requested for every mismatched snapshot, and none for any other. |
| WalletSync.RepeatedMismatchRepeatsSwitch | frontend-dice-prediction-game/src/components/WalletSyncManager.tsx:14-19 | There is no memory of earlier requests: a mismatched snapshot always requests one more switch. |
| Common.Lower | frontend-dice-prediction-game/src/hooks/useDiceGameEvents.ts:80 | `toLowerCase` on ASCII: same length, and each character lower-cased. |
| Common.SameAddress | frontend-dice-prediction-game/src/hooks/useDiceGameEvents.ts:80 | Two addresses are equal after ASCII lower-casing, as `toLowerCase() ===` compares them. |
| Common.IntToString | frontend-dice-prediction-game/src/app/page.tsx:211 | The decimal text of an integer: a leading '-' exactly for negatives, followed by the text of its magnitude. |
| Common.NatToString | frontend-dice-prediction-game/src/app/page.tsx:211 | The text is non-empty and all digits. |
| Common.NatToStringValue | frontend-dice-prediction-game/src/app/page.tsx:211 | The digits read back as n, with no leading zero for n > 0: the text is n's decimal rendering. |
| Common.IntToStringValue | frontend-dice-prediction-game/src/app/page.tsx:211 | The text reads back as the integer's sign and magnitude, with no leading zero. |
| Common.Take | frontend-dice-prediction-game/src/app/page.tsx:139 | `slice(0, n)`: the first min(n, length) elements. |

## Left out

- Floating point. `parseFloat`, its NaN on malformed text and `toFixed` are not modelled. Amounts are integers in wei; the minimum bet is an integer together with its display text; the winning amount's six-decimal text is an input.
- `formatEther`, `parseEther` and `parseInt(hex, 16)` are not modelled. Values arrive already converted: chain ids as integers, event amounts in wei.
- The external systems are inputs. Privy, the wagmi hooks, the viem clients and RPC are not modelled. Each awaited provider call is an input that resolves or rejects. Event logs and receipt status are inputs. The clock is one reading per batch, where the source reads it once per log.
- Timers are not modelled: the 5-second auto-clear, the 1-second wait after a switch, and the 25-second animation cap. Only the decision of whether the auto-clear is scheduled is modelled, and the frames shown per tick.
- `Promise.all` in `fetchScores` is a sequential map with one outcome per address. Its outer `catch` is not modelled, because every per-address failure is already caught.
- Leaderboard.SortByScore: the in-place `Array.prototype.sort` is a pure stable insertion sort; the source's comparator order is stable since ECMAScript 2019.
- `ensureCorrectChain` is written twice, once in each write hook, and modelled once, in `WalletWrite`. The copies differ for a switch rejection that is not an object. The dice copy (useDiceGameActions.ts:48) reads `switchError.code` unguarded, so a `null` or `undefined` rejection raises a `TypeError` inside its catch, which the outer catch wraps. The liquidity copy (useLiquidityPoolActions.ts:48) checks for an object with a `code` first and rethrows the value itself, which is then wrapped. Both end in the same "Failed to switch to Sepolia network" error, with different text after the colon.
- WalletWrite.EnsureCorrectChain: non-object rejections (`null`, `undefined`, strings) are not modelled. A `ProviderError` always has an optional code, a message and a text, so the `TypeError` of the dice copy has no counterpart.
- The intermediate states inside the submit pipeline, between its awaits, are not modelled. Only the flags before and after are.
- Lower-casing is ASCII only. Addresses are hex strings.
- `wagmi`'s `chain` is undefined when the wallet is on a chain the app is not configured for. That configuration is not part of this model, so the chain id is an input.
- Rendering, animation, confetti, emoji rain, the debug panels and console logging are not modelled.
- The API routes, `useMinBet`, `useLiquidityPool`, `useWalletBalance`, `Header.tsx`, the liquidity page and the configuration files are not part of this model.
- HomePage.RollPage: React's batched state updates and re-rendering are not modelled. Each method applies one handler or effect body atomically, and the order of effects after a render is the caller's.

## Findings

| source | as written | input that shows it | evidently intended | confidence | as-written member | corrected member |
|---|---|---|---|---|---|---|
| frontend-dice-prediction-game/src/app/page.tsx:126 | Starting a roll sets `processedTransactionHash` to null. The previous roll's hash is still the hook's `transactionHash` and is still confirmed, so the confirmation effect at line 164 fires again for it while the new roll is being signed: it sets `isPendingResult`, shows "Dice roll confirmed!" and clears the bet. | A settled previous roll with hash `0xaa` confirmed and processed. The user starts a new roll, and the wallet refuses it (code 4001). `isPendingResult` stays true, `latestResult` is null, and the roll button is disabled until some other result event arrives. | A confirmed hash is processed once. Starting a roll should not make the old hash's confirmation count again. | not executed | HomePage.StaleConfirmationRefires | HomePage.BeginRollFixed |
