/**
 * The leaderboard page (`app/leaderboard/page.tsx`): which address is the user's, which row
 * is the user's, and how addresses and positions are displayed.
 */
module LeaderboardPage {
  import opened Common
  import opened Leaderboard

  /** `address || user?.wallet?.address`: the connected account, else the Privy wallet. */
  function EffectiveAddress(account: Option<string>, privyWallet: Option<string>): (r: Option<string>)
    ensures Present(account) ==> r == account
    ensures !Present(account) ==> r == privyWallet
    ensures r.None? <==> !Present(account) && privyWallet.None?
  {
    OrElse(account, privyWallet)
  }

  /** The current-user score read is enabled: `!!effectiveAddress && authenticated && ready`. */
  predicate ScoreReadEnabled(effective: Option<string>, authenticated: bool, ready: bool) {
    Present(effective) && authenticated && ready
  }

  /** The read runs only for a real address of an authenticated, ready session. */
  lemma ScoreReadNeedsAddress(account: Option<string>, privyWallet: Option<string>, authenticated: bool, ready: bool)
    requires ScoreReadEnabled(EffectiveAddress(account, privyWallet), authenticated, ready)
    ensures authenticated && ready
    ensures Present(account) || Present(privyWallet)
  {
  }

  /**
   * `player.address.toLowerCase() === effectiveAddress?.toLowerCase()`: the "You" row and the
   * `currentPlayer` test. An undefined effective address matches no row.
   */
  predicate IsYou(p: Player, effective: Option<string>) {
    effective.Some? && SameAddress(p.address, effective.value)
  }

  /** The index `players.find` stops at: the first row that is the user's. */
  function FirstMatch(players: seq<Player>, effective: Option<string>): (r: Option<nat>)
    ensures r.Some? ==> r.value < |players| && IsYou(players[r.value], effective)
    ensures r.Some? ==> forall j :: 0 <= j < r.value ==> !IsYou(players[j], effective)
    ensures r.None? ==> forall j :: 0 <= j < |players| ==> !IsYou(players[j], effective)
  {
    if players == [] then None
    else if IsYou(players[0], effective) then Some(0)
    else
      var rest := FirstMatch(players[1..], effective);
      assert forall j :: 1 <= j < |players| ==> players[j] == players[1..][j - 1];
      if rest.None? then None else Some(rest.value + 1)
  }

  /** `currentPlayer`: the first player whose address is the user's, if any. */
  function CurrentPlayer(players: seq<Player>, effective: Option<string>): (r: Option<Player>)
    ensures r.Some? <==> exists i :: 0 <= i < |players| && IsYou(players[i], effective)
    ensures r.Some? ==> r.value == players[FirstMatch(players, effective).value]
    ensures effective.None? ==> r.None?
  {
    var i := FirstMatch(players, effective);
    if i.Some? then Some(players[i.value]) else None
  }

  /** The rows the list highlights as "You". */
  function HighlightedRows(players: seq<Player>, effective: Option<string>): set<nat> {
    set i: nat | i < |players| && IsYou(players[i], effective)
  }

  /**
   * The banner and the highlight agree: there is a current player exactly when some row is
   * highlighted, and it is the first highlighted row.
   */
  lemma BannerMatchesHighlight(players: seq<Player>, effective: Option<string>)
    ensures CurrentPlayer(players, effective).Some? <==> HighlightedRows(players, effective) != {}
    ensures CurrentPlayer(players, effective).Some? ==>
              FirstMatch(players, effective).value in HighlightedRows(players, effective) &&
              forall i :: i in HighlightedRows(players, effective) ==> FirstMatch(players, effective).value <= i
  {
    var rows := HighlightedRows(players, effective);
    if rows != {} {
      var i :| i in rows;
      assert IsYou(players[i], effective);
    }
    if CurrentPlayer(players, effective).Some? {
      assert FirstMatch(players, effective).value in rows;
    }
  }

  /** On a ranked board the current player's position is its row number. */
  lemma CurrentPlayerPosition(s: seq<Player>, effective: Option<string>)
    requires CurrentPlayer(Rank(s), effective).Some?
    ensures CurrentPlayer(Rank(s), effective).value.position == FirstMatch(Rank(s), effective).value + 1
  {
    RankSpec(s);
  }

  /** `formatAddress`: `address.slice(0, 6) + "..." + address.slice(-4)`. */
  function FormatAddress(a: string): (r: string)
    ensures |r| == (if |a| < 6 then |a| else 6) + 3 + (if |a| < 4 then |a| else 4)
    ensures |a| >= 10 ==> |r| == 13
    ensures |a| >= 6 ==> r[..6] == a[..6] && r[6..9] == "..."
    ensures |a| >= 4 ==> r[|r| - 4..] == a[|a| - 4..]
  {
    var head := if |a| < 6 then a else a[..6];
    var tail := if |a| < 4 then a else a[|a| - 4..];
    head + "..." + tail
  }

  const GOLD: string := "\U{1F947}"
  const SILVER: string := "\U{1F948}"
  const BRONZE: string := "\U{1F949}"

  /** `getPositionIcon`: medals for the first three positions, `#n` for the rest. */
  function PositionIcon(position: int): (r: string)
    ensures |r| > 0
    ensures position == 1 ==> r == GOLD
    ensures position == 2 ==> r == SILVER
    ensures position == 3 ==> r == BRONZE
    ensures r[0] == '#' <==> position != 1 && position != 2 && position != 3
    ensures r[0] == '#' ==> r[1..] == IntToString(position)
  {
    match position
    case 1 => GOLD
    case 2 => SILVER
    case 3 => BRONZE
    case _ => "#" + IntToString(position)
  }

  const DEFAULT_COLOR: string := "from-blue-400 to-blue-600"

  /** `getPositionColor`: a gradient per medal position, one shared gradient for the rest. */
  function PositionColor(position: int): (r: string)
    ensures position == 1 ==> r == "from-yellow-400 to-yellow-600"
    ensures position == 2 ==> r == "from-gray-300 to-gray-500"
    ensures position == 3 ==> r == "from-amber-600 to-amber-800"
    ensures position != 1 && position != 2 && position != 3 ==> r == DEFAULT_COLOR
  {
    match position
    case 1 => "from-yellow-400 to-yellow-600"
    case 2 => "from-gray-300 to-gray-500"
    case 3 => "from-amber-600 to-amber-800"
    case _ => DEFAULT_COLOR
  }

  /** Two positions share a gradient only if they are equal or both below the podium. */
  lemma ColorsDistinguishPodium(i: int, j: int)
    requires PositionColor(i) == PositionColor(j)
    ensures i == j || (i != 1 && i != 2 && i != 3 && j != 1 && j != 2 && j != 3)
  {
    var a, b, c := "from-yellow-400 to-yellow-600", "from-gray-300 to-gray-500", "from-amber-600 to-amber-800";
    assert a[5] != b[5] && a[5] != c[5] && b[5] != c[5];
    assert a[5] != DEFAULT_COLOR[5] && b[5] != DEFAULT_COLOR[5] && c[5] != DEFAULT_COLOR[5];
  }
}
