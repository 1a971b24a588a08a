/** The bar module's reading of a `State`: signal-strength bucketing (`strengh_to_level`) and the
    icon chosen for each sub-state, where the empty name hides the icon. */
module NetworkManagerWidget {
  import opened Dbus
  import opened NetworkManagerState

  /** Buckets a strength percentage into one of `numberOfLevels` levels: 0 below 5, then a linear
      interpolation of 5..105 onto 1..numberOfLevels-1. The subtraction `numberOfLevels - 1` is
      only evaluated for strengths of 5 and above, and underflows when there are no levels. */
  function StrengthToLevel(strength: Uint8, numberOfLevels: nat): (level: nat)
    requires strength < 5 || numberOfLevels >= 1
    ensures level == 0 <==> strength < 5
  {
    if strength < 5 then 0
    else (strength - 5) * (numberOfLevels - 1) / 100 + 1
  }

  /** The staircase used by `nmcli dev wifi list`, which five levels are meant to reproduce. */
  function NmcliLevel(strength: Uint8): nat
  {
    if strength <= 4 then 0
    else if strength <= 29 then 1
    else if strength <= 54 then 2
    else if strength <= 79 then 3
    else 4
  }

  /** With five levels, every strength from 0 to 100 lands on the nmcli staircase. */
  lemma StrengthToLevelMatchesNmcli(strength: Uint8)
    requires strength <= 100
    ensures StrengthToLevel(strength, 5) == NmcliLevel(strength)
  {
    var q := (strength - 5) * 4;
    if strength >= 5 {
      assert 0 <= q <= 380;
    }
  }

  /** For at least two levels and a strength within 0..100 the level is a valid index. */
  lemma StrengthToLevelInRange(strength: Uint8, numberOfLevels: nat)
    requires numberOfLevels >= 2 && strength <= 100
    ensures StrengthToLevel(strength, numberOfLevels) <= numberOfLevels - 1
  {
    if strength >= 5 {
      var k := numberOfLevels - 1;
      assert (strength - 5) * k <= 95 * k by {
        assert (100 - strength) * k >= 0;
      }
      assert (strength - 5) * k / 100 <= 95 * k / 100;
      assert 95 * k / 100 <= k - 1;
    }
  }

  /** A stronger signal never gives a lower level. */
  lemma StrengthToLevelMonotone(s1: Uint8, s2: Uint8, numberOfLevels: nat)
    requires numberOfLevels >= 1 && s1 <= s2
    ensures StrengthToLevel(s1, numberOfLevels) <= StrengthToLevel(s2, numberOfLevels)
  {
    if s1 >= 5 {
      var k := numberOfLevels - 1;
      assert (s1 - 5) * k <= (s2 - 5) * k by {
        assert (s2 - 5) * k - (s1 - 5) * k == (s2 - s1) * k;
        assert (s2 - s1) * k >= 0;
      }
    }
  }

  /** Full strength reaches the top level exactly when there are at most 21 levels: above that
      the top level is never reached. */
  lemma FullStrengthReachesTopLevel(numberOfLevels: nat)
    requires numberOfLevels >= 2
    ensures StrengthToLevel(100, numberOfLevels) == numberOfLevels - 1 <==> numberOfLevels - 1 <= 20
  {
    var k := numberOfLevels - 1;
    assert StrengthToLevel(100, numberOfLevels) == 95 * k / 100 + 1;
    if k <= 20 {
      assert 100 * (k - 1) <= 95 * k < 100 * k;
    } else {
      assert 95 * k < 100 * (k - 1);
    }
  }

  // ---------------------------------------------------------------------------------------------
  // Icons

  const SignalIcons: seq<string> := [
    "icon:network-wireless-signal-none-symbolic",
    "icon:network-wireless-signal-weak-symbolic",
    "icon:network-wireless-signal-ok-symbolic",
    "icon:network-wireless-signal-good-symbolic",
    "icon:network-wireless-signal-excellent-symbolic"
  ]

  /** An icon is shown for a non-empty name and hidden for the empty one. */
  predicate Shown(iconName: string) { iconName != "" }

  function WiredIcon(s: WiredState): (iconName: string)
    ensures Shown(iconName) <==> !(s.NotPresent? || s.Unknown?)
  {
    match s
    case Connected => "icon:network-wired-symbolic"
    case Disconnected => "icon:network-wired-disconnected-symbolic"
    case NotPresent | Unknown => ""
  }

  /** `None` stands for the panic of indexing the five signal icons out of bounds, which happens
      exactly when the reported strength is 105 or more (`WifiIconOutOfBounds`, `WifiIconInBounds`). */
  function WifiIcon(s: WifiState): (iconName: Option<string>)
    ensures iconName.None? <==> s.Connected? && StrengthToLevel(s.detail.strength, |SignalIcons|) >= |SignalIcons|
    ensures iconName.Some? ==> (Shown(iconName.value) <==> !(s.NotPresent? || s.Unknown?))
  {
    match s
    case Connected(detail) =>
      var n := StrengthToLevel(detail.strength, |SignalIcons|);
      if n < |SignalIcons| then Some(SignalIcons[n]) else None
    case Disconnected => Some("icon:network-wireless-offline-symbolic")
    case Disabled => Some("icon:network-wireless-hardware-disabled-symbolic")
    case NotPresent | Unknown => Some("")
  }

  function CellularIcon(s: CellularState): (iconName: string)
    ensures Shown(iconName) <==> !(s.NotPresent? || s.Unknown?)
  {
    match s
    case Connected => "icon:network-cellular-connected-symbolic"
    case Disconnected => "icon:network-cellular-offline-symbolic"
    case Disabled => "icon:network-cellular-hardware-disabled-symbolic"
    case NotPresent | Unknown => ""
  }

  function VpnIcon(s: VpnState): (iconName: string)
    ensures Shown(iconName) <==> s.Connected?
  {
    match s
    case Connected(_) => "icon:network-vpn-symbolic"
    case Disconnected | Unknown => ""
  }

  /** A connected Wi-Fi state with a strength within 0..100 gets the signal icon of its nmcli
      level, and the icon lookup cannot go out of bounds. */
  lemma WifiIconFollowsNmcli(s: WifiState)
    requires s.Connected? && s.detail.strength <= 100
    ensures WifiIcon(s) == Some(SignalIcons[NmcliLevel(s.detail.strength)])
  {
    StrengthToLevelMatchesNmcli(s.detail.strength);
  }

  /** Every strength from 105 up makes the icon lookup go out of bounds. */
  lemma WifiIconOutOfBounds(s: WifiState)
    requires s.Connected? && s.detail.strength >= 105
    ensures WifiIcon(s).None?
  {
    var q := (s.detail.strength - 5) * 4;
    assert q >= 400;
  }

  /** Every strength below 105 keeps the icon lookup in bounds. */
  lemma WifiIconInBounds(s: WifiState)
    requires s.Connected? && s.detail.strength < 105
    ensures WifiIcon(s).Some?
  {
    var q := (s.detail.strength - 5) * 4;
    assert q < 400;
  }

  /** The state a client starts with, every sub-state Unknown, shows no icon at all. */
  lemma UnknownStateShowsNoIcon(s: State)
    requires s == State(WiredState.Unknown, WifiState.Unknown, CellularState.Unknown, VpnState.Unknown)
    ensures !Shown(WiredIcon(s.wired)) && WifiIcon(s.wifi) == Some("")
    ensures !Shown(CellularIcon(s.cellular)) && !Shown(VpnIcon(s.vpn))
  {
  }
}
