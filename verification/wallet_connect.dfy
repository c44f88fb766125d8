/**
 * The pure parts of the wallet widget in src/components/WalletConnect.tsx:
 * the shortened address, the network the menu item switches to and its
 * label, and the connect button's state.
 */
module WalletConnect {
  import opened Basics
  import opened WalletContext

  /** `formatAddress`: the first six characters, `...`, the last four, with `substring`'s clamping. */
  function FormatAddress(addr: Option<string>): string {
    if addr.None? || addr.value == "" then ""
    else
      var a := addr.value;
      Substring(a, 0, 6) + "..." + SubstringFrom(a, |a| - 4)
  }

  /** No address, or the falsy empty one, shows as nothing. */
  lemma FormatAddressEmpty(addr: Option<string>)
    requires addr.None? || addr.value == ""
    ensures FormatAddress(addr) == ""
  {
  }

  /** From ten characters on, the head and the tail do not overlap: 13 characters shown. */
  lemma FormatAddressLong(a: string)
    requires |a| >= 10
    ensures FormatAddress(Some(a)) == a[..6] + "..." + a[|a| - 4..]
    ensures |FormatAddress(Some(a))| == 13
    ensures FormatAddress(Some(a))[..6] == a[..6]
    ensures FormatAddress(Some(a))[9..] == a[|a| - 4..]
  {
  }

  /** Between four and nine characters the shown head and tail overlap. */
  lemma FormatAddressMedium(a: string)
    requires 4 <= |a| < 10
    ensures FormatAddress(Some(a)) == a[..if |a| < 6 then |a| else 6] + "..." + a[|a| - 4..]
  {
  }

  /** Under four characters the tail is the whole address (substring clamps the negative start to 0). */
  lemma FormatAddressShort(a: string)
    requires 0 < |a| < 4
    ensures FormatAddress(Some(a)) == a + "..." + a
  {
  }

  /** A generated address shows as `0x`, its first four digits, `...` and its last four digits. */
  lemma FormatMockAddress(ds: AddressDigits)
    ensures var f := FormatAddress(Some(MockAddress(ds)));
            && |f| == 13
            && f[..2] == "0x"
            && f[2..6] == HexString(ds[..4])
            && f[6..9] == "..."
            && f[9..] == HexString(ds[36..])
  {
    var a := MockAddress(ds);
    FormatAddressLong(a);
    assert a[2..] == HexString(ds);
    HexStringSlice(ds, 0, 4);
    HexStringSlice(ds, 36, 40);
    assert a[2..6] == HexString(ds)[0..4];
    assert a[|a| - 4..] == HexString(ds)[36..40];
    assert ds[0..4] == ds[..4];
    assert ds[36..40] == ds[36..];
  }

  /** The network the menu item switches to. */
  function ToggleTarget(n: Network): (t: Network)
    ensures t != n
  {
    if n == Devnet then Testnet else Devnet
  }

  /** Switching twice through the menu item lands back on the starting network. */
  lemma ToggleTwice(n: Network)
    ensures ToggleTarget(ToggleTarget(n)) == n
  {
  }

  /** How a network is named in the menu. */
  function DisplayName(n: Network): string {
    if n == Devnet then "Devnet" else "Testnet"
  }

  /** The menu item's label, `Switch to ...`. */
  function SwitchLabel(n: Network): string {
    "Switch to " + (if n == Devnet then "Testnet" else "Devnet")
  }

  /** The label names exactly the network the item switches to. */
  lemma SwitchLabelNamesTarget(n: Network)
    ensures SwitchLabel(n) == "Switch to " + DisplayName(ToggleTarget(n))
    ensures SwitchLabel(n) != "Switch to " + DisplayName(n)
  {
  }

  /** The menu item: `switchNetwork` with the other network. */
  function SwitchFromMenu(w: World, writeOk: bool): (r: World)
    ensures r.session.network != w.session.network
  {
    SwitchNetwork(w, ToggleTarget(w.session.network), writeOk)
  }

  /** Two clicks on the menu item restore the network; with live connection and working storage the entry follows. */
  lemma SwitchFromMenuTwice(w: World)
    ensures SwitchFromMenu(SwitchFromMenu(w, true), true).session.network == w.session.network
    ensures LiveAddress(w.session) ==>
              SwitchFromMenu(SwitchFromMenu(w, true), true).slot == Written(w.session.address.value, w.session.network)
  {
  }

  datatype ConnectButtonView = ConnectButtonView(disabled: bool, text: string)

  /** The connect button shown while disconnected. */
  function ConnectButton(connecting: bool): ConnectButtonView {
    if connecting then ConnectButtonView(true, "Connecting...") else ConnectButtonView(false, "Connect Wallet")
  }

  /** The button is disabled exactly when it reads `Connecting...`, exactly while connecting. */
  lemma ConnectButtonDisabledIffConnecting(connecting: bool)
    ensures ConnectButton(connecting).disabled <==> connecting
    ensures ConnectButton(connecting).disabled <==> ConnectButton(connecting).text == "Connecting..."
  {
  }
}
