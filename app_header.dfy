/** The app header's logic: the shortened wallet address, the label of the
    wallet button, which navigation item is highlighted, and which wallet
    controls are shown. */
module AppHeader {
  import opened Common

  datatype Option<T> = None | Some(value: T)

  datatype Wallet = Wallet(address: string)
  /** The signed-in user as the authentication provider reports it. */
  datatype User = User(wallet: Option<Wallet>)

  datatype NavItem = NavItem(text: string, href: string)

  const NavItems: seq<NavItem> := [
    NavItem("App", "/app/auth"),
    NavItem("Agent", "/app/agent"),
    NavItem("Stealth", "/app/stealth"),
    NavItem("Proof", "/app/proof"),
    NavItem("Transfer", "/app/transfer"),
    NavItem("Access", "/app/access")
  ]

  const Ellipsis: string := "..."
  const ConnectedLabel: string := "Connected"

  function Max(a: int, b: int): int { if a < b then b else a }

  /** JavaScript's s.slice(0, 4) and s.slice(-4). */
  function Head4(s: string): string { s[..Min(4, |s|)] }
  function Tail4(s: string): string { s[Max(0, |s| - 4)..] }

  predicate IsPrefix(p: string, s: string) { |p| <= |s| && s[..|p|] == p }
  predicate IsSuffix(p: string, s: string) { |p| <= |s| && s[|s| - |p|..] == p }

  /** The first four and last four characters around "...". For an address
      shorter than four characters both ends are the whole address. */
  function TruncateAddress(address: string): (r: string)
    ensures |r| == 2 * Min(4, |address|) + 3
    ensures IsPrefix(r[..Min(4, |address|)], address)
    ensures r[Min(4, |address|)..Min(4, |address|) + 3] == Ellipsis
    ensures IsSuffix(r[Min(4, |address|) + 3..], address)
  {
    Head4(address) + Ellipsis + Tail4(address)
  }

  /** For a full-length address the result has eleven characters, keeps the
      first and last four, and is all the caller learns: two addresses of at
      least eight characters truncate alike exactly when they share their
      first four and last four characters. */
  lemma TruncateLongAddress(a: string, b: string)
    requires |a| >= 8 && |b| >= 8
    ensures |TruncateAddress(a)| == 11
    ensures TruncateAddress(a)[..4] == a[..4] && TruncateAddress(a)[7..] == a[|a| - 4..]
    ensures TruncateAddress(a) == TruncateAddress(b) <==> a[..4] == b[..4] && a[|a| - 4..] == b[|b| - 4..]
  {
    var ta, tb := TruncateAddress(a), TruncateAddress(b);
    assert ta == a[..4] + Ellipsis + a[|a| - 4..];
    assert tb == b[..4] + Ellipsis + b[|b| - 4..];
    if ta == tb {
      assert ta[..4] == a[..4] && tb[..4] == b[..4];
      assert ta[7..] == a[|a| - 4..] && tb[7..] == b[|b| - 4..];
    }
  }

  /** Truncating an already truncated full-length address changes nothing. */
  lemma TruncateIdempotent(a: string)
    requires |a| >= 8
    ensures TruncateAddress(TruncateAddress(a)) == TruncateAddress(a)
  {
    var t := TruncateAddress(a);
    assert t == a[..4] + Ellipsis + a[|a| - 4..];
    assert |t| == 11;
    assert t[..4] == a[..4];
    assert t[7..] == a[|a| - 4..];
    assert TruncateAddress(t) == t[..4] + Ellipsis + t[7..];
  }

  /** The wallet address, when there is one and it is not empty. */
  function Address(user: Option<User>): (r: Option<string>)
    ensures r.Some? ==> r.value != "" && user.Some? && user.value.wallet == Some(Wallet(r.value))
    ensures r.None? ==> user.None? || user.value.wallet.None? || user.value.wallet.value.address == ""
  {
    if user.Some? && user.value.wallet.Some? && user.value.wallet.value.address != "" then
      Some(user.value.wallet.value.address)
    else
      None
  }

  /** The label of the connected-wallet button. */
  function DisplayAddress(user: Option<User>): (r: string)
    ensures Address(user).None? ==> r == ConnectedLabel
    ensures Address(user).Some? ==> r == TruncateAddress(Address(user).value)
  {
    if user.Some? && user.value.wallet.Some? && user.value.wallet.value.address != "" then
      TruncateAddress(user.value.wallet.value.address)
    else
      ConnectedLabel
  }

  /** The label reads "Connected" exactly when there is no usable address:
      no truncated address can spell it, since its fourth to sixth
      characters would be "...". */
  lemma DisplayAddressConnectedIff(user: Option<User>)
    ensures DisplayAddress(user) == ConnectedLabel <==> Address(user).None?
  {
    if Address(user).Some? {
      var a := Address(user).value;
      var r := TruncateAddress(a);
      assert r[Min(4, |a|)] == '.';
    }
  }

  /** The highlight rule of one navigation link. */
  function IsHighlighted(href: string, location: string): bool
  {
    if href == "/app" then location == "/app"
    else location == href || IsPrefix(href, location)
  }

  /** The class of one navigation link. */
  function NavClass(href: string, location: string): (r: string)
    ensures r == "text-white bg-white/10" <==> IsHighlighted(href, location)
  {
    if IsHighlighted(href, location) then "text-white bg-white/10"
    else "text-white/50 hover:text-white hover:bg-white/5"
  }

  /** No navigation item points at "/app", so for every item the rule is
      plain prefix matching. */
  lemma HighlightIsPrefix(location: string)
    ensures forall i | 0 <= i < |NavItems| ::
      IsHighlighted(NavItems[i].href, location) <==> IsPrefix(NavItems[i].href, location)
  {
    forall i | 0 <= i < |NavItems|
      ensures IsHighlighted(NavItems[i].href, location) <==> IsPrefix(NavItems[i].href, location)
    {
      var h := NavItems[i].href;
      assert |h| > 4;
      assert h != "/app";
    }
  }

  /** On the "/app" page itself nothing is highlighted: every href is
      longer than "/app". */
  lemma NothingHighlightedAtAppRoot()
    ensures forall i | 0 <= i < |NavItems| :: !IsHighlighted(NavItems[i].href, "/app")
  {
    HighlightIsPrefix("/app");
    forall i | 0 <= i < |NavItems|
      ensures !IsPrefix(NavItems[i].href, "/app")
    {
      assert |NavItems[i].href| > 4;
    }
  }

  /** No href is a prefix of another, so at most one item is highlighted. */
  lemma AtMostOneHighlighted(location: string, i: nat, j: nat)
    requires i < j < |NavItems|
    ensures !(IsHighlighted(NavItems[i].href, location) && IsHighlighted(NavItems[j].href, location))
  {
    HighlightIsPrefix(location);
    var a, b := NavItems[i].href, NavItems[j].href;
    if IsPrefix(a, location) && IsPrefix(b, location) {
      if |a| <= |b| {
        assert b[..|a|] == location[..|a|] == a;
        HrefsNotNested(i, j);
      } else {
        assert a[..|b|] == location[..|b|] == b;
        HrefsNotNested(j, i);
      }
    }
  }

  lemma HrefsNotNested(i: nat, j: nat)
    requires i < |NavItems| && j < |NavItems| && i != j
    ensures !IsPrefix(NavItems[i].href, NavItems[j].href)
  {
    // every href is "/app/" followed by a word, and the words differ within
    // their first three letters
    var a, b := NavItems[i].href, NavItems[j].href;
    assert |a| >= 9 && |b| >= 9;
    var ka, kb := [a[5], a[6]], [b[5], b[6]];
    assert ka == Keys[i] && kb == Keys[j];
    if IsPrefix(a, b) {
      assert ka == kb;
      KeysDistinct(i, j);
    }
  }

  /** The fifth and sixth characters of each href. */
  const Keys: seq<string> := ["au", "ag", "st", "pr", "tr", "ac"]

  lemma KeysDistinct(i: nat, j: nat)
    requires i < |Keys| && j < |Keys| && i != j
    ensures Keys[i] != Keys[j]
  {
  }

  datatype Action = Login | Logout

  /** The wallet controls on the right of the header. */
  datatype WalletControls =
    | SignedIn(walletLabel: string, disconnect: Action)
    | SignedOut(connectLabel: string, disabled: bool, onClick: Action)

  function Controls(authenticated: bool, ready: bool, user: Option<User>): (c: WalletControls)
    ensures c.SignedIn? <==> authenticated
    ensures c.SignedIn? ==> c.walletLabel == DisplayAddress(user) && c.disconnect == Logout
    ensures c.SignedOut? ==> c.onClick == Login && c.disabled == !ready
    ensures c.SignedOut? ==> c.connectLabel == (if ready then "Connect Wallet" else "Loading...")
  {
    if authenticated then SignedIn(DisplayAddress(user), Logout)
    else SignedOut(if !ready then "Loading..." else "Connect Wallet", !ready, Login)
  }
}
