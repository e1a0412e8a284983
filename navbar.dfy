/** The navigation bar (src/components/Navbar.js): the shortened account
    address, the active link, and the connect button. */
module Navbar {
  import opened Wrappers
  import opened Web3
  import JsText
  import History

  /** `formatAddress` of the navigation bar: a falsy address gives "",
      otherwise the first six characters, "...", the last four, with
      `substring`'s clamping for short text. */
  function FormatAddress(address: Option<Address>): (r: string)
    ensures !Truthy(address) ==> r == ""
    ensures Truthy(address) && |address.value| >= 6 ==>
              r == address.value[..6] + "..." + address.value[|address.value| - 4..]
    ensures Truthy(address) && |address.value| < 4 ==> r == address.value + "..." + address.value
    ensures Truthy(address) ==> |r| == JsText.Min(|address.value|, 6) + 3 + JsText.Min(|address.value|, 4)
  {
    if !Truthy(address) then ""
    else JsText.Substring(address.value, 0, 6) + "..." + JsText.SubstringFrom(address.value, |address.value| - 4)
  }

  /** The navigation bar and the history page shorten a present, non-empty
      address the same way; only the navigation bar tolerates a missing one. */
  lemma FormatAddressAgreesWithHistory(address: Address)
    requires address != ""
    ensures FormatAddress(Some(address)) == History.FormatAddress(address)
  {
  }

  /** The routes of the menu links, in display order. */
  const NAV_ROUTES: seq<string> := ["/", "/balance", "/transfer", "/history", "/market"]

  /** Whether the link to `route` carries the `active` class. */
  predicate IsActive(pathname: string, route: string) {
    pathname == route
  }

  /** The `active` flags of the menu links, in display order. */
  function ActiveFlags(pathname: string): (flags: seq<bool>)
    ensures |flags| == |NAV_ROUTES|
    ensures forall i :: 0 <= i < |NAV_ROUTES| ==> (flags[i] <==> IsActive(pathname, NAV_ROUTES[i]))
  {
    seq(|NAV_ROUTES|, i requires 0 <= i < |NAV_ROUTES| => IsActive(pathname, NAV_ROUTES[i]))
  }

  /** No route appears twice. */
  predicate Distinct<T(==)>(s: seq<T>) {
    forall i, j :: 0 <= i < j < |s| ==> s[i] != s[j]
  }

  /** In a sequence without repetitions, an element occurs once or not at all. */
  lemma {:induction false} DistinctCount<T>(s: seq<T>, x: T)
    requires Distinct(s)
    ensures Count(s, x) == if x in s then 1 else 0
  {
    if s != [] {
      assert Distinct(s[1..]);
      DistinctCount(s[1..], x);
      if s[0] == x {
        assert x !in s[1..] by {
          forall k | 0 <= k < |s[1..]|
            ensures s[1..][k] != x
          {
            assert s[1..][k] == s[k + 1];
          }
        }
      } else {
        assert x in s <==> x in s[1..] by {
          if x in s {
            var k :| 0 <= k < |s| && s[k] == x;
            assert s[1..][k - 1] == x;
          }
        }
      }
    }
  }

  /** At most one link is active, and exactly one when the pathname is one
      of the menu routes. */
  lemma AtMostOneActive(pathname: string)
    ensures Count(NAV_ROUTES, pathname) == if pathname in NAV_ROUTES then 1 else 0
    ensures forall i, j :: 0 <= i < j < |NAV_ROUTES| ==>
              !(IsActive(pathname, NAV_ROUTES[i]) && IsActive(pathname, NAV_ROUTES[j]))
    ensures (exists i :: 0 <= i < |NAV_ROUTES| && ActiveFlags(pathname)[i]) <==> pathname in NAV_ROUTES
  {
    assert Distinct(NAV_ROUTES);
    DistinctCount(NAV_ROUTES, pathname);
    var flags := ActiveFlags(pathname);
    if pathname in NAV_ROUTES {
      var k :| 0 <= k < |NAV_ROUTES| && NAV_ROUTES[k] == pathname;
      assert flags[k];
    }
  }

  /** The right end of the bar: the shortened account when connected,
      otherwise the connect button. */
  datatype NavbarEnd = AccountBadge(text: string) | ConnectButton(caption: string, disabled: bool)

  function EndOfBar(isConnected: bool, account: Option<Address>, loading: bool): (e: NavbarEnd)
    ensures e.ConnectButton? <==> !isConnected
    ensures e.AccountBadge? ==> e.text == FormatAddress(account)
    ensures e.ConnectButton? ==> (e.disabled <==> loading)
    ensures e.ConnectButton? ==> e.caption == (if loading then "Connecting..." else "Connect Wallet")
  {
    if isConnected then AccountBadge(FormatAddress(account))
    else ConnectButton(if loading then "Connecting..." else "Connect Wallet", loading)
  }
}
