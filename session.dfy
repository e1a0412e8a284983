/** The wallet session held by the application root (src/App.js): the connect
    sequence with its network check, switch and add-network fallback, and the
    handler of the wallet's account-change notification. */
module Session {
  import opened Wrappers
  import opened Web3

  /** Sepolia's chain id, 11155111, as the hex string the wallet reports. */
  const SEPOLIA_CHAIN_ID: string := "0xaa36a7"

  /** The wallet's error code for "this chain has not been added". */
  const CHAIN_NOT_ADDED: int := 4902

  /** The fallback contract address; the environment override is configuration. */
  const CONTRACT_ADDRESS: string := "0x123456789abcdef123456789abcdef123456789a"

  datatype NativeCurrency = NativeCurrency(name: string, symbol: string, decimals: nat)

  datatype ChainDescriptor = ChainDescriptor(
    chainId: string,
    chainName: string,
    nativeCurrency: NativeCurrency,
    rpcUrls: seq<string>,
    blockExplorerUrls: seq<string>)

  /** The descriptor sent with `wallet_addEthereumChain`. */
  const SEPOLIA: ChainDescriptor := ChainDescriptor(
    SEPOLIA_CHAIN_ID,
    "Sepolia Testnet",
    NativeCurrency("Sepolia ETH", "ETH", 18),
    ["https://sepolia.infura.io/v3/"],
    ["https://sepolia.etherscan.io"])

  /** The wallet RPC requests the application makes. */
  datatype WalletRequest =
    | ExistingAccounts                 // eth_accounts
    | RequestAccounts                  // eth_requestAccounts
    | ChainIdQuery                     // eth_chainId
    | SwitchChain(chainId: string)     // wallet_switchEthereumChain
    | AddChain(chain: ChainDescriptor) // wallet_addEthereumChain

  /** What the wallet answers to each request of the connect sequence, were
      it asked. */
  datatype WalletReplies = WalletReplies(
    accounts: Reply<seq<Address>>,
    chainId: Reply<string>,
    switchChain: Reply<Unit>,
    addChain: Reply<Unit>)

  /** Whether the connect sequence gets past the network check. */
  predicate OnSepoliaAfterwards(r: WalletReplies)
    requires r.chainId.Ok?
  {
    || r.chainId.value == SEPOLIA_CHAIN_ID
    || r.switchChain.Ok?
    || (r.switchChain.code == CHAIN_NOT_ADDED && r.addChain.Ok?)
  }

  /** Whether the chain had to be changed: accounts granted, chain id read,
      and it is not Sepolia. */
  predicate WrongChain(r: WalletReplies) {
    r.accounts.Ok? && r.chainId.Ok? && r.chainId.value != SEPOLIA_CHAIN_ID
  }

  /** Whether the switch request was made and failed with code 4902. */
  predicate SwitchRejectedAsUnknown(r: WalletReplies) {
    WrongChain(r) && r.switchChain.Err? && r.switchChain.code == CHAIN_NOT_ADDED
  }

  /** Whether the connect sequence runs to the session setters. */
  predicate ConnectSucceeds(r: WalletReplies) {
    r.accounts.Ok? && r.chainId.Ok? && OnSepoliaAfterwards(r)
  }

  /** The requests of the network step, once the chain id is known: none on
      Sepolia; otherwise a switch, followed by an add when the switch fails
      with 4902. */
  function NetworkRequests(r: WalletReplies): (rs: seq<WalletRequest>)
    requires r.chainId.Ok?
    ensures rs == [] <==> r.chainId.value == SEPOLIA_CHAIN_ID
    ensures |rs| <= 2
    ensures rs != [] ==> rs[0] == SwitchChain(SEPOLIA_CHAIN_ID)
    ensures |rs| == 2 <==> r.chainId.value != SEPOLIA_CHAIN_ID && r.switchChain.Err? && r.switchChain.code == CHAIN_NOT_ADDED
    ensures |rs| == 2 ==> rs[1] == AddChain(SEPOLIA)
  {
    if r.chainId.value == SEPOLIA_CHAIN_ID then []
    else if r.switchChain.Err? && r.switchChain.code == CHAIN_NOT_ADDED then
      [SwitchChain(SEPOLIA_CHAIN_ID), AddChain(SEPOLIA)]
    else [SwitchChain(SEPOLIA_CHAIN_ID)]
  }

  /** The requests one run of `connectWallet` issues against a present
      wallet: account access, then (if granted) the chain id query, then (if
      answered) the network step. A step that throws ends the sequence. */
  function ConnectRequests(r: WalletReplies): (rs: seq<WalletRequest>)
    ensures |rs| >= 1 && rs[0] == RequestAccounts
    ensures r.accounts.Err? ==> rs == [RequestAccounts]
    ensures r.accounts.Ok? && r.chainId.Err? ==> rs == [RequestAccounts, ChainIdQuery]
    // already on Sepolia: neither a switch nor an add request
    ensures r.accounts.Ok? && r.chainId.Ok? && r.chainId.value == SEPOLIA_CHAIN_ID ==>
              rs == [RequestAccounts, ChainIdQuery]
  {
    [RequestAccounts] +
    if r.accounts.Err? then []
    else [ChainIdQuery] + if r.chainId.Err? then [] else NetworkRequests(r)
  }

  /** Within the network step: one switch off Sepolia, and one add, with the
      Sepolia descriptor, exactly when the switch fails with 4902. */
  lemma NetworkRequestCounts(r: WalletReplies)
    requires r.chainId.Ok?
    ensures Count(NetworkRequests(r), SwitchChain(SEPOLIA_CHAIN_ID)) ==
              if r.chainId.value != SEPOLIA_CHAIN_ID then 1 else 0
    ensures Count(NetworkRequests(r), AddChain(SEPOLIA)) == if |NetworkRequests(r)| == 2 then 1 else 0
    ensures forall d :: d != SEPOLIA ==> AddChain(d) !in NetworkRequests(r)
  {
    var net := NetworkRequests(r);
    if |net| == 2 {
      assert net == [SwitchChain(SEPOLIA_CHAIN_ID)] + [AddChain(SEPOLIA)];
      CountAppend([SwitchChain(SEPOLIA_CHAIN_ID)], [AddChain(SEPOLIA)], SwitchChain(SEPOLIA_CHAIN_ID));
      CountAppend([SwitchChain(SEPOLIA_CHAIN_ID)], [AddChain(SEPOLIA)], AddChain(SEPOLIA));
    }
  }

  /** A switch is requested exactly when the chain is wrong, and then once;
      an add request, carrying the Sepolia descriptor, is issued exactly once
      when the switch fails with 4902 and never otherwise; no other
      descriptor is ever sent. */
  lemma ConnectRequestCounts(r: WalletReplies)
    ensures Count(ConnectRequests(r), SwitchChain(SEPOLIA_CHAIN_ID)) == if WrongChain(r) then 1 else 0
    ensures Count(ConnectRequests(r), AddChain(SEPOLIA)) == if SwitchRejectedAsUnknown(r) then 1 else 0
    ensures forall d :: d != SEPOLIA ==> AddChain(d) !in ConnectRequests(r)
  {
    var rs := ConnectRequests(r);
    if r.accounts.Ok? && r.chainId.Ok? {
      var prefix := [RequestAccounts, ChainIdQuery];
      var net := NetworkRequests(r);
      assert rs == prefix + net;
      assert Count(prefix, SwitchChain(SEPOLIA_CHAIN_ID)) == 0;
      assert Count(prefix, AddChain(SEPOLIA)) == 0;
      CountAppend(prefix, net, SwitchChain(SEPOLIA_CHAIN_ID));
      CountAppend(prefix, net, AddChain(SEPOLIA));
      NetworkRequestCounts(r);
    }
  }

  /** `accounts[0]`, which is `undefined` for an empty list. */
  function FirstAccount(accounts: seq<Address>): (a: Option<Address>)
    ensures a.Some? <==> |accounts| > 0
    ensures a.Some? ==> a.value == accounts[0]
  {
    if |accounts| > 0 then Some(accounts[0]) else None
  }

  /** What the account-change handler does with a notification. */
  datatype AccountsAction = Disconnect | Reconnect | Ignore

  /** `accounts.length === 0` disconnects; otherwise `accounts[0] !== known`
      reconnects, where `known` is the account value the handler reads. */
  function AccountsChangedAction(accounts: seq<Address>, known: Option<Address>): (act: AccountsAction)
    ensures act == Disconnect <==> |accounts| == 0
    ensures act == Ignore <==> |accounts| > 0 && known == Some(accounts[0])
  {
    if |accounts| == 0 then Disconnect
    else if Some(accounts[0]) != known then Reconnect
    else Ignore
  }

  /** The account value the mounted listener closed over: the effect that
      registers it runs once, on the first render, when `account` is null. */
  const MOUNT_ACCOUNT: Option<Address> := None

  /** The stale listener reconnects even when the notified account is the one
      already connected; a listener reading the current account ignores it. */
  lemma StaleListenerReconnectsSameAccount(a: Address)
    ensures AccountsChangedAction([a], MOUNT_ACCOUNT) == Reconnect
    ensures AccountsChangedAction([a], Some(a)) == Ignore
  {
  }

  /** The listener as written never ignores a non-empty notification. */
  lemma MountListenerNeverIgnores(accounts: seq<Address>)
    ensures AccountsChangedAction(accounts, MOUNT_ACCOUNT) != Ignore
    ensures AccountsChangedAction(accounts, MOUNT_ACCOUNT) == Disconnect <==> accounts == []
  {
  }

  datatype Provider = Web3Provider                               // new Web3Provider(window.ethereum)
  datatype Signer = ProviderSigner(provider: Provider)           // provider.getSigner()
  datatype ContractHandle = Contract(address: string, signer: Signer)

  /** The handle `connectWallet` builds once the network is right. */
  const BOUND_CONTRACT: ContractHandle := Contract(CONTRACT_ADDRESS, ProviderSigner(Web3Provider))

  /** The session state of the application root, one field per `useState`. */
  class WalletSession {
    var isConnected: bool
    var account: Option<Address>
    var provider: Option<Provider>
    var signer: Option<Signer>
    var contract: Option<ContractHandle>
    var loading: bool
    /** Every wallet request issued so far, with `loading` at that moment. */
    var requests: seq<Issued<WalletRequest>>

    /** The session invariant: the contract handle (and the signer it is
        bound to) is set exactly when the session is connected. */
    predicate Valid()
      reads this
    {
      && (contract.Some? <==> isConnected)
      && (signer.Some? <==> isConnected)
      && (isConnected ==> provider.Some?)
    }

    /** What the pages read from the shared context. */
    function View(): (v: SessionView)
      reads this
      ensures v.isConnected == isConnected && v.account == account
      ensures v.hasContract <==> contract.Some?
      ensures v.hasProvider <==> provider.Some?
    {
      SessionView(isConnected, account, provider.Some?, contract.Some?)
    }

    constructor ()
      ensures Valid()
      ensures !isConnected && account.None? && provider.None? && signer.None? && contract.None?
      ensures !loading && requests == []
    {
      isConnected := false;
      account := None;
      provider := None;
      signer := None;
      contract := None;
      loading := false;
      requests := [];
    }

    /** The effect of one run of `connectWallet`: with no wallet object,
        nothing at all; otherwise the attempt's requests are issued while
        `loading` is true, the session setters run only if the attempt
        succeeds, and `loading` ends false whatever the outcome. */
    twostate predicate ConnectEffect(walletPresent: bool, r: WalletReplies)
      reads this
    {
      if !walletPresent then
        && isConnected == old(isConnected) && account == old(account)
        && provider == old(provider) && signer == old(signer)
        && contract == old(contract) && loading == old(loading)
        && requests == old(requests)
      else
        && requests == old(requests) + Tagged(ConnectRequests(r), true)
        && !loading
        && if ConnectSucceeds(r) then
             && isConnected
             && account == FirstAccount(r.accounts.value)
             && provider == Some(Web3Provider)
             && signer == Some(BOUND_CONTRACT.signer)
             && contract == Some(BOUND_CONTRACT)
           else
             && isConnected == old(isConnected) && account == old(account)
             && provider == old(provider) && signer == old(signer)
             && contract == old(contract)
    }

    /** Issues one wallet request. */
    method Request(q: WalletRequest)
      modifies this`requests
      ensures requests == old(requests) + [Issued(q, loading)]
    {
      requests := requests + [Issued(q, loading)];
    }

    /** The network step of `connectWallet`: switch to Sepolia unless
        already there, and add the chain when the wallet does not know it. */
    method SwitchNetwork(r: WalletReplies) returns (onSepolia: bool)
      requires r.chainId.Ok?
      modifies this`requests
      ensures requests == old(requests) + Tagged(NetworkRequests(r), loading)
      ensures onSepolia == OnSepoliaAfterwards(r)
    {
      onSepolia := r.chainId.value == SEPOLIA_CHAIN_ID;
      if !onSepolia {
        Request(SwitchChain(SEPOLIA_CHAIN_ID));
        if r.switchChain.Ok? {
          onSepolia := true;
        } else if r.switchChain.code == CHAIN_NOT_ADDED {
          Request(AddChain(SEPOLIA));
          onSepolia := r.addChain.Ok?;
        }
      }
    }

    /** `connectWallet`: account access, chain check, switch or add, then
        the session setters. A step that throws skips the rest of the `try`;
        `loading` is cleared in the `finally` on every path. */
    method ConnectWallet(walletPresent: bool, r: WalletReplies)
      requires Valid()
      modifies this
      ensures Valid()
      ensures ConnectEffect(walletPresent, r)
    {
      if !walletPresent {
        return;
      }
      loading := true;
      Request(RequestAccounts);
      if r.accounts.Ok? {
        var accounts := r.accounts.value;
        Request(ChainIdQuery);
        if r.chainId.Ok? {
          var onSepolia := SwitchNetwork(r);
          assert ConnectRequests(r) == [RequestAccounts, ChainIdQuery] + NetworkRequests(r);
          TaggedAppend([RequestAccounts, ChainIdQuery], NetworkRequests(r), true);
          assert requests == old(requests) + Tagged(ConnectRequests(r), true);
          if onSepolia {
            var ethersProvider := Web3Provider;
            var ethersSigner := ProviderSigner(ethersProvider);
            var financiaContract := Contract(CONTRACT_ADDRESS, ethersSigner);
            account := FirstAccount(accounts);
            provider := Some(ethersProvider);
            signer := Some(ethersSigner);
            contract := Some(financiaContract);
            isConnected := true;
          }
        }
      }
      loading := false;
    }

    /** The effect of the disconnect branch of the account-change handler:
        the provider and `loading` are left as they were. */
    twostate predicate DisconnectEffect()
      reads this
    {
      && !isConnected && account.None? && signer.None? && contract.None?
      && provider == old(provider) && loading == old(loading)
      && requests == old(requests)
    }

    /** `handleAccountsChanged` as registered at mount: it compares the first
        account with MOUNT_ACCOUNT, so every non-empty notification re-runs
        the connect sequence. */
    method HandleAccountsChanged(accounts: seq<Address>, r: WalletReplies)
      requires Valid()
      modifies this
      ensures Valid()
      ensures |accounts| == 0 ==> DisconnectEffect()
      ensures |accounts| > 0 ==> ConnectEffect(true, r)
    {
      var act := AccountsChangedAction(accounts, MOUNT_ACCOUNT);
      if act == Disconnect {
        isConnected := false;
        account := None;
        signer := None;
        contract := None;
      } else if act == Reconnect {
        ConnectWallet(true, r);
      }
    }

    /** The handler as its comment intends it: a notification naming the
        connected account changes nothing. */
    method HandleAccountsChangedCurrent(accounts: seq<Address>, r: WalletReplies)
      requires Valid()
      modifies this
      ensures Valid()
      ensures |accounts| == 0 ==> DisconnectEffect()
      ensures |accounts| > 0 && old(account) == Some(accounts[0]) ==> unchanged(this)
      ensures |accounts| > 0 && old(account) != Some(accounts[0]) ==> ConnectEffect(true, r)
    {
      var act := AccountsChangedAction(accounts, account);
      if act == Disconnect {
        isConnected := false;
        account := None;
        signer := None;
        contract := None;
      } else if act == Reconnect {
        ConnectWallet(true, r);
      }
    }

    /** The mount effect: with a wallet present, ask for the accounts already
        authorised and connect if there are any; a failing query is swallowed. */
    method CheckExistingConnection(walletPresent: bool, existing: Reply<seq<Address>>, r: WalletReplies)
      requires Valid()
      modifies this
      ensures Valid()
      ensures !walletPresent ==> unchanged(this)
      ensures walletPresent && (existing.Err? || |existing.value| == 0) ==>
                requests == old(requests) + [Issued(ExistingAccounts, old(loading))]
                && isConnected == old(isConnected) && account == old(account)
                && provider == old(provider) && signer == old(signer)
                && contract == old(contract) && loading == old(loading)
      ensures walletPresent && existing.Ok? && |existing.value| > 0 ==>
                && requests == old(requests) + [Issued(ExistingAccounts, old(loading))] + Tagged(ConnectRequests(r), true)
                && !loading
                && if ConnectSucceeds(r) then
                     && isConnected
                     && account == FirstAccount(r.accounts.value)
                     && provider == Some(Web3Provider)
                     && signer == Some(BOUND_CONTRACT.signer)
                     && contract == Some(BOUND_CONTRACT)
                   else
                     && isConnected == old(isConnected) && account == old(account)
                     && provider == old(provider) && signer == old(signer)
                     && contract == old(contract)
    {
      if !walletPresent {
        return;
      }
      Request(ExistingAccounts);
      if existing.Ok? && |existing.value| > 0 {
        ghost var afterQuery := requests;
        ConnectWallet(true, r);
        assert requests == afterQuery + Tagged(ConnectRequests(r), true);
      }
    }
  }

  /** Pages may rely on the session invariant: a connected session always
      offers a contract handle, a disconnected one never does. */
  lemma ConnectedSessionOffersContract(s: WalletSession)
    requires s.Valid()
    ensures s.View().hasContract == s.View().isConnected
    ensures s.View().isConnected ==> s.View().hasProvider
  {
  }
}
