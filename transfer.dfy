/** The transfer page (src/pages/Transfer.js): the periodic wallet-balance
    refresh and the submit handler with its four guards. */
module Transfer {
  import opened Wrappers
  import opened Web3

  /** The guards of `handleSubmit`, in the order they run. */
  datatype Guard = ConnectWalletFirst | InvalidRecipient | EnterValidAmount | InsufficientBalance

  /** The guard sequence: connection, recipient address, positive amount,
      amount within the wallet balance. The first failing guard decides.
      `recipientIsAddress` is the answer of `ethers.utils.isAddress`. */
  function SubmitGuard(view: SessionView, recipientIsAddress: bool, amount: AmountField, walletBalance: real)
    : (g: Option<Guard>)
    ensures g.None? <==>
              view.isConnected && recipientIsAddress && amount.Entered? && 0.0 < amount.value <= walletBalance
    ensures !view.isConnected ==> g == Some(ConnectWalletFirst)
    ensures view.isConnected && !recipientIsAddress ==> g == Some(InvalidRecipient)
    ensures view.isConnected && recipientIsAddress && InvalidAmount(amount) ==> g == Some(EnterValidAmount)
    ensures view.isConnected && recipientIsAddress && !InvalidAmount(amount) && amount.value > walletBalance ==>
              g == Some(InsufficientBalance)
  {
    if !view.isConnected then Some(ConnectWalletFirst)
    else if !recipientIsAddress then Some(InvalidRecipient)
    else if InvalidAmount(amount) then Some(EnterValidAmount)
    else if amount.value > walletBalance then Some(InsufficientBalance)
    else None
  }

  /** The whole wallet balance may be sent: the comparison is strict. */
  lemma WholeBalanceMayBeSent(view: SessionView, walletBalance: real)
    requires view.isConnected && walletBalance > 0.0
    ensures SubmitGuard(view, true, Entered(walletBalance), walletBalance).None?
  {
  }

  /** What each step of an accepted transfer comes to: the conversion of
      the amount text, then the awaited calls. */
  datatype TransferReplies = TransferReplies(
    parsed: Reply<Unit>,        // ethers.utils.parseEther(amount); throws on text it rejects
    submit: Reply<Unit>,        // contract.transfer(recipient, {value})
    receipt: Reply<Unit>,       // tx.wait()
    walletBalance: Reply<real>) // provider.getBalance(account)

  /** Every step resolved: the handler reaches the form reset. A missing
      contract or provider throws a TypeError where it is used. */
  predicate Completed(view: SessionView, r: TransferReplies) {
    view.hasContract && r.parsed.Ok? && r.submit.Ok? && r.receipt.Ok? && view.hasProvider && r.walletBalance.Ok?
  }

  /** The calls an accepted transfer issues. Nothing is sent when there is
      no contract (reading `contract.transfer` throws) or when the amount
      text is rejected (the argument throws before the call). */
  function TransferRequests(to: Address, value: real, view: SessionView, r: TransferReplies): (rs: seq<Call>)
    ensures rs == [] <==> !view.hasContract || r.parsed.Err?
    ensures rs != [] ==> rs[0] == TransferTx(to, value)
    ensures WalletBalanceOf(view.account) in rs <==>
              view.hasContract && r.parsed.Ok? && r.submit.Ok? && r.receipt.Ok? && view.hasProvider
  {
    if !view.hasContract || r.parsed.Err? then []
    else if r.submit.Err? then [TransferTx(to, value)]
    else if r.receipt.Err? || !view.hasProvider then [TransferTx(to, value), AwaitReceipt]
    else [TransferTx(to, value), AwaitReceipt, WalletBalanceOf(view.account)]
  }

  /** A completed transfer issues exactly the transaction, the wait and one
      wallet-balance read, in that order. */
  lemma CompletedTransferRequests(to: Address, value: real, view: SessionView, r: TransferReplies)
    requires Completed(view, r)
    ensures TransferRequests(to, value, view, r) == [TransferTx(to, value), AwaitReceipt, WalletBalanceOf(view.account)]
    ensures Count(TransferRequests(to, value, view, r), WalletBalanceOf(view.account)) == 1
  {
  }

  /** The state of the transfer page, one field per `useState`. */
  class TransferPage {
    var recipientAddress: string
    var amount: AmountField
    var walletBalance: real
    var ethPrice: Option<real>
    var loading: bool
    var transactionPending: bool
    /** Every call issued so far, with `transactionPending` at that moment. */
    var requests: seq<Issued<Call>>

    constructor ()
      ensures recipientAddress == "" && amount.Blank? && walletBalance == 0.0 && ethPrice.None?
      ensures loading && !transactionPending && requests == []
    {
      recipientAddress := "";
      amount := Blank;
      walletBalance := 0.0;
      ethPrice := None;
      loading := true;
      transactionPending := false;
      requests := [];
    }

    /** Issues one call. */
    method Issue(c: Call)
      modifies this`requests
      ensures requests == old(requests) + [Issued(c, transactionPending)]
    {
      requests := requests + [Issued(c, transactionPending)];
    }

    /** `handleSubmit`. On success the recipient and the amount are cleared
        and the wallet balance re-read; on failure the inputs are kept. */
    method HandleSubmit(view: SessionView, isAddress: string -> bool, r: TransferReplies)
      returns (outcome: Outcome<Guard>)
      modifies this
      ensures var g := SubmitGuard(view, isAddress(old(recipientAddress)), old(amount), old(walletBalance));
              g.Some? ==> outcome == Rejected(g.value) && unchanged(this)
      ensures var g := SubmitGuard(view, isAddress(old(recipientAddress)), old(amount), old(walletBalance));
              g.None? ==>
                && requests == old(requests) +
                     Tagged(TransferRequests(old(recipientAddress), old(amount).value, view, r), true)
                && !transactionPending
                && walletBalance == (if Completed(view, r) then r.walletBalance.value else old(walletBalance))
                && recipientAddress == (if Completed(view, r) then "" else old(recipientAddress))
                && amount == (if Completed(view, r) then Blank else old(amount))
                && ethPrice == old(ethPrice) && loading == old(loading)
                && outcome == (if Completed(view, r) then Succeeded else Failed)
    {
      if !view.isConnected {
        return Rejected(ConnectWalletFirst);
      }
      if !isAddress(recipientAddress) {
        return Rejected(InvalidRecipient);
      }
      if amount.Blank? || amount.value <= 0.0 {
        return Rejected(EnterValidAmount);
      }
      if amount.value > walletBalance {
        return Rejected(InsufficientBalance);
      }
      transactionPending := true;
      outcome := Failed;
      if view.hasContract && r.parsed.Ok? {
        Issue(TransferTx(recipientAddress, amount.value));
        if r.submit.Ok? {
          Issue(AwaitReceipt);
          if r.receipt.Ok? && view.hasProvider {
            Issue(WalletBalanceOf(view.account));
            if r.walletBalance.Ok? {
              walletBalance := r.walletBalance.value;
              recipientAddress := "";
              amount := Blank;
              outcome := Succeeded;
            }
          }
        }
      }
      transactionPending := false;
    }

    /** `fetchData`, run on mount and every 30 seconds: it needs a connected
        session, a truthy account and a provider (not a contract); otherwise
        it only clears `loading`. A failed price read is swallowed; a failed
        balance read skips it. */
    method FetchData(view: SessionView, wallet: Reply<real>, price: Reply<real>)
      modifies this
      ensures !loading
      ensures recipientAddress == old(recipientAddress) && amount == old(amount)
      ensures transactionPending == old(transactionPending)
      ensures !(view.isConnected && Truthy(view.account) && view.hasProvider) ==>
                requests == old(requests) && walletBalance == old(walletBalance) && ethPrice == old(ethPrice)
      ensures view.isConnected && Truthy(view.account) && view.hasProvider ==>
                && requests == old(requests) + Tagged(
                     [WalletBalanceOf(view.account)] + (if wallet.Err? then [] else [PriceQuote]),
                     old(transactionPending))
                && walletBalance == (if wallet.Ok? then wallet.value else old(walletBalance))
                && ethPrice == (if wallet.Ok? && price.Ok? then Some(price.value) else old(ethPrice))
    {
      if view.isConnected && Truthy(view.account) && view.hasProvider {
        Issue(WalletBalanceOf(view.account));
        if wallet.Ok? {
          walletBalance := wallet.value;
          Issue(PriceQuote);
          if price.Ok? {
            ethPrice := Some(price.value);
          }
        }
      }
      loading := false;
    }
  }
}
