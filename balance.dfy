/** The balance page (src/pages/Balance.js): the periodic balance refresh,
    the deposit and withdraw handlers with their client-side guards, and the
    rule that enables the withdraw button. */
module Balance {
  import opened Wrappers
  import opened Web3

  /** The guards of the two handlers, in the order they run. */
  datatype Guard = ConnectWalletFirst | EnterValidAmount | InsufficientContractBalance

  /** `handleDeposit`'s guards: a connected session with a contract, then a
      positive amount. */
  function DepositGuard(view: SessionView, amount: AmountField): (g: Option<Guard>)
    ensures g.None? <==> view.isConnected && view.hasContract && amount.Entered? && amount.value > 0.0
    ensures !(view.isConnected && view.hasContract) ==> g == Some(ConnectWalletFirst)
    ensures view.isConnected && view.hasContract && InvalidAmount(amount) ==> g == Some(EnterValidAmount)
  {
    if !view.isConnected || !view.hasContract then Some(ConnectWalletFirst)
    else if InvalidAmount(amount) then Some(EnterValidAmount)
    else None
  }

  /** `handleWithdraw`'s guards: those of a deposit, then the amount against
      the known contract balance. */
  function WithdrawGuard(view: SessionView, amount: AmountField, contractBalance: real): (g: Option<Guard>)
    ensures g.None? <==>
              view.isConnected && view.hasContract && amount.Entered? && 0.0 < amount.value <= contractBalance
    // the guards a deposit has run first and decide alone
    ensures DepositGuard(view, amount).Some? ==> g == DepositGuard(view, amount)
    ensures DepositGuard(view, amount).None? && amount.value > contractBalance ==>
              g == Some(InsufficientContractBalance)
  {
    if !view.isConnected || !view.hasContract then Some(ConnectWalletFirst)
    else if InvalidAmount(amount) then Some(EnterValidAmount)
    else if amount.value > contractBalance then Some(InsufficientContractBalance)
    else None
  }

  /** The whole contract balance may be withdrawn: the comparison is strict. */
  lemma WithdrawWholeBalanceAllowed(view: SessionView, contractBalance: real)
    requires view.isConnected && view.hasContract && contractBalance > 0.0
    ensures WithdrawGuard(view, Entered(contractBalance), contractBalance).None?
  {
  }

  /** A non-positive amount is reported as invalid, never as exceeding the
      balance, even when it also exceeds it. */
  lemma PositivityCheckedBeforeBalance(view: SessionView, amount: real, contractBalance: real)
    requires view.isConnected && view.hasContract && amount <= 0.0
    ensures WithdrawGuard(view, Entered(amount), contractBalance) == Some(EnterValidAmount)
  {
  }

  /** `disabled={transactionPending || parseFloat(contractBalance) === 0}`. */
  function WithdrawDisabled(transactionPending: bool, contractBalance: real): (disabled: bool)
    ensures !disabled <==> !transactionPending && contractBalance != 0.0
  {
    transactionPending || contractBalance == 0.0
  }

  /** With the button enabled and a non-negative balance, some amount gets
      past every withdraw guard. */
  lemma EnabledWithdrawCanPass(view: SessionView, transactionPending: bool, contractBalance: real)
    requires view.isConnected && view.hasContract && contractBalance >= 0.0
    requires !WithdrawDisabled(transactionPending, contractBalance)
    ensures exists v: real :: WithdrawGuard(view, Entered(v), contractBalance).None?
  {
    assert WithdrawGuard(view, Entered(contractBalance), contractBalance).None?;
  }

  /** What each step of an accepted deposit or withdrawal comes to: the
      conversion of the amount text, then the awaited calls. */
  datatype WriteReplies = WriteReplies(
    parsed: Reply<Unit>,          // ethers.utils.parseEther(amount); throws on text it rejects
    submit: Reply<Unit>,          // contract.deposit / contract.withdraw
    receipt: Reply<Unit>,         // tx.wait()
    walletBalance: Reply<real>,   // provider.getBalance(account)
    contractBalance: Reply<real>) // contract.getBalance()

  /** The amount converted, and the transaction was submitted and confirmed. */
  predicate Confirmed(r: WriteReplies) {
    r.parsed.Ok? && r.submit.Ok? && r.receipt.Ok?
  }

  /** The wallet balance was re-read after confirmation. */
  predicate WalletReread(view: SessionView, r: WriteReplies) {
    Confirmed(r) && view.hasProvider && r.walletBalance.Ok?
  }

  /** Every awaited call resolved: the handler reaches the form reset. */
  predicate FullyRefreshed(view: SessionView, r: WriteReplies) {
    WalletReread(view, r) && r.contractBalance.Ok?
  }

  /** The reads that follow a confirmation: the wallet balance, then the
      contract balance. Without a provider, `provider.getBalance` throws
      before any request. */
  function RefreshRequests(view: SessionView, r: WriteReplies): seq<Call> {
    if !view.hasProvider then []
    else [WalletBalanceOf(view.account)] + if r.walletBalance.Err? then [] else [ContractBalance]
  }

  /** The calls an accepted write issues: the transaction, the wait for its
      receipt, and the reads after confirmation. A rejected amount text
      throws while the call's argument is built, so nothing is sent; a call
      that throws ends the sequence. */
  function WriteRequests(tx: Call, view: SessionView, r: WriteReplies): (rs: seq<Call>)
    requires tx.DepositTx? || tx.WithdrawTx?
    ensures rs == [] <==> r.parsed.Err?
    ensures rs != [] ==> rs[0] == tx
    ensures AwaitReceipt in rs <==> r.parsed.Ok? && r.submit.Ok?
  {
    if r.parsed.Err? then []
    else [tx] + if r.submit.Err? then [] else [AwaitReceipt] + if r.receipt.Err? then [] else RefreshRequests(view, r)
  }

  /** After a confirmed write each balance is re-read at most once, and
      exactly once when the earlier calls resolve; before confirmation
      nothing is re-read. */
  lemma WriteRereadsOnce(tx: Call, view: SessionView, r: WriteReplies)
    requires tx.DepositTx? || tx.WithdrawTx?
    ensures Count(WriteRequests(tx, view, r), WalletBalanceOf(view.account)) ==
              if Confirmed(r) && view.hasProvider then 1 else 0
    ensures Count(WriteRequests(tx, view, r), ContractBalance) ==
              if WalletReread(view, r) then 1 else 0
    ensures WalletReread(view, r) ==>
              WriteRequests(tx, view, r) == [tx, AwaitReceipt, WalletBalanceOf(view.account), ContractBalance]
  {
    var rs := WriteRequests(tx, view, r);
    var w := WalletBalanceOf(view.account);
    if Confirmed(r) {
      var refresh := RefreshRequests(view, r);
      assert rs == [tx, AwaitReceipt] + refresh;
      CountAppend([tx, AwaitReceipt], refresh, w);
      CountAppend([tx, AwaitReceipt], refresh, ContractBalance);
      if view.hasProvider && r.walletBalance.Ok? {
        assert refresh == [w] + [ContractBalance];
        CountAppend([w], [ContractBalance], w);
        CountAppend([w], [ContractBalance], ContractBalance);
      }
    } else {
      assert rs == [] || rs == [tx] || rs == [tx, AwaitReceipt];
    }
  }

  /** The state of the balance page, one field per `useState`. */
  class BalancePage {
    var walletBalance: real
    var contractBalance: real
    var ethPrice: Option<real>
    var depositAmount: AmountField
    var withdrawAmount: AmountField
    var loading: bool
    var transactionPending: bool
    /** Every call issued so far, with `transactionPending` at that moment. */
    var requests: seq<Issued<Call>>

    constructor ()
      ensures walletBalance == 0.0 && contractBalance == 0.0 && ethPrice.None?
      ensures depositAmount.Blank? && withdrawAmount.Blank?
      ensures loading && !transactionPending && requests == []
    {
      walletBalance := 0.0;
      contractBalance := 0.0;
      ethPrice := None;
      depositAmount := Blank;
      withdrawAmount := Blank;
      loading := true;
      transactionPending := false;
      requests := [];
    }

    /** Issues one call. */
    method Issue(c: Call)
      modifies this`requests
      ensures requests == old(requests) + [Issued(c, transactionPending)]
    {
      requests := requests + [Issued(c, transactionPending)];
    }

    /** The reads after a confirmed write. */
    method Refresh(view: SessionView, r: WriteReplies) returns (ok: bool)
      modifies this`requests, this`walletBalance, this`contractBalance
      ensures requests == old(requests) + Tagged(RefreshRequests(view, r), transactionPending)
      ensures ok <==> view.hasProvider && r.walletBalance.Ok? && r.contractBalance.Ok?
      ensures walletBalance == if view.hasProvider && r.walletBalance.Ok? then r.walletBalance.value else old(walletBalance)
      ensures contractBalance == if ok then r.contractBalance.value else old(contractBalance)
    {
      ok := false;
      if view.hasProvider {
        Issue(WalletBalanceOf(view.account));
        if r.walletBalance.Ok? {
          walletBalance := r.walletBalance.value;
          Issue(ContractBalance);
          if r.contractBalance.Ok? {
            contractBalance := r.contractBalance.value;
            ok := true;
          }
        }
      }
      assert requests == old(requests) + Tagged(RefreshRequests(view, r), transactionPending);
    }

    /** The `try` block shared by both handlers: convert the amount, submit,
        wait for the receipt, re-read both balances. */
    method SubmitAndRefresh(tx: Call, view: SessionView, r: WriteReplies) returns (ok: bool)
      requires tx.DepositTx? || tx.WithdrawTx?
      modifies this`requests, this`walletBalance, this`contractBalance
      ensures requests == old(requests) + Tagged(WriteRequests(tx, view, r), transactionPending)
      ensures ok == FullyRefreshed(view, r)
      ensures walletBalance == if WalletReread(view, r) then r.walletBalance.value else old(walletBalance)
      ensures contractBalance == if FullyRefreshed(view, r) then r.contractBalance.value else old(contractBalance)
    {
      ok := false;
      if r.parsed.Err? {
        return;
      }
      Issue(tx);
      if r.submit.Ok? {
        Issue(AwaitReceipt);
        ghost var sent := requests;
        assert sent == old(requests) + Tagged([tx, AwaitReceipt], transactionPending);
        if r.receipt.Ok? {
          ok := Refresh(view, r);
          TaggedAppend([tx, AwaitReceipt], RefreshRequests(view, r), transactionPending);
          assert WriteRequests(tx, view, r) == [tx, AwaitReceipt] + RefreshRequests(view, r);
          assert requests == sent + Tagged(RefreshRequests(view, r), transactionPending);
        } else {
          assert WriteRequests(tx, view, r) == [tx, AwaitReceipt];
        }
      } else {
        assert WriteRequests(tx, view, r) == [tx];
      }
    }

    /** The effect of an accepted write on the fields both handlers share:
        every call issued while pending, `transactionPending` false again,
        each balance replaced only by a completed re-read. */
    twostate predicate AcceptedWrite(tx: Call, view: SessionView, r: WriteReplies)
      requires tx.DepositTx? || tx.WithdrawTx?
      reads this
    {
      && requests == old(requests) + Tagged(WriteRequests(tx, view, r), true)
      && !transactionPending
      && walletBalance == (if WalletReread(view, r) then r.walletBalance.value else old(walletBalance))
      && contractBalance == (if FullyRefreshed(view, r) then r.contractBalance.value else old(contractBalance))
      && ethPrice == old(ethPrice) && loading == old(loading)
    }

    /** `handleDeposit`. */
    method HandleDeposit(view: SessionView, r: WriteReplies) returns (outcome: Outcome<Guard>)
      modifies this
      ensures DepositGuard(view, old(depositAmount)).Some? ==>
                outcome == Rejected(DepositGuard(view, old(depositAmount)).value) && unchanged(this)
      ensures DepositGuard(view, old(depositAmount)).None? ==>
                && AcceptedWrite(DepositTx(old(depositAmount).value), view, r)
                && depositAmount == (if FullyRefreshed(view, r) then Blank else old(depositAmount))
                && withdrawAmount == old(withdrawAmount)
                && outcome == (if FullyRefreshed(view, r) then Succeeded else Failed)
    {
      if !view.isConnected || !view.hasContract {
        return Rejected(ConnectWalletFirst);
      }
      if depositAmount.Blank? || depositAmount.value <= 0.0 {
        return Rejected(EnterValidAmount);
      }
      transactionPending := true;
      var ok := SubmitAndRefresh(DepositTx(depositAmount.value), view, r);
      if ok {
        depositAmount := Blank;
        outcome := Succeeded;
      } else {
        outcome := Failed;
      }
      transactionPending := false;
    }

    /** `handleWithdraw`. */
    method HandleWithdraw(view: SessionView, r: WriteReplies) returns (outcome: Outcome<Guard>)
      modifies this
      ensures WithdrawGuard(view, old(withdrawAmount), old(contractBalance)).Some? ==>
                outcome == Rejected(WithdrawGuard(view, old(withdrawAmount), old(contractBalance)).value)
                && unchanged(this)
      ensures WithdrawGuard(view, old(withdrawAmount), old(contractBalance)).None? ==>
                && AcceptedWrite(WithdrawTx(old(withdrawAmount).value), view, r)
                && withdrawAmount == (if FullyRefreshed(view, r) then Blank else old(withdrawAmount))
                && depositAmount == old(depositAmount)
                && outcome == (if FullyRefreshed(view, r) then Succeeded else Failed)
    {
      if !view.isConnected || !view.hasContract {
        return Rejected(ConnectWalletFirst);
      }
      if withdrawAmount.Blank? || withdrawAmount.value <= 0.0 {
        return Rejected(EnterValidAmount);
      }
      if withdrawAmount.value > contractBalance {
        return Rejected(InsufficientContractBalance);
      }
      transactionPending := true;
      var ok := SubmitAndRefresh(WithdrawTx(withdrawAmount.value), view, r);
      if ok {
        withdrawAmount := Blank;
        outcome := Succeeded;
      } else {
        outcome := Failed;
      }
      transactionPending := false;
    }

    /** `fetchBalances`, run on mount and every 30 seconds: with a connected
        session, an account, a provider and a contract, read the wallet
        balance, then the contract balance, then the price; a failed price
        read is swallowed, a failed balance read skips what follows.
        `loading` ends false on every path. */
    method FetchBalances(view: SessionView, wallet: Reply<real>, held: Reply<real>, price: Reply<real>)
      modifies this
      ensures !loading
      ensures depositAmount == old(depositAmount) && withdrawAmount == old(withdrawAmount)
      ensures transactionPending == old(transactionPending)
      ensures !(view.isConnected && Truthy(view.account) && view.hasProvider && view.hasContract) ==>
                && requests == old(requests)
                && walletBalance == old(walletBalance) && contractBalance == old(contractBalance)
                && ethPrice == old(ethPrice)
      ensures view.isConnected && Truthy(view.account) && view.hasProvider && view.hasContract ==>
                && requests == old(requests) + Tagged(
                     [WalletBalanceOf(view.account)] +
                     (if wallet.Err? then [] else [ContractBalance] + (if held.Err? then [] else [PriceQuote])),
                     old(transactionPending))
                && walletBalance == (if wallet.Ok? then wallet.value else old(walletBalance))
                && contractBalance == (if wallet.Ok? && held.Ok? then held.value else old(contractBalance))
                && ethPrice == (if wallet.Ok? && held.Ok? && price.Ok? then Some(price.value) else old(ethPrice))
    {
      if view.isConnected && Truthy(view.account) && view.hasProvider && view.hasContract {
        Issue(WalletBalanceOf(view.account));
        if wallet.Ok? {
          walletBalance := wallet.value;
          Issue(ContractBalance);
          if held.Ok? {
            contractBalance := held.value;
            Issue(PriceQuote);
            if price.Ok? {
              ethPrice := Some(price.value);
            }
          }
        }
      }
      loading := false;
    }
  }
}
