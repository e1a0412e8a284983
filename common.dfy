/** Results of awaited calls. */
module Wrappers {

  datatype Option<+T> = None | Some(value: T)

  /** The settled value of an awaited call: it resolved with a value, or it
      threw an error carrying a numeric code (wallet RPC errors carry one;
      for other errors the code is irrelevant). */
  datatype Reply<+T> = Ok(value: T) | Err(code: int)

  /** A resolved call whose value is not used. */
  datatype Unit = Unit
}

/** Entities shared by the pages: the session as pages see it, form amounts,
    the external calls a page can issue, and the request log. */
module Web3 {
  import opened Wrappers

  type Address = string

  /** JavaScript truthiness of a nullable string: null and "" are falsy. */
  predicate Truthy(s: Option<string>) {
    s.Some? && s.value != ""
  }

  /** The part of the session a page reads from the shared context. Handles
      are opaque; a page only tests whether each one is set. */
  datatype SessionView = SessionView(
    isConnected: bool,
    account: Option<Address>,
    hasProvider: bool,
    hasContract: bool)

  /** A `type="number"` form field: empty, or a number. Browsers give "" for
      text that is not a number; text the field keeps but the ether
      conversion rejects (exponent notation, say) is a separate step of the
      write handlers. */
  datatype AmountField = Blank | Entered(value: real)

  /** The amount guard shared by all write forms: `!amount || parseFloat(amount) <= 0`. */
  predicate InvalidAmount(f: AmountField) {
    f.Blank? || f.value <= 0.0
  }

  /** How a form handler ended: stopped by one of its guards before any
      call, failed in a call (the error is caught and shown), or done. */
  datatype Outcome<+G> = Rejected(guard: G) | Failed | Succeeded

  /** Calls into the provider, the contract and the price API that a page issues. */
  datatype Call =
    | WalletBalanceOf(account: Option<Address>)   // provider.getBalance(account)
    | ContractBalance                             // contract.getBalance()
    | PriceQuote                                  // simple ETH/USD price
    | DepositTx(value: real)                      // contract.deposit({value})
    | WithdrawTx(amount: real)                    // contract.withdraw(amount)
    | TransferTx(to: Address, value: real)        // contract.transfer(to, {value})
    | AwaitReceipt                                // tx.wait()
    | TransactionHistory                          // contract.getTransactionHistory()

  /** A request as it was issued, with the page's busy flag (loading or
      transactionPending) at that moment. */
  datatype Issued<+R> = Issued(request: R, busy: bool)

  /** Every request of `rs` issued with the busy flag set to `busy`. */
  function Tagged<R>(rs: seq<R>, busy: bool): (r: seq<Issued<R>>)
    ensures |r| == |rs|
    ensures forall i :: 0 <= i < |rs| ==> r[i] == Issued(rs[i], busy)
  {
    seq(|rs|, i requires 0 <= i < |rs| => Issued(rs[i], busy))
  }

  lemma TaggedAppend<R>(a: seq<R>, b: seq<R>, busy: bool)
    ensures Tagged(a + b, busy) == Tagged(a, busy) + Tagged(b, busy)
  {
  }

  /** Number of occurrences of `x` in `s`. */
  function Count<T(==)>(s: seq<T>, x: T): (n: nat)
    ensures n <= |s|
    ensures n == 0 <==> x !in s
  {
    if s == [] then 0
    else (if s[0] == x then 1 else 0) + Count(s[1..], x)
  }

  lemma {:induction false} CountAppend<T>(a: seq<T>, b: seq<T>, x: T)
    ensures Count(a + b, x) == Count(a, x) + Count(b, x)
  {
    if a == [] {
      assert a + b == b;
    } else {
      assert (a + b)[1..] == a[1..] + b;
      CountAppend(a[1..], b, x);
    }
  }
}
