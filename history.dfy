/** The transaction-history page (src/pages/History.js): records fetched from
    the contract are reshaped, sorted newest first, and classified relative to
    the connected account for display. */
module History {
  import opened Wrappers
  import opened Web3
  import JsText

  /** A record as `getTransactionHistory` returns it: amount in wei,
      timestamp in seconds. */
  datatype ContractTx = ContractTx(
    from: Address,
    to: Address,
    amount: nat,
    timestamp: int,
    transactionType: string)

  /** A record as the page keeps it: timestamp in milliseconds. The amount
      stays in wei; `formatEther` is a change of unit only. */
  datatype TxRecord = TxRecord(
    from: Address,
    to: Address,
    amount: nat,
    timestamp: int,
    kind: string)

  /** The callback of `history.map`. */
  function FormatTx(tx: ContractTx): (r: TxRecord)
    ensures r.timestamp == tx.timestamp * 1000
    ensures r.from == tx.from && r.to == tx.to
    ensures r.amount == tx.amount && r.kind == tx.transactionType
  {
    TxRecord(tx.from, tx.to, tx.amount, tx.timestamp * 1000, tx.transactionType)
  }

  /** `history.map(...)`: one record per contract record, in contract order,
      with the timestamp converted from seconds to milliseconds. */
  function FormatHistory(history: seq<ContractTx>): (r: seq<TxRecord>)
    ensures |r| == |history|
    ensures forall i :: 0 <= i < |history| ==>
              r[i].timestamp == history[i].timestamp * 1000 &&
              r[i].from == history[i].from && r[i].to == history[i].to &&
              r[i].amount == history[i].amount && r[i].kind == history[i].transactionType
  {
    seq(|history|, i requires 0 <= i < |history| => FormatTx(history[i]))
  }

  /** The display order: non-increasing timestamps. */
  predicate NewestFirst(s: seq<TxRecord>) {
    forall i, j :: 0 <= i < j < |s| ==> s[i].timestamp >= s[j].timestamp
  }

  /** Exchanges two neighbouring records. */
  method SwapWithPrevious(a: array<TxRecord>, j: int)
    requires 0 < j < a.Length
    modifies a
    ensures a[j - 1] == old(a[j]) && a[j] == old(a[j - 1])
    ensures forall k :: 0 <= k < a.Length && k != j - 1 && k != j ==> a[k] == old(a[k])
    ensures multiset(a[..]) == old(multiset(a[..]))
  {
    a[j - 1], a[j] := a[j], a[j - 1];
  }

  /** One pass of the insertion sort: the record at `i` moves left past the
      records strictly older than it, so that the first `i + 1` records are
      newest first. */
  method InsertNewest(a: array<TxRecord>, i: int)
    requires 0 <= i < a.Length
    requires NewestFirst(a[..i])
    modifies a
    ensures NewestFirst(a[..i + 1])
    ensures multiset(a[..]) == old(multiset(a[..]))
  {
    var j := i;
    while j > 0 && a[j - 1].timestamp < a[j].timestamp
      invariant 0 <= j <= i
      invariant forall p, q :: 0 <= p < q <= i && p != j && q != j ==> a[p].timestamp >= a[q].timestamp
      invariant forall q :: j < q <= i ==> a[j].timestamp > a[q].timestamp
      invariant multiset(a[..]) == old(multiset(a[..]))
    {
      SwapWithPrevious(a, j);
      j := j - 1;
    }
  }

  /** `formattedTransactions.sort((a, b) => b.timestamp - a.timestamp)`,
      in place, as an insertion sort. */
  method SortNewestFirst(a: array<TxRecord>)
    modifies a
    ensures NewestFirst(a[..])
    ensures multiset(a[..]) == old(multiset(a[..]))
  {
    var i := 0;
    while i < a.Length
      invariant 0 <= i <= a.Length
      invariant NewestFirst(a[..i])
      invariant multiset(a[..]) == old(multiset(a[..]))
    {
      InsertNewest(a, i);
      i := i + 1;
    }
    assert a[..a.Length] == a[..];
  }

  /** The shaping done by `fetchTransactionHistory` between the contract
      call and the state update: map, then sort the fresh array in place. */
  method ShapeHistory(history: seq<ContractTx>) returns (shaped: seq<TxRecord>)
    ensures |shaped| == |history|
    ensures NewestFirst(shaped)
    ensures multiset(shaped) == multiset(FormatHistory(history))
  {
    var formatted := FormatHistory(history);
    var arr := new TxRecord[|formatted|](i requires 0 <= i < |formatted| => formatted[i]);
    assert arr[..] == formatted;
    SortNewestFirst(arr);
    shaped := arr[..];
    assert |multiset(shaped)| == |multiset(formatted)|;
  }

  /** The state of the history page. */
  class HistoryPage {
    var transactions: seq<TxRecord>
    var loading: bool
    /** Every contract call issued so far, with `loading` at that moment. */
    var requests: seq<Issued<Call>>

    constructor ()
      ensures transactions == [] && loading && requests == []
    {
      transactions := [];
      loading := true;
      requests := [];
    }

    /** `fetchTransactionHistory`: with a connected session and a contract,
        fetch, shape and store the history; a failed fetch keeps the previous
        list. `loading` ends false on every path. */
    method FetchTransactionHistory(view: SessionView, reply: Reply<seq<ContractTx>>)
      modifies this
      ensures !loading
      ensures !(view.isConnected && view.hasContract) ==>
                transactions == old(transactions) && requests == old(requests)
      ensures view.isConnected && view.hasContract ==>
                requests == old(requests) + [Issued(TransactionHistory, true)]
      ensures view.isConnected && view.hasContract && reply.Err? ==>
                transactions == old(transactions)
      ensures view.isConnected && view.hasContract && reply.Ok? ==>
                && NewestFirst(transactions)
                && multiset(transactions) == multiset(FormatHistory(reply.value))
    {
      if view.isConnected && view.hasContract {
        loading := true;
        requests := requests + [Issued(TransactionHistory, loading)];
        if reply.Ok? {
          var formattedTransactions := ShapeHistory(reply.value);
          transactions := formattedTransactions;
        }
        loading := false;
      } else {
        loading := false;
      }
    }
  }

  /** How a record is shown relative to the connected account. */
  datatype Direction = Deposit | Withdrawal | Outgoing | Incoming | Other

  /** `address.toLowerCase() === account?.toLowerCase()`: never true without
      an account. */
  predicate IsAccount(address: Address, account: Option<Address>) {
    account.Some? && JsText.EqualsIgnoringCase(address, account.value)
  }

  /** Whether a record is a transfer, that is, neither kind handled first. */
  predicate IsTransfer(tx: TxRecord) {
    tx.kind != "Deposit" && tx.kind != "Withdrawal"
  }

  /** `getTransactionDirection`. */
  function GetTransactionDirection(tx: TxRecord, account: Option<Address>): (d: Direction)
    // the kind decides first, whatever the addresses
    ensures tx.kind == "Deposit" ==> d == Deposit
    ensures tx.kind == "Withdrawal" ==> d == Withdrawal
    // the sender is checked before the recipient
    ensures d == Outgoing <==> IsTransfer(tx) && IsAccount(tx.from, account)
    ensures d == Incoming <==> IsTransfer(tx) && !IsAccount(tx.from, account) && IsAccount(tx.to, account)
    ensures d == Other <==> IsTransfer(tx) && !IsAccount(tx.from, account) && !IsAccount(tx.to, account)
    ensures IsTransfer(tx) && account.None? ==> d == Other
  {
    if tx.kind == "Deposit" then Deposit
    else if tx.kind == "Withdrawal" then Withdrawal
    else if IsAccount(tx.from, account) then Outgoing
    else if IsAccount(tx.to, account) then Incoming
    else Other
  }

  /** A transfer from the account to itself is shown as sent. */
  lemma SelfTransferIsOutgoing(tx: TxRecord, account: Address)
    requires IsTransfer(tx) && tx.from == tx.to && JsText.EqualsIgnoringCase(tx.from, account)
    ensures GetTransactionDirection(tx, Some(account)) == Outgoing
  {
  }

  /** The classification ignores letter case: rewriting the addresses or the
      account with other case gives the same direction. */
  lemma DirectionIgnoresCase(tx: TxRecord, tx': TxRecord, account: Address, account': Address)
    requires tx'.kind == tx.kind
    requires JsText.EqualsIgnoringCase(tx.from, tx'.from) && JsText.EqualsIgnoringCase(tx.to, tx'.to)
    requires JsText.EqualsIgnoringCase(account, account')
    ensures GetTransactionDirection(tx, Some(account)) == GetTransactionDirection(tx', Some(account'))
  {
  }

  /** The sign in front of a shown amount. */
  function AmountSign(d: Direction): (c: char)
    ensures c == '+' <==> d == Incoming || d == Deposit
    ensures c == '-' <==> !(d == Incoming || d == Deposit)
  {
    if d == Incoming || d == Deposit then '+' else '-'
  }

  /** Money leaving the account is shown negative: withdrawals always, and
      every transfer it sent, including one to itself. */
  lemma OutflowShownNegative(tx: TxRecord, account: Option<Address>)
    requires tx.kind == "Withdrawal" || (IsTransfer(tx) && IsAccount(tx.from, account))
    ensures AmountSign(GetTransactionDirection(tx, account)) == '-'
  {
  }

  /** `formatAddress`: the first six characters, "...", the last four, with
      `substring`'s clamping for short text. */
  function FormatAddress(address: string): (r: string)
    ensures |address| >= 6 ==> r == address[..6] + "..." + address[|address| - 4..]
    ensures 4 <= |address| < 6 ==> r == address + "..." + address[|address| - 4..]
    ensures |address| < 4 ==> r == address + "..." + address
    ensures |r| == JsText.Min(|address|, 6) + 3 + JsText.Min(|address|, 4)
  {
    JsText.Substring(address, 0, 6) + "..." + JsText.SubstringFrom(address, |address| - 4)
  }
}
