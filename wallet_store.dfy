/** The escrow wallet ledger (mobile-app/src/core/stores/walletStore.ts): a map
    from user id to wallet, each with an available balance, a locked (escrowed)
    balance, lifetime earnings and an append-only transaction log.

    The pure functions below give the store's state after each action; the
    class `WalletStore` holds the map and its methods follow them. The generated
    transaction id (`txn_<Date.now()>_<Math.random()>`) and the `new Date()`
    stamp are parameters `txnId` and `now`. */
module WalletStore {
  import opened Wrappers
  import opened Types

  type Wallets = map<string, Wallet>

  /** The mock starting balance of a new wallet. */
  const StartingBalance: int := 5000

  /** The funds a wallet holds for its owner: available plus locked. */
  function Holdings(w: Wallet): int {
    w.availableBalance + w.lockedBalance
  }

  /** `after` has the same wallets as `before`, and every wallet other than
      `userId`'s is untouched. */
  predicate OnlyChanged(before: Wallets, after: Wallets, userId: string) {
    after.Keys == before.Keys &&
    forall u :: u in before && u != userId ==> after[u] == before[u]
  }

  // ---------------------------------------------------------------------------
  // Log entries each action appends
  // ---------------------------------------------------------------------------

  function LockEntry(userId: string, amount: int, taskId: string, kind: TransactionType,
                     txnId: string, now: Timestamp): Transaction
  {
    Transaction(txnId, userId, amount, kind, Locked, "Funds locked for task", Some(taskId), None, now)
  }

  function ReleaseEntry(userId: string, amount: int, taskId: string, txnId: string, now: Timestamp): Transaction {
    Transaction(txnId, userId, amount, TaskPayment, TransactionStatus.Completed,
                "Payment released for task", Some(taskId), None, now)
  }

  function RefundEntry(userId: string, amount: int, taskId: string, txnId: string, now: Timestamp): Transaction {
    Transaction(txnId, userId, amount, Refund, TransactionStatus.Completed,
                "Refund for cancelled task", Some(taskId), None, now)
  }

  function EarningsEntry(runnerId: string, amount: int, taskId: string, description: string,
                         txnId: string, now: Timestamp): Transaction
  {
    Transaction(txnId, runnerId, amount, TaskPayment, TransactionStatus.Completed,
                description, Some(taskId), None, now)
  }

  /** The argument of `addTransaction`: a transaction without its id and date. */
  datatype TransactionDraft = TransactionDraft(
    userId: string,
    amount: int,
    kind: TransactionType,
    status: TransactionStatus,
    description: string,
    relatedTaskId: Option<string>,
    relatedInstantTaskId: Option<string>)

  function FromDraft(d: TransactionDraft, txnId: string, now: Timestamp): Transaction {
    Transaction(txnId, d.userId, d.amount, d.kind, d.status, d.description,
                d.relatedTaskId, d.relatedInstantTaskId, now)
  }

  // ---------------------------------------------------------------------------
  // The state after each action
  // ---------------------------------------------------------------------------

  /** `initializeWallet`: adds a fresh wallet (5000 available, nothing locked or
      earned, empty log) only when the user has none. */
  function Initialized(ws: Wallets, userId: string): (r: Wallets)
    ensures userId in r
    ensures userId in ws ==> r == ws
    ensures userId !in ws ==> r.Keys == ws.Keys + {userId}
    ensures userId !in ws ==> r[userId].userId == userId && r[userId].availableBalance == StartingBalance
    ensures userId !in ws ==> r[userId].lockedBalance == 0 && r[userId].totalEarnings == 0
    ensures userId !in ws ==> r[userId].transactions == []
    ensures forall u :: u in ws ==> u in r && r[u] == ws[u]
  {
    if userId !in ws then ws[userId := Wallet(userId, StartingBalance, 0, 0, [])] else ws
  }

  datatype LockResult = LockResult(ok: bool, wallets: Wallets)

  /** `lockFunds`: fails, changing nothing, when the user has no wallet or less
      than `amount` available; otherwise moves `amount` from available to
      locked and logs one `locked` entry. */
  function Locking(ws: Wallets, userId: string, amount: int, taskId: string, kind: TransactionType,
                   txnId: string, now: Timestamp): (r: LockResult)
    ensures r.ok <==> userId in ws && ws[userId].availableBalance >= amount
    ensures !r.ok ==> r.wallets == ws
    ensures r.ok ==> OnlyChanged(ws, r.wallets, userId)
    ensures r.ok ==> r.wallets[userId].availableBalance == ws[userId].availableBalance - amount
    ensures r.ok ==> r.wallets[userId].lockedBalance == ws[userId].lockedBalance + amount
    ensures r.ok ==> Holdings(r.wallets[userId]) == Holdings(ws[userId])
    ensures r.ok ==> r.wallets[userId].totalEarnings == ws[userId].totalEarnings
    ensures r.ok ==> r.wallets[userId].userId == ws[userId].userId
    ensures r.ok ==> r.wallets[userId].transactions ==
                     ws[userId].transactions + [LockEntry(userId, amount, taskId, kind, txnId, now)]
  {
    if userId !in ws || ws[userId].availableBalance < amount then LockResult(false, ws)
    else
      var w := ws[userId];
      LockResult(true, ws[userId := w.(availableBalance := w.availableBalance - amount,
                                       lockedBalance := w.lockedBalance + amount,
                                       transactions := w.transactions + [LockEntry(userId, amount, taskId, kind, txnId, now)])])
  }

  /** `releaseFunds`: no-op without a wallet; otherwise lowers only the locked
      balance by `amount` (never checking that so much is locked) and logs a
      completed `task_payment`. */
  function Released(ws: Wallets, userId: string, amount: int, taskId: string,
                    txnId: string, now: Timestamp): (r: Wallets)
    ensures userId !in ws ==> r == ws
    ensures userId in ws ==> OnlyChanged(ws, r, userId)
    ensures userId in ws ==> r[userId].lockedBalance == ws[userId].lockedBalance - amount
    ensures userId in ws ==> r[userId].availableBalance == ws[userId].availableBalance
    ensures userId in ws ==> Holdings(r[userId]) == Holdings(ws[userId]) - amount
    ensures userId in ws ==> r[userId].totalEarnings == ws[userId].totalEarnings
    ensures userId in ws ==> r[userId].userId == ws[userId].userId
    ensures userId in ws ==> r[userId].transactions ==
                             ws[userId].transactions + [ReleaseEntry(userId, amount, taskId, txnId, now)]
  {
    if userId !in ws then ws
    else
      var w := ws[userId];
      ws[userId := w.(lockedBalance := w.lockedBalance - amount,
                      transactions := w.transactions + [ReleaseEntry(userId, amount, taskId, txnId, now)])]
  }

  /** `refundFunds`: no-op without a wallet; otherwise moves `amount` from locked
      back to available (again unchecked) and logs a completed `refund`. */
  function Refunded(ws: Wallets, userId: string, amount: int, taskId: string,
                    txnId: string, now: Timestamp): (r: Wallets)
    ensures userId !in ws ==> r == ws
    ensures userId in ws ==> OnlyChanged(ws, r, userId)
    ensures userId in ws ==> r[userId].availableBalance == ws[userId].availableBalance + amount
    ensures userId in ws ==> r[userId].lockedBalance == ws[userId].lockedBalance - amount
    ensures userId in ws ==> Holdings(r[userId]) == Holdings(ws[userId])
    ensures userId in ws ==> r[userId].totalEarnings == ws[userId].totalEarnings
    ensures userId in ws ==> r[userId].userId == ws[userId].userId
    ensures userId in ws ==> r[userId].transactions ==
                             ws[userId].transactions + [RefundEntry(userId, amount, taskId, txnId, now)]
  {
    if userId !in ws then ws
    else
      var w := ws[userId];
      ws[userId := w.(availableBalance := w.availableBalance + amount,
                      lockedBalance := w.lockedBalance - amount,
                      transactions := w.transactions + [RefundEntry(userId, amount, taskId, txnId, now)])]
  }

  /** `addEarnings`: no-op without a wallet; otherwise credits `amount` to both
      the available balance and the lifetime earnings, leaves the locked
      balance alone and logs a completed `task_payment`. */
  function Credited(ws: Wallets, runnerId: string, amount: int, taskId: string, description: string,
                    txnId: string, now: Timestamp): (r: Wallets)
    ensures runnerId !in ws ==> r == ws
    ensures runnerId in ws ==> OnlyChanged(ws, r, runnerId)
    ensures runnerId in ws ==> r[runnerId].availableBalance == ws[runnerId].availableBalance + amount
    ensures runnerId in ws ==> r[runnerId].totalEarnings == ws[runnerId].totalEarnings + amount
    ensures runnerId in ws ==> r[runnerId].lockedBalance == ws[runnerId].lockedBalance
    ensures runnerId in ws ==> Holdings(r[runnerId]) == Holdings(ws[runnerId]) + amount
    ensures runnerId in ws ==> r[runnerId].userId == ws[runnerId].userId
    ensures runnerId in ws ==> r[runnerId].transactions ==
                               ws[runnerId].transactions + [EarningsEntry(runnerId, amount, taskId, description, txnId, now)]
  {
    if runnerId !in ws then ws
    else
      var w := ws[runnerId];
      ws[runnerId := w.(availableBalance := w.availableBalance + amount,
                        totalEarnings := w.totalEarnings + amount,
                        transactions := w.transactions + [EarningsEntry(runnerId, amount, taskId, description, txnId, now)])]
  }

  /** `addTransaction`: no-op without a wallet; otherwise appends the draft,
      completed with an id and a date, and touches no balance. The entry keeps
      the draft's own `userId`, which need not be the wallet's. */
  function Recorded(ws: Wallets, userId: string, d: TransactionDraft,
                    txnId: string, now: Timestamp): (r: Wallets)
    ensures userId !in ws ==> r == ws
    ensures userId in ws ==> OnlyChanged(ws, r, userId)
    ensures userId in ws ==> r[userId] == ws[userId].(transactions := ws[userId].transactions + [FromDraft(d, txnId, now)])
  {
    if userId !in ws then ws
    else
      var w := ws[userId];
      ws[userId := w.(transactions := w.transactions + [FromDraft(d, txnId, now)])]
  }

  /** `getTransactions`: the wallet's log, or `[]` for a user without a wallet. */
  function TransactionsOf(ws: Wallets, userId: string): (r: seq<Transaction>)
    ensures userId !in ws ==> r == []
    ensures userId in ws ==> r == ws[userId].transactions
  {
    if userId in ws then ws[userId].transactions else []
  }

  // ---------------------------------------------------------------------------
  // Properties of single actions
  // ---------------------------------------------------------------------------

  /** A second `initializeWallet` for the same user changes nothing. */
  lemma InitializeIdempotent(ws: Wallets, userId: string)
    ensures Initialized(Initialized(ws, userId), userId) == Initialized(ws, userId)
  {
  }

  /** Nothing stops `releaseFunds` from releasing more than is locked: the
      locked balance then goes negative. */
  lemma ReleaseMayOverdraw(ws: Wallets, userId: string, amount: int, taskId: string,
                           txnId: string, now: Timestamp)
    requires userId in ws && amount > ws[userId].lockedBalance
    ensures Released(ws, userId, amount, taskId, txnId, now)[userId].lockedBalance < 0
  {
  }

  /** A lock followed by a refund of the same amount restores both balances;
      only the log has grown, by the two entries. */
  lemma LockThenRefundRestores(ws: Wallets, userId: string, amount: int, taskId: string,
                               kind: TransactionType, lockId: string, refundId: string, now: Timestamp)
    requires Locking(ws, userId, amount, taskId, kind, lockId, now).ok
    ensures var after := Refunded(Locking(ws, userId, amount, taskId, kind, lockId, now).wallets,
                                  userId, amount, taskId, refundId, now);
            after[userId] == ws[userId].(transactions := ws[userId].transactions +
              [LockEntry(userId, amount, taskId, kind, lockId, now), RefundEntry(userId, amount, taskId, refundId, now)])
  {
  }

  // ---------------------------------------------------------------------------
  // Runs of actions
  // ---------------------------------------------------------------------------

  /** One call of a ledger action, with its generated id and date. */
  datatype LedgerOp =
    | InitializeOp(userId: string)
    | LockOp(userId: string, amount: int, taskId: string, kind: TransactionType, txnId: string, now: Timestamp)
    | ReleaseOp(userId: string, amount: int, taskId: string, txnId: string, now: Timestamp)
    | RefundOp(userId: string, amount: int, taskId: string, txnId: string, now: Timestamp)
    | EarnOp(userId: string, amount: int, taskId: string, description: string, txnId: string, now: Timestamp)
    | RecordOp(userId: string, draft: TransactionDraft, txnId: string, now: Timestamp)

  function Apply(ws: Wallets, op: LedgerOp): Wallets {
    match op
    case InitializeOp(u) => Initialized(ws, u)
    case LockOp(u, a, t, k, id, n) => Locking(ws, u, a, t, k, id, n).wallets
    case ReleaseOp(u, a, t, id, n) => Released(ws, u, a, t, id, n)
    case RefundOp(u, a, t, id, n) => Refunded(ws, u, a, t, id, n)
    case EarnOp(u, a, t, d, id, n) => Credited(ws, u, a, t, d, id, n)
    case RecordOp(u, d, id, n) => Recorded(ws, u, d, id, n)
  }

  /** The ledger after the actions `ops`, in order. */
  function Run(ws: Wallets, ops: seq<LedgerOp>): Wallets
    decreases |ops|
  {
    if ops == [] then ws else Run(Apply(ws, ops[0]), ops[1..])
  }

  /** How much an action moves into (earnings) or out of (a release) the
      holdings of `userId`'s existing wallet. */
  function Inflow(op: LedgerOp, userId: string): int {
    if op.userId != userId then 0
    else match op
      case EarnOp(_, a, _, _, _, _) => a
      case ReleaseOp(_, a, _, _, _) => -a
      case _ => 0
  }

  function NetInflow(ops: seq<LedgerOp>, userId: string): int
    decreases |ops|
  {
    if ops == [] then 0 else Inflow(ops[0], userId) + NetInflow(ops[1..], userId)
  }

  /** Conservation: over any run, an existing wallet's available-plus-locked
      total changes only by the earnings credited and the funds released;
      locks, refunds, raw appends, re-initialisation and every action on other
      wallets leave it as it was. */
  lemma {:induction false} HoldingsOverRun(ws: Wallets, ops: seq<LedgerOp>, userId: string)
    requires userId in ws
    ensures userId in Run(ws, ops)
    ensures Holdings(Run(ws, ops)[userId]) == Holdings(ws[userId]) + NetInflow(ops, userId)
    decreases |ops|
  {
    if ops != [] {
      var next := Apply(ws, ops[0]);
      assert userId in next && Holdings(next[userId]) == Holdings(ws[userId]) + Inflow(ops[0], userId);
      HoldingsOverRun(next, ops[1..], userId);
    }
  }

  /** The log is append-only: over any run, an existing wallet's earlier
      transactions stay, in order, at the front of its log. */
  lemma {:induction false} LogOnlyGrows(ws: Wallets, ops: seq<LedgerOp>, userId: string)
    requires userId in ws
    ensures userId in Run(ws, ops)
    ensures ws[userId].transactions <= Run(ws, ops)[userId].transactions
    decreases |ops|
  {
    if ops != [] {
      var next := Apply(ws, ops[0]);
      assert userId in next && ws[userId].transactions <= next[userId].transactions;
      LogOnlyGrows(next, ops[1..], userId);
    }
  }

  /** Actions addressed to other users never touch `userId`'s wallet. */
  lemma {:induction false} OthersUntouched(ws: Wallets, ops: seq<LedgerOp>, userId: string)
    requires userId in ws
    requires forall i :: 0 <= i < |ops| ==> ops[i].userId != userId
    ensures userId in Run(ws, ops) && Run(ws, ops)[userId] == ws[userId]
    decreases |ops|
  {
    if ops != [] {
      OthersUntouched(Apply(ws, ops[0]), ops[1..], userId);
    }
  }

  // ---------------------------------------------------------------------------
  // The store
  // ---------------------------------------------------------------------------

  class WalletStore {
    var wallets: Wallets

    constructor ()
      ensures wallets == map[]
    {
      wallets := map[];
    }

    /** `getWallet`. */
    function GetWallet(userId: string): (r: Option<Wallet>)
      reads this
      ensures r.None? <==> userId !in wallets
      ensures r.Some? ==> userId in wallets && r.value == wallets[userId]
    {
      if userId in wallets then Some(wallets[userId]) else None
    }

    method InitializeWallet(userId: string)
      modifies this
      ensures wallets == Initialized(old(wallets), userId)
    {
      if userId !in wallets {
        wallets := wallets[userId := Wallet(userId, StartingBalance, 0, 0, [])];
      }
    }

    method LockFunds(userId: string, amount: int, taskId: string, kind: TransactionType,
                     txnId: string, now: Timestamp) returns (ok: bool)
      modifies this
      ensures ok == Locking(old(wallets), userId, amount, taskId, kind, txnId, now).ok
      ensures wallets == Locking(old(wallets), userId, amount, taskId, kind, txnId, now).wallets
    {
      if userId !in wallets || wallets[userId].availableBalance < amount {
        return false;
      }
      var wallet := wallets[userId];
      wallets := wallets[userId := wallet.(
        availableBalance := wallet.availableBalance - amount,
        lockedBalance := wallet.lockedBalance + amount,
        transactions := wallet.transactions + [LockEntry(userId, amount, taskId, kind, txnId, now)])];
      return true;
    }

    method ReleaseFunds(userId: string, amount: int, taskId: string, txnId: string, now: Timestamp)
      modifies this
      ensures wallets == Released(old(wallets), userId, amount, taskId, txnId, now)
    {
      if userId !in wallets {
        return;
      }
      var wallet := wallets[userId];
      wallets := wallets[userId := wallet.(
        lockedBalance := wallet.lockedBalance - amount,
        transactions := wallet.transactions + [ReleaseEntry(userId, amount, taskId, txnId, now)])];
    }

    method RefundFunds(userId: string, amount: int, taskId: string, txnId: string, now: Timestamp)
      modifies this
      ensures wallets == Refunded(old(wallets), userId, amount, taskId, txnId, now)
    {
      if userId !in wallets {
        return;
      }
      var wallet := wallets[userId];
      wallets := wallets[userId := wallet.(
        availableBalance := wallet.availableBalance + amount,
        lockedBalance := wallet.lockedBalance - amount,
        transactions := wallet.transactions + [RefundEntry(userId, amount, taskId, txnId, now)])];
    }

    method AddEarnings(runnerId: string, amount: int, taskId: string, description: string,
                       txnId: string, now: Timestamp)
      modifies this
      ensures wallets == Credited(old(wallets), runnerId, amount, taskId, description, txnId, now)
    {
      if runnerId !in wallets {
        return;
      }
      var wallet := wallets[runnerId];
      wallets := wallets[runnerId := wallet.(
        availableBalance := wallet.availableBalance + amount,
        totalEarnings := wallet.totalEarnings + amount,
        transactions := wallet.transactions + [EarningsEntry(runnerId, amount, taskId, description, txnId, now)])];
    }

    method AddTransaction(userId: string, transaction: TransactionDraft, txnId: string, now: Timestamp)
      modifies this
      ensures wallets == Recorded(old(wallets), userId, transaction, txnId, now)
    {
      if userId !in wallets {
        return;
      }
      var wallet := wallets[userId];
      wallets := wallets[userId := wallet.(transactions := wallet.transactions + [FromDraft(transaction, txnId, now)])];
    }

    /** `getTransactions`. */
    function GetTransactions(userId: string): (r: seq<Transaction>)
      reads this
      ensures userId !in wallets ==> r == []
      ensures userId in wallets ==> r == wallets[userId].transactions
    {
      TransactionsOf(wallets, userId)
    }
  }
}
