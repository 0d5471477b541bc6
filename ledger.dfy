/**
 * Wallet ledger: the balance of a foreman's wallet (refills minus expenses
 * minus advances), the current month's expenses, a worker's advances, who
 * may view a receipt or change a transaction, and the views that record,
 * delete and list transactions.
 */
module Ledger {
  import opened Calendar
  import opened Records

  /** A wallet belongs to one user account of one organization. */
  datatype Wallet = Wallet(user: UserId, org: OrgId)

  /** Sum of the amounts of one kind in one wallet; an empty sum is 0 (`Coalesce(Sum(...), 0)`). */
  function KindTotal(ts: seq<Txn>, wallet: WalletId, kind: TxnType): Grosze {
    if |ts| == 0 then 0
    else
      var t := ts[|ts|-1];
      KindTotal(ts[..|ts|-1], wallet, kind) + (if t.wallet == Some(wallet) && t.kind == kind then t.amount else 0)
  }

  /** What a transaction does to its wallet: refills add, expenses and advances take away. */
  function SignedAmount(t: Txn): Grosze {
    if t.kind == Refill then t.amount else -t.amount
  }

  /** The reference balance: the signed amounts of the wallet's transactions, summed in one pass. */
  function SignedSum(ts: seq<Txn>, wallet: WalletId): Grosze {
    if |ts| == 0 then 0
    else
      var t := ts[|ts|-1];
      SignedSum(ts[..|ts|-1], wallet) + (if t.wallet == Some(wallet) then SignedAmount(t) else 0)
  }

  lemma {:induction false} BalanceIsSignedSum(ts: seq<Txn>, wallet: WalletId)
    ensures KindTotal(ts, wallet, Refill) - KindTotal(ts, wallet, Expense) - KindTotal(ts, wallet, Advance)
            == SignedSum(ts, wallet)
  {
    if |ts| > 0 {
      BalanceIsSignedSum(ts[..|ts|-1], wallet);
    }
  }

  /** `Wallet.get_current_balance`. */
  function CurrentBalance(ts: seq<Txn>, wallet: WalletId): (b: Grosze)
    ensures b == SignedSum(ts, wallet)
  {
    BalanceIsSignedSum(ts, wallet);
    KindTotal(ts, wallet, Refill) - KindTotal(ts, wallet, Expense) - KindTotal(ts, wallet, Advance)
  }

  /** Expenses of the wallet dated in today's year and month. */
  function MonthExpenses(ts: seq<Txn>, wallet: WalletId, today: Date): Grosze {
    if |ts| == 0 then 0
    else
      var t := ts[|ts|-1];
      MonthExpenses(ts[..|ts|-1], wallet, today) +
        (if t.wallet == Some(wallet) && t.kind == Expense && InMonth(t.date, today.year, today.month)
         then t.amount else 0)
  }

  /** The figures `get_annotated_finances` attaches to a wallet. */
  datatype Finances = Finances(
    totalRefills: Grosze, totalExpenses: Grosze, totalAdvances: Grosze,
    monthlyExpenses: Grosze, currentBalance: Grosze)

  function Annotated(ts: seq<Txn>, wallet: WalletId, today: Date): (f: Finances)
    ensures f.currentBalance == CurrentBalance(ts, wallet)
    ensures f.currentBalance == f.totalRefills - f.totalExpenses - f.totalAdvances
  {
    var refills := KindTotal(ts, wallet, Refill);
    var expenses := KindTotal(ts, wallet, Expense);
    var advances := KindTotal(ts, wallet, Advance);
    Finances(refills, expenses, advances, MonthExpenses(ts, wallet, today), refills - expenses - advances)
  }

  /** With non-negative amounts, the month's expenses are part of all the wallet's expenses. */
  lemma {:induction false} MonthlyWithinTotal(ts: seq<Txn>, wallet: WalletId, today: Date)
    requires forall i :: 0 <= i < |ts| ==> ts[i].amount >= 0
    ensures 0 <= MonthExpenses(ts, wallet, today) <= KindTotal(ts, wallet, Expense)
  {
    if |ts| > 0 {
      MonthlyWithinTotal(ts[..|ts|-1], wallet, today);
    }
  }

  /** `Worker.get_total_advances`: every ADVANCE paid to the worker, from any wallet or none. */
  function WorkerAdvances(ts: seq<Txn>, worker: WorkerId): Grosze {
    if |ts| == 0 then 0
    else
      var t := ts[|ts|-1];
      WorkerAdvances(ts[..|ts|-1], worker) + (if t.worker == Some(worker) && t.kind == Advance then t.amount else 0)
  }

  lemma {:induction false} SignedSumConcat(a: seq<Txn>, b: seq<Txn>, wallet: WalletId)
    ensures SignedSum(a + b, wallet) == SignedSum(a, wallet) + SignedSum(b, wallet)
  {
    if |b| > 0 {
      assert (a + b)[..|a + b| - 1] == a + b[..|b|-1];
      SignedSumConcat(a, b[..|b|-1], wallet);
    } else {
      assert a + b == a;
    }
  }

  lemma {:induction false} WorkerAdvancesConcat(a: seq<Txn>, b: seq<Txn>, worker: WorkerId)
    ensures WorkerAdvances(a + b, worker) == WorkerAdvances(a, worker) + WorkerAdvances(b, worker)
  {
    if |b| > 0 {
      assert (a + b)[..|a + b| - 1] == a + b[..|b|-1];
      WorkerAdvancesConcat(a, b[..|b|-1], worker);
    } else {
      assert a + b == a;
    }
  }

  /** Recording a transaction moves its own wallet's balance by its signed amount and no other wallet's. */
  lemma BalanceAfterAppend(ts: seq<Txn>, t: Txn, wallet: WalletId)
    ensures CurrentBalance(ts + [t], wallet) ==
      CurrentBalance(ts, wallet) + (if t.wallet == Some(wallet) then SignedAmount(t) else 0)
  {
    assert (ts + [t])[..|ts|] == ts;
  }

  /** Deleting a transaction undoes its effect on its own wallet's balance and touches no other wallet's. */
  lemma BalanceAfterRemove(ts: seq<Txn>, i: int, wallet: WalletId)
    requires 0 <= i < |ts|
    ensures CurrentBalance(ts[..i] + ts[i+1..], wallet) ==
      CurrentBalance(ts, wallet) - (if ts[i].wallet == Some(wallet) then SignedAmount(ts[i]) else 0)
  {
    assert ts == ts[..i] + [ts[i]] + ts[i+1..];
    SignedSumConcat(ts[..i] + [ts[i]], ts[i+1..], wallet);
    SignedSumConcat(ts[..i], ts[i+1..], wallet);
    assert (ts[..i] + [ts[i]])[..i] == ts[..i];
  }

  /** Recording an advance for a worker raises that worker's advances by its amount; nothing else does. */
  lemma AdvancesAfterAppend(ts: seq<Txn>, t: Txn, worker: WorkerId)
    ensures WorkerAdvances(ts + [t], worker) ==
      WorkerAdvances(ts, worker) + (if t.worker == Some(worker) && t.kind == Advance then t.amount else 0)
  {
    assert (ts + [t])[..|ts|] == ts;
  }

  /** Owners may change any transaction; anybody else only one in a wallet of their own. */
  predicate CanModify(actor: Actor, t: Txn, wallets: map<WalletId, Wallet>) {
    actor.isOwner || (t.wallet.Some? && t.wallet.value in wallets && wallets[t.wallet.value].user == actor.id)
  }

  /** A receipt is shown to the owner or the wallet's user, and only when an image was attached. */
  predicate CanViewReceipt(actor: Actor, t: Txn, wallets: map<WalletId, Wallet>) {
    (actor.isOwner || (t.wallet.Some? && t.wallet.value in wallets && wallets[t.wallet.value].user == actor.id))
    && t.hasReceipt
  }

  /** Company transactions (no wallet) are the owner's alone, for changes and for receipts. */
  lemma CompanyTransactionsOwnerOnly(actor: Actor, t: Txn, wallets: map<WalletId, Wallet>)
    requires t.wallet.None?
    ensures CanModify(actor, t, wallets) <==> actor.isOwner
    ensures CanViewReceipt(actor, t, wallets) <==> actor.isOwner && t.hasReceipt
  {
  }

  /** A non-owner may change or see the receipt of a transaction exactly when it is in their own wallet. */
  lemma ForemanOwnWalletOnly(actor: Actor, t: Txn, wallets: map<WalletId, Wallet>)
    requires !actor.isOwner
    ensures CanModify(actor, t, wallets) <==>
      t.wallet.Some? && t.wallet.value in wallets && wallets[t.wallet.value].user == actor.id
    ensures CanViewReceipt(actor, t, wallets) <==> CanModify(actor, t, wallets) && t.hasReceipt
  {
  }

  /** `get_object_or_404(WalletTransaction, pk=id, organization=org)`: the position of that row. */
  function FindTxn(ts: seq<Txn>, id: nat, org: OrgId): (r: Option<nat>)
    ensures r.Some? ==> r.value < |ts| && ts[r.value].id == id && ts[r.value].org == org
    ensures r.None? <==> forall i :: 0 <= i < |ts| ==> !(ts[i].id == id && ts[i].org == org)
  {
    if |ts| == 0 then None
    else if ts[0].id == id && ts[0].org == org then Some(0)
    else match FindTxn(ts[1..], id, org)
      case None => None
      case Some(i) => Some(i + 1)
  }

  datatype ReceiptOutcome = ReceiptNotFound | ReceiptForbidden | ReceiptShown(t: Txn)

  /** `transaction_receipt_view`: 404 outside the organization, 403 without the right or without an image. */
  function ReceiptAccess(actor: Actor, ts: seq<Txn>, wallets: map<WalletId, Wallet>, id: nat): (r: ReceiptOutcome)
    ensures r.ReceiptNotFound? <==> forall i :: 0 <= i < |ts| ==> !(ts[i].id == id && ts[i].org == actor.org)
    ensures r.ReceiptShown? ==> r.t in ts && r.t.id == id && r.t.org == actor.org && CanViewReceipt(actor, r.t, wallets)
    ensures r.ReceiptForbidden? ==>
      exists i :: 0 <= i < |ts| && ts[i].id == id && ts[i].org == actor.org && !CanViewReceipt(actor, ts[i], wallets)
  {
    match FindTxn(ts, id, actor.org)
    case None => ReceiptNotFound
    case Some(i) =>
      if CanViewReceipt(actor, ts[i], wallets) then ReceiptShown(ts[i]) else ReceiptForbidden
  }

  /** The user has a wallet (`wallet__isnull=False`). */
  predicate HasWallet(wallets: map<WalletId, Wallet>, user: UserId) {
    exists id :: id in wallets && wallets[id].user == user
  }

  /** `Wallet.user` is one-to-one: no user holds two wallets. */
  predicate OneWalletPerUser(wallets: map<WalletId, Wallet>) {
    forall a, b :: a in wallets && b in wallets && wallets[a].user == wallets[b].user ==> a == b
  }

  /**
   * Every wallet of `user` lies in `org`: a user belongs to one organization,
   * and wallets are only ever created in their user's organization.
   */
  predicate WalletsIn(wallets: map<WalletId, Wallet>, user: UserId, org: OrgId) {
    forall k :: k in wallets && wallets[k].user == user ==> wallets[k].org == org
  }

  /** Sum of the balances of the listed wallets (`aggregate(Sum("current_balance")) or 0`). */
  function TotalBalance(ids: seq<WalletId>, ts: seq<Txn>): Grosze {
    if |ids| == 0 then 0
    else TotalBalance(ids[..|ids|-1], ts) + CurrentBalance(ts, ids[|ids|-1])
  }

  /** Signed amounts of the transactions booked in any of the wallets `ids`. */
  function SignedSumIn(ts: seq<Txn>, ids: set<WalletId>): Grosze {
    if |ts| == 0 then 0
    else
      var t := ts[|ts|-1];
      SignedSumIn(ts[..|ts|-1], ids) + (if t.wallet.Some? && t.wallet.value in ids then SignedAmount(t) else 0)
  }

  lemma {:induction false} SignedSumInAdd(ts: seq<Txn>, ids: set<WalletId>, w: WalletId)
    requires w !in ids
    ensures SignedSumIn(ts, ids + {w}) == SignedSumIn(ts, ids) + SignedSum(ts, w)
  {
    if |ts| > 0 {
      SignedSumInAdd(ts[..|ts|-1], ids, w);
    }
  }

  /** The wallets of a listing, as a set. */
  function WalletSet(ids: seq<WalletId>): (r: set<WalletId>)
    ensures forall x :: x in r <==> x in ids
  {
    if |ids| == 0 then {}
    else
      assert forall x :: x in ids <==> x in ids[..|ids|-1] || x == ids[|ids|-1] by {
        assert ids == ids[..|ids|-1] + [ids[|ids|-1]];
      }
      WalletSet(ids[..|ids|-1]) + {ids[|ids|-1]}
  }

  /**
   * The total over the foremen's wallets is the signed sum of every
   * transaction booked in one of them: no transaction is counted twice.
   */
  lemma {:induction false} TotalBalanceCountsEachOnce(ids: seq<WalletId>, ts: seq<Txn>)
    requires forall i, j :: 0 <= i < j < |ids| ==> ids[i] != ids[j]
    ensures TotalBalance(ids, ts) == SignedSumIn(ts, WalletSet(ids))
  {
    if |ids| == 0 {
      EmptySignedSumIn(ts);
    } else {
      var init := ids[..|ids|-1];
      var w := ids[|ids|-1];
      TotalBalanceCountsEachOnce(init, ts);
      assert w !in WalletSet(init) by {
        forall x | x in init ensures x != w {
          var j :| 0 <= j < |init| && init[j] == x;
        }
      }
      SignedSumInAdd(ts, WalletSet(init), w);
    }
  }

  lemma {:induction false} EmptySignedSumIn(ts: seq<Txn>)
    ensures SignedSumIn(ts, {}) == 0
  {
    if |ts| > 0 {
      EmptySignedSumIn(ts[..|ts|-1]);
    }
  }

  datatype RefillOutcome = RefillForbidden | InvalidWallet | Refilled(t: Txn)
  datatype DeleteOutcome = DeleteNotFound | DeleteForbidden | Deleted(t: Txn)

  /** The Wallet and WalletTransaction tables, changed in place by the finance views. */
  class FinanceBook {
    var wallets: map<WalletId, Wallet>
    var txns: seq<Txn>
    var nextWallet: nat
    var nextTxn: nat

    /** Fresh primary keys stay above every key in use, and each user has at most one wallet. */
    predicate Valid()
      reads this
    {
      && (forall id :: id in wallets ==> id < nextWallet)
      && (forall i :: 0 <= i < |txns| ==> txns[i].id < nextTxn)
      && OneWalletPerUser(wallets)
    }

    constructor ()
      ensures Valid() && wallets == map[] && txns == []
    {
      wallets := map[];
      txns := [];
      nextWallet := 1;
      nextTxn := 1;
    }

    /** `get_or_create(user=..., organization=...)` on the Wallet table. */
    method WalletOf(user: UserId, org: OrgId) returns (id: WalletId)
      requires Valid() && WalletsIn(wallets, user, org)
      modifies this
      ensures Valid() && txns == old(txns)
      ensures id in wallets && wallets[id] == Wallet(user, org)
      ensures (exists k :: k in old(wallets) && old(wallets)[k] == Wallet(user, org)) ==> wallets == old(wallets)
      ensures (forall k :: k in old(wallets) ==> old(wallets)[k] != Wallet(user, org)) ==>
        id !in old(wallets) && wallets == old(wallets)[id := Wallet(user, org)]
    {
      if k :| k in wallets && wallets[k] == Wallet(user, org) {
        id := k;
      } else {
        id := nextWallet;
        wallets := wallets[id := Wallet(user, org)];
        nextWallet := nextWallet + 1;
      }
    }

    /**
     * `expense_create_view` and `advance_create_view` after a valid form: an
     * owner's transaction is a company one, anybody else's goes to their own wallet.
     */
    method Record(actor: Actor, kind: TxnType, amount: Grosze, date: Date, project: Option<ProjectId>,
                  worker: Option<WorkerId>, hasReceipt: bool) returns (t: Txn)
      requires Valid() && kind != Refill && WalletsIn(wallets, actor.id, actor.org)
      modifies this
      ensures Valid()
      ensures txns == old(txns) + [t]
      ensures t.org == actor.org && t.kind == kind && t.amount == amount && t.date == date
      ensures t.project == project && t.worker == worker && t.hasReceipt == hasReceipt
      ensures forall i :: 0 <= i < |old(txns)| ==> old(txns)[i].id != t.id
      ensures t.wallet.None? <==> actor.isOwner
      ensures t.wallet.Some? ==> t.wallet.value in wallets && wallets[t.wallet.value] == Wallet(actor.id, actor.org)
      ensures actor.isOwner ==> wallets == old(wallets)
      ensures forall k :: k in old(wallets) ==> k in wallets && wallets[k] == old(wallets)[k]
    {
      var wallet: Option<WalletId> := None;
      if !actor.isOwner {
        var id := WalletOf(actor.id, actor.org);
        wallet := Some(id);
      }
      t := Txn(nextTxn, actor.org, wallet, kind, amount, date, project, worker, hasReceipt);
      txns := txns + [t];
      nextTxn := nextTxn + 1;
    }

    /** `refill_create_view` after a valid form: owners only, into a wallet of their organization. */
    method AddRefill(actor: Actor, wallet: WalletId, amount: Grosze, date: Date, hasReceipt: bool)
      returns (outcome: RefillOutcome)
      requires Valid()
      modifies this
      ensures Valid() && wallets == old(wallets)
      ensures outcome == RefillForbidden <==> !actor.isOwner
      ensures outcome.InvalidWallet? <==>
        actor.isOwner && !(wallet in wallets && wallets[wallet].org == actor.org)
      ensures outcome.Refilled? ==>
        && txns == old(txns) + [outcome.t]
        && outcome.t.wallet == Some(wallet) && outcome.t.kind == Refill
        && outcome.t.amount == amount && outcome.t.org == actor.org
      ensures !outcome.Refilled? ==> txns == old(txns)
    {
      if !actor.isOwner {
        return RefillForbidden;
      }
      if !(wallet in wallets && wallets[wallet].org == actor.org) {
        return InvalidWallet;
      }
      var t := Txn(nextTxn, actor.org, Some(wallet), Refill, amount, date, None, None, hasReceipt);
      txns := txns + [t];
      nextTxn := nextTxn + 1;
      outcome := Refilled(t);
    }

    /** `transaction_delete_view`. */
    method Delete(actor: Actor, id: nat) returns (outcome: DeleteOutcome)
      requires Valid()
      modifies this
      ensures Valid() && wallets == old(wallets)
      ensures outcome.DeleteNotFound? <==>
        forall i :: 0 <= i < |old(txns)| ==> !(old(txns)[i].id == id && old(txns)[i].org == actor.org)
      ensures !outcome.Deleted? ==> txns == old(txns)
      ensures outcome.DeleteForbidden? <==>
        && FindTxn(old(txns), id, actor.org).Some?
        && !CanModify(actor, old(txns)[FindTxn(old(txns), id, actor.org).value], wallets)
      ensures outcome.DeleteForbidden? ==> !actor.isOwner
      ensures outcome.Deleted? ==>
        var i := FindTxn(old(txns), id, actor.org).value;
        && outcome.t == old(txns)[i]
        && CanModify(actor, outcome.t, wallets)
        && txns == old(txns)[..i] + old(txns)[i+1..]
    {
      var found := FindTxn(txns, id, actor.org);
      if found.None? {
        return DeleteNotFound;
      }
      var i := found.value;
      if !CanModify(actor, txns[i], wallets) {
        return DeleteForbidden;
      }
      outcome := Deleted(txns[i]);
      txns := txns[..i] + txns[i+1..];
    }

    /** The owner's list view: every foreman without a wallet gets one in the organization. */
    method EnsureForemanWallets(org: OrgId, foremen: seq<UserId>)
      requires Valid()
      modifies this
      ensures Valid() && txns == old(txns)
      ensures forall f :: f in foremen ==> HasWallet(wallets, f)
      ensures forall k :: k in old(wallets) ==> k in wallets && wallets[k] == old(wallets)[k]
      ensures forall k :: k in wallets && k !in old(wallets) ==>
        wallets[k].org == org && wallets[k].user in foremen && !HasWallet(old(wallets), wallets[k].user)
    {
      var before := wallets;
      for i := 0 to |foremen|
        invariant Valid() && txns == old(txns)
        invariant forall f :: f in foremen[..i] ==> HasWallet(wallets, f)
        invariant forall k :: k in before ==> k in wallets && wallets[k] == before[k]
        invariant forall k :: k in wallets && k !in before ==>
          wallets[k].org == org && wallets[k].user in foremen[..i] && !HasWallet(before, wallets[k].user)
      {
        var f := foremen[i];
        if !HasWallet(wallets, f) {
          var prev := wallets;
          var id := nextWallet;
          wallets := wallets[id := Wallet(f, org)];
          nextWallet := nextWallet + 1;
          assert wallets[id].user == f;
          forall g | HasWallet(prev, g) ensures HasWallet(wallets, g) {
            var k :| k in prev && prev[k].user == g;
            assert k in wallets && wallets[k].user == g;
          }
        }
        assert foremen[..i+1] == foremen[..i] + [f];
      }
      assert foremen[..|foremen|] == foremen;
    }
  }
}
