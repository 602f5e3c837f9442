/** backend/src/services/transactionService.js: the append-only record of on-chain transactions. */
module Transactions {
  import opened Wrappers
  import opened Strings
  import Seqs

  const DefaultListLimit: int := 25

  /** A row of the `transactions` collection; `id` is its position in the table. */
  datatype Transaction = Transaction(
    id: nat,
    sellerId: nat,
    paymentId: nat,
    txId: string,
    kind: string,
    payerAddress: Option<string>,
    paymentName: Option<string>,
    paymentSlug: Option<string>,
    createdAt: int,
    deletedAt: Option<int>)

  /** The `createdAt` the listings sort on. */
  function CreatedAt(t: Transaction): int {
    t.createdAt
  }

  /**
   * `listTransactionsForSeller(sellerId, { limit, offset })`: the seller's
   * rows, deleted ones included, newest first, from `offset`, at most |limit|
   * of them. A negative offset makes the query fail.
   */
  function ListTransactionsForSeller(transactions: seq<Transaction>, sellerId: nat, limit: int, offset: int)
    : (r: Result<seq<Transaction>>)
    ensures offset < 0 <==> r.Failure?
    ensures r.Ok? ==> forall i :: 0 <= i < |r.value| ==> r.value[i] in transactions && r.value[i].sellerId == sellerId
    ensures r.Ok? ==> forall i, j :: 0 <= i < j < |r.value| ==> r.value[i].createdAt >= r.value[j].createdAt
    ensures r.Ok? && limit != 0 ==> |r.value| <= if limit < 0 then -limit else limit
    ensures offset == 0 && limit == 0 ==>
      r.Ok? && multiset(r.value) == multiset(Seqs.Filter(transactions, (t: Transaction) => t.sellerId == sellerId))
    ensures r.Ok? ==> exists ordered ::
      && Seqs.SortedDesc(ordered, CreatedAt)
      && multiset(ordered) == multiset(Seqs.Filter(transactions, (t: Transaction) => t.sellerId == sellerId))
      && r.value == Seqs.Page(ordered, offset as nat, limit)
  {
    if offset < 0 then Failure("skip requires a non-negative number")
    else
      var key := CreatedAt;
      var rows := Seqs.Query(transactions, (t: Transaction) => t.sellerId == sellerId, key, offset, limit);
      assert Seqs.SortedDesc(rows, key);
      Ok(rows)
  }

  /** The listing with the service's defaults, limit 25 and offset 0. */
  function ListTransactionsForSellerDefault(transactions: seq<Transaction>, sellerId: nat): (r: seq<Transaction>)
    ensures |r| <= DefaultListLimit
    ensures ListTransactionsForSeller(transactions, sellerId, DefaultListLimit, 0) == Ok(r)
  {
    ListTransactionsForSeller(transactions, sellerId, DefaultListLimit, 0).value
  }

  /** Soft deletion does not hide a row from the seller listing. */
  lemma DeletedStillListed(transactions: seq<Transaction>, i: nat, now: int)
    requires i < |transactions|
    ensures var marked := transactions[i := transactions[i].(deletedAt := Some(now))];
      marked[i] in Seqs.Filter(marked, (t: Transaction) => t.sellerId == transactions[i].sellerId)
  {
  }

  /** `listTransactionsForPayment(paymentId)`: all of the payment's rows, newest first, unpaginated. */
  function ListTransactionsForPayment(transactions: seq<Transaction>, paymentId: nat): (r: seq<Transaction>)
    ensures forall i :: 0 <= i < |r| ==> r[i] in transactions && r[i].paymentId == paymentId
    ensures forall i, j :: 0 <= i < j < |r| ==> r[i].createdAt >= r[j].createdAt
    ensures multiset(r) == multiset(Seqs.Filter(transactions, (t: Transaction) => t.paymentId == paymentId))
  {
    var key := CreatedAt;
    var rows := Seqs.Query(transactions, (t: Transaction) => t.paymentId == paymentId, key, 0, 0);
    assert Seqs.SortedDesc(rows, key);
    rows
  }

  /** The `transactions` collection. */
  class TransactionStore {
    var transactions: seq<Transaction>

    ghost predicate Valid()
      reads this
    {
      forall i :: 0 <= i < |transactions| ==> transactions[i].id == i
    }

    constructor ()
      ensures Valid() && transactions == []
    {
      transactions := [];
    }

    /** `recordTransaction(…)` at `now`: appends one row, with missing optional text as null. */
    method RecordTransaction(sellerId: nat, paymentId: nat, txId: string, kind: string, payerAddress: Option<string>,
      paymentName: Option<string>, paymentSlug: Option<string>, now: int)
      returns (record: Transaction)
      requires Valid()
      modifies this
      ensures Valid()
      ensures transactions == old(transactions) + [record]
      ensures record == Transaction(|old(transactions)|, sellerId, paymentId, txId, kind,
        OrNull(payerAddress), OrNull(paymentName), OrNull(paymentSlug), now, None)
    {
      record := Transaction(|transactions|, sellerId, paymentId, txId, kind,
        OrNull(payerAddress), OrNull(paymentName), OrNull(paymentSlug), now, None);
      transactions := transactions + [record];
    }
  }
}
