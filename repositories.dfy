/**
 * The payment, attempt and transaction stores and their per-payment queries.
 * A row's id is its position in its store, so a new row's id is fresh.
 */
module Repositories {
  import opened Common
  import opened Domain
  import opened Sorting

  function AttemptNewestKey(a: Attempt): int {
    -a.createdAt
  }

  function TransactionNewestKey(tx: Transaction): int {
    -tx.createdAt
  }

  /** `findByPaymentIdOrderByCreatedAtDesc(paymentId)` on attempts: one payment's attempts, newest first. */
  function FindAttemptsNewestFirst(attempts: seq<Attempt>, paymentId: Uuid): (r: seq<Attempt>)
    ensures forall a :: a in r <==> a in attempts && a.paymentId == paymentId
    ensures forall i, j | 0 <= i < j < |r| :: r[i].createdAt >= r[j].createdAt
  {
    var own := Filter(attempts, (a: Attempt) => a.paymentId == paymentId);
    SortByMembers(own, AttemptNewestKey);
    SortBy(own, AttemptNewestKey)
  }

  /** `findByPaymentIdOrderByCreatedAtDesc(paymentId)` on transactions. */
  function FindTransactionsNewestFirst(transactions: seq<Transaction>, paymentId: Uuid): (r: seq<Transaction>)
    ensures forall tx :: tx in r <==> tx in transactions && tx.paymentId == paymentId
    ensures forall i, j | 0 <= i < j < |r| :: r[i].createdAt >= r[j].createdAt
    ensures multiset(r) == multiset(Filter(transactions, (tx: Transaction) => tx.paymentId == paymentId))
  {
    var own := Filter(transactions, (tx: Transaction) => tx.paymentId == paymentId);
    SortByMembers(own, TransactionNewestKey);
    SortBy(own, TransactionNewestKey)
  }

  class PaymentRepository {
    var rows: seq<Payment>

    constructor()
      ensures rows == []
    {
      rows := [];
    }

    predicate Valid()
      reads this
    {
      forall i | 0 <= i < |rows| :: rows[i].id == i
    }

    method Add(p: Payment)
      requires Valid() && p.id == |rows|
      modifies this
      ensures Valid()
      ensures rows == old(rows) + [p]
    {
      rows := rows + [p];
    }

    method Update(p: Payment)
      requires Valid() && p.id < |rows|
      modifies this
      ensures Valid()
      ensures rows == old(rows)[p.id := p]
    {
      rows := rows[p.id := p];
    }
  }

  class PaymentAttemptRepository {
    var rows: seq<Attempt>

    constructor()
      ensures rows == []
    {
      rows := [];
    }

    predicate Valid()
      reads this
    {
      forall i | 0 <= i < |rows| :: rows[i].id == i
    }

    method Add(a: Attempt)
      requires Valid() && a.id == |rows|
      modifies this
      ensures Valid()
      ensures rows == old(rows) + [a]
    {
      rows := rows + [a];
    }
  }

  class TransactionRepository {
    var rows: seq<Transaction>

    constructor()
      ensures rows == []
    {
      rows := [];
    }

    predicate Valid()
      reads this
    {
      forall i | 0 <= i < |rows| :: rows[i].id == i
    }

    method Add(tx: Transaction)
      requires Valid() && tx.id == |rows|
      modifies this
      ensures Valid()
      ensures rows == old(rows) + [tx]
    {
      rows := rows + [tx];
    }
  }
}
