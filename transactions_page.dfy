/**
 * The client part of the transactions page: the local list of
 * transactions, reset from the page's props and extended at the front when
 * a transaction is created, and the role checks that decide which links
 * and forms appear.
 */
module TransactionsPage {

  /** What `createTransaction(data)` produced. */
  datatype CreateOutcome<T> = Created(transaction: T) | CreateThrew

  /** The reference-amounts link. */
  predicate ShowsReferenceAmounts(role: string)
  {
    role == "admin" || role == "manager"
  }

  /** The add-transaction link. */
  predicate ShowsAddTransaction(role: string)
  {
    role == "admin"
  }

  /** The inline create form. */
  predicate ShowsCreateForm(role: string)
  {
    role == "admin"
  }

  /** The `isAdmin` flag handed to the list. */
  function ListIsAdmin(role: string): bool
  {
    role == "admin"
  }

  /**
   * The role checks nest: whoever may create may also see the reference
   * amounts, and a manager sees the reference amounts but cannot create.
   */
  lemma RoleVisibility(role: string)
    ensures ShowsAddTransaction(role) <==> ShowsCreateForm(role)
    ensures ShowsCreateForm(role) <==> ListIsAdmin(role)
    ensures ListIsAdmin(role) ==> ShowsReferenceAmounts(role)
    ensures role == "manager" ==> ShowsReferenceAmounts(role) && !ShowsCreateForm(role)
    ensures role !in {"admin", "manager"} ==> !ShowsReferenceAmounts(role) && !ShowsCreateForm(role)
  {
  }

  class TransactionsState<T> {
    var transactions: seq<T>

    /** The state before the effect has run: an empty list. */
    constructor ()
      ensures transactions == []
    {
      transactions := [];
    }

    /** The effect on `initialTransactions`: the list becomes the props, dropping local additions. */
    method SyncWithProps(initialTransactions: seq<T>)
      modifies this
      ensures transactions == initialTransactions
    {
      transactions := initialTransactions;
    }

    /** `handleCreateTransaction`: prepend on success; a failure is only logged. */
    method HandleCreateTransaction(outcome: CreateOutcome<T>)
      modifies this
      ensures outcome.Created? ==> transactions == [outcome.transaction] + old(transactions)
      ensures outcome.CreateThrew? ==> transactions == old(transactions)
      ensures outcome.Created? ==> |transactions| == |old(transactions)| + 1
      ensures outcome.Created? ==> transactions[1..] == old(transactions)
    {
      if outcome.Created? {
        transactions := [outcome.transaction] + transactions;
      }
    }
  }
}
