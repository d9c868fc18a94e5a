/** The two tables behind the single connection both DAOs share. */
module Database {
  import opened Wrappers
  import opened Entities

  /** One row of tb_transaction: the counterparties are stored by number and
      the transfer account is NULL (`None`) unless the entry is a transfer.
      The row's id is its position in the table. */
  datatype LedgerRow = LedgerRow(
    kind: TransactionType,
    value: Money,
    date: Date,
    transferAccount: Option<int>,
    originAccount: int)

  /** Every row of tb_account sits under its own number, and the numbers the
      store has handed out are positive and below the next one it will hand out. */
  ghost predicate WellKeyed(accounts: map<int, Account>, nextNumber: int) {
    && 0 < nextNumber
    && forall k :: k in accounts ==> accounts[k].number == k && 0 < k < nextNumber
  }

  class Connection {
    /** tb_account, keyed by account number. */
    var accounts: map<int, Account>
    /** The number the store hands to the next inserted account. */
    var nextNumber: int
    /** tb_transaction, in id order. */
    var transactions: seq<LedgerRow>

    ghost predicate Valid()
      reads this
    {
      WellKeyed(accounts, nextNumber)
    }

    constructor ()
      ensures Valid()
      ensures accounts == map[] && nextNumber == 1 && transactions == []
    {
      accounts := map[];
      nextNumber := 1;
      transactions := [];
    }
  }
}
