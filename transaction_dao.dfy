/** The ledger store (model/dao/TransactionDAO.java): tb_transaction is
    append-only, and the statement query selects an account's entries in id order. */
module TransactionStore {
  import opened Wrappers
  import opened Entities
  import opened Database
  import opened AccountStore

  /** The row `makeTransaction` inserts for `t`: the counterparties are stored
      by number, and an absent transfer account as NULL. The source dereferences
      the origin account unconditionally, so it must be present. */
  function Record(t: Transaction): (row: LedgerRow)
    requires t.originAccount.Some?
    ensures row.kind == t.kind && row.value == t.value && row.date == t.date
    ensures row.originAccount == t.originAccount.value.number
    ensures row.transferAccount.None? <==> t.transferAccount.None?
    ensures t.transferAccount.Some? ==> row.transferAccount == Some(t.transferAccount.value.number)
  {
    LedgerRow(t.kind, t.value, t.date,
      if t.transferAccount.None? then None else Some(t.transferAccount.value.number),
      t.originAccount.value.number)
  }

  /** `SELECT 1 FROM tb_account WHERE number=? AND active=true`. */
  predicate ActiveTarget(table: Table, n: int) {
    n in table && table[n].active
  }

  /** `origin_account=? OR transfer_account=?`; a NULL transfer account equals
      no number. */
  predicate Involves(row: LedgerRow, n: int) {
    row.originAccount == n || row.transferAccount == Some(n)
  }

  /** The ids (positions) the statement query selects, as `ORDER BY id` returns them. */
  function MatchingIds(rows: seq<LedgerRow>, n: int): (ids: seq<nat>)
    ensures forall k :: 0 <= k < |ids| ==> ids[k] < |rows|
    ensures forall j, k :: 0 <= j < k < |ids| ==> ids[j] < ids[k]
    ensures forall i :: 0 <= i < |rows| ==> (i in ids <==> Involves(rows[i], n))
    decreases |rows|
  {
    if rows == [] then []
    else
      var prev := MatchingIds(rows[..|rows| - 1], n);
      if Involves(rows[|rows| - 1], n) then prev + [|rows| - 1] else prev
  }

  /** A selected row rebuilt as an entity: each counterparty is fetched again
      with `getAccount`, and a NULL transfer account is read as number 0
      (what `getLong` returns for NULL) before it is looked up. */
  function Hydrate(table: Table, row: LedgerRow): (t: Transaction)
    ensures t.kind == row.kind && t.value == row.value && t.date == row.date
    ensures t.originAccount == Lookup(table, row.originAccount)
    ensures t.transferAccount == Lookup(table, row.transferAccount.GetOr(0))
  {
    Transaction(row.kind, row.value, row.date,
      Lookup(table, row.transferAccount.GetOr(0)),
      Lookup(table, row.originAccount))
  }

  /** What `bankStatement(n)` returns for the rows `rows`: at most one entry
      per row. StatementIsSelectionInIdOrder says which rows and in what order. */
  function StatementOf(table: Table, rows: seq<LedgerRow>, n: int): (r: seq<Transaction>)
    ensures |r| <= |rows|
    decreases |rows|
  {
    if rows == [] then []
    else
      var prev := StatementOf(table, rows[..|rows| - 1], n);
      if Involves(rows[|rows| - 1], n) then prev + [Hydrate(table, rows[|rows| - 1])] else prev
  }

  /** The statement holds exactly the entries the query selects, nothing more
      and nothing less, each rebuilt from its row, in ascending id order. */
  lemma {:induction false} StatementIsSelectionInIdOrder(table: Table, rows: seq<LedgerRow>, n: int)
    ensures |StatementOf(table, rows, n)| == |MatchingIds(rows, n)|
    ensures forall k :: 0 <= k < |MatchingIds(rows, n)| ==>
      StatementOf(table, rows, n)[k] == Hydrate(table, rows[MatchingIds(rows, n)[k]])
    decreases |rows|
  {
    if rows != [] {
      var init, last := rows[..|rows| - 1], rows[|rows| - 1];
      StatementIsSelectionInIdOrder(table, init, n);
      var ids, prev := MatchingIds(init, n), StatementOf(table, init, n);
      forall k | 0 <= k < |ids| ensures rows[ids[k]] == init[ids[k]] { }
      if Involves(last, n) {
        assert MatchingIds(rows, n) == ids + [|rows| - 1];
        assert StatementOf(table, rows, n) == prev + [Hydrate(table, last)];
      } else {
        assert MatchingIds(rows, n) == ids;
        assert StatementOf(table, rows, n) == prev;
      }
    }
  }

  /** Appending a row extends the statement of every account by at most that row. */
  lemma StatementOfAppend(table: Table, rows: seq<LedgerRow>, row: LedgerRow, n: int)
    ensures StatementOf(table, rows + [row], n) ==
      StatementOf(table, rows, n) + (if Involves(row, n) then [Hydrate(table, row)] else [])
  {
    assert (rows + [row])[..|rows|] == rows;
  }

  /** Reading an entry back returns the entity that was written, as long as the
      accounts it names are the stored rows and no account is numbered 0. */
  lemma HydrateRecord(table: Table, t: Transaction)
    requires t.originAccount.Some? && Lookup(table, t.originAccount.value.number) == t.originAccount
    requires t.transferAccount.Some? ==> Lookup(table, t.transferAccount.value.number) == t.transferAccount
    requires 0 !in table
    ensures Hydrate(table, Record(t)) == t
  {
  }

  class TransactionDAO {
    const conn: Connection

    constructor (conn: Connection)
      ensures this.conn == conn
    {
      this.conn := conn;
    }

    /** The ledger's only write: one row at the end, every earlier row kept. */
    method MakeTransaction(transaction: Transaction)
      requires transaction.originAccount.Some?
      modifies conn
      ensures conn.transactions == old(conn.transactions) + [Record(transaction)]
      ensures conn.accounts == old(conn.accounts) && conn.nextNumber == old(conn.nextNumber)
    {
      var transfer := if transaction.transferAccount.None? then None
                      else Some(transaction.transferAccount.value.number);
      conn.transactions := conn.transactions + [LedgerRow(transaction.kind, transaction.value,
        transaction.date, transfer, transaction.originAccount.value.number)];
    }

    method TargetAccountExistsAndActive(accountNumber: int) returns (b: bool)
      ensures b == ActiveTarget(conn.accounts, accountNumber)
    {
      b := accountNumber in conn.accounts && conn.accounts[accountNumber].active;
    }

    /** Walks the table in id order and collects, rebuilt, every row that names
      the account as origin or transfer account. Reads only. */
    method BankStatement(accountNumber: int) returns (transactions: seq<Transaction>)
      ensures transactions == StatementOf(conn.accounts, conn.transactions, accountNumber)
      ensures |transactions| == |MatchingIds(conn.transactions, accountNumber)|
    {
      var rows := conn.transactions;
      transactions := [];
      var i := 0;
      while i < |rows|
        invariant 0 <= i <= |rows|
        invariant transactions == StatementOf(conn.accounts, rows[..i], accountNumber)
      {
        var row := rows[i];
        assert rows[..i + 1] == rows[..i] + [row];
        StatementOfAppend(conn.accounts, rows[..i], row, accountNumber);
        if row.originAccount == accountNumber || row.transferAccount == Some(accountNumber) {
          var transferAccount: Option<Account> := None;
          if row.transferAccount.GetOr(0) in conn.accounts {
            transferAccount := Some(conn.accounts[row.transferAccount.GetOr(0)]);
          }
          var originAccount: Option<Account> := None;
          if row.originAccount in conn.accounts {
            originAccount := Some(conn.accounts[row.originAccount]);
          }
          transactions := transactions + [Transaction(row.kind, row.value, row.date, transferAccount, originAccount)];
        }
        i := i + 1;
      }
      assert rows[..|rows|] == rows;
      StatementIsSelectionInIdOrder(conn.accounts, rows, accountNumber);
    }
  }
}
