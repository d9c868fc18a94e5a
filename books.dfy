/** The books the engine keeps: no balance is negative, every ledger row is a
    well-formed posting between stored accounts, and every stored balance is
    what the ledger says it is (replaying its entries for that account). */
module Books {
  import opened Wrappers
  import opened Entities
  import opened Database
  import opened AccountStore
  import opened TransactionStore
  import opened StatementLines

  /** What one entry does to account `n`: a deposit credits its origin, a
      withdrawal debits it, a transfer debits its origin and credits its
      transfer account. */
  function Delta(row: LedgerRow, n: int): Money {
    match row.kind
    case DEPOSIT => if row.originAccount == n then row.value else 0.0
    case WITHDRAWAL => if row.originAccount == n then -row.value else 0.0
    case TRANSFER =>
      (if row.transferAccount == Some(n) then row.value else 0.0)
      - (if row.originAccount == n then row.value else 0.0)
  }

  /** Account `n`'s balance replayed from the ledger. */
  function LedgerBalance(rows: seq<LedgerRow>, n: int): Money
    decreases |rows|
  {
    if rows == [] then 0.0 else LedgerBalance(rows[..|rows| - 1], n) + Delta(rows[|rows| - 1], n)
  }

  /** A row the engine can have written: a positive amount from a stored
      account, with a transfer account exactly when it is a transfer, and
      that one stored and different from the origin. */
  ghost predicate RowValid(table: Table, row: LedgerRow) {
    && row.value > 0.0
    && row.originAccount in table
    && (row.kind == TRANSFER <==> row.transferAccount.Some?)
    && (row.transferAccount.Some? ==>
          row.transferAccount.value in table && row.transferAccount.value != row.originAccount)
  }

  ghost predicate RowsValid(table: Table, rows: seq<LedgerRow>) {
    forall i :: 0 <= i < |rows| ==> RowValid(table, rows[i])
  }

  ghost predicate Reconciled(table: Table, rows: seq<LedgerRow>) {
    forall k :: k in table ==> table[k].balance == LedgerBalance(rows, k)
  }

  ghost predicate Consistent(table: Table, rows: seq<LedgerRow>) {
    && (forall k :: k in table ==> table[k].balance >= 0.0)
    && RowsValid(table, rows)
    && Reconciled(table, rows)
  }

  lemma LedgerBalanceAppend(rows: seq<LedgerRow>, row: LedgerRow, n: int)
    ensures LedgerBalance(rows + [row], n) == LedgerBalance(rows, n) + Delta(row, n)
  {
    assert (rows + [row])[..|rows|] == rows;
  }

  /** An account no entry names has a replayed balance of zero. */
  lemma {:induction false} UninvolvedBalanceIsZero(rows: seq<LedgerRow>, n: int)
    requires forall i :: 0 <= i < |rows| ==> !Involves(rows[i], n)
    ensures LedgerBalance(rows, n) == 0.0
    decreases |rows|
  {
    if rows != [] {
      var init := rows[..|rows| - 1];
      assert forall i :: 0 <= i < |init| ==> init[i] == rows[i];
      UninvolvedBalanceIsZero(init, n);
    }
  }

  /** Posting one valid entry and moving every stored balance by exactly what
      that entry does to it keeps the books consistent. */
  lemma PostingKeepsBooks(table: Table, table': Table, rows: seq<LedgerRow>, row: LedgerRow)
    requires Consistent(table, rows)
    requires table'.Keys == table.Keys
    requires RowValid(table, row)
    requires forall k :: k in table ==> table'[k].balance >= 0.0
    requires forall k :: k in table ==> table'[k].balance == table[k].balance + Delta(row, k)
    ensures Consistent(table', rows + [row])
  {
    var rows' := rows + [row];
    forall i | 0 <= i < |rows'| ensures RowValid(table', rows'[i]) {
      if i < |rows| { assert rows'[i] == rows[i]; }
    }
    forall k | k in table' ensures table'[k].balance == LedgerBalance(rows', k) {
      LedgerBalanceAppend(rows, row, k);
    }
  }

  /** Opening an account with a zero balance under a fresh number keeps the
      books consistent: no entry names the new number yet. */
  lemma CreateKeepsBooks(table: Table, next: int, rows: seq<LedgerRow>, a: Account)
    requires Consistent(table, rows)
    requires next !in table
    requires a.balance == 0.0
    ensures Consistent(Insert(table, next, a), rows)
  {
    var table' := Insert(table, next, a);
    forall i | 0 <= i < |rows| ensures !Involves(rows[i], next) {
      assert RowValid(table, rows[i]);
    }
    UninvolvedBalanceIsZero(rows, next);
  }

  /** A transfer of a covered positive amount between two different stored
      accounts, debiting the stored origin and crediting the stored target,
      keeps the books and the sum of the two balances. */
  lemma TransferKeepsBooks(table: Table, next: int, rows: seq<LedgerRow>, origin: Account,
                           targetNumber: int, amount: Money, today: Date)
    requires WellKeyed(table, next) && Consistent(table, rows)
    requires origin.number in table && table[origin.number] == origin
    requires targetNumber in table && targetNumber != origin.number
    requires 0.0 < amount <= origin.balance
    ensures var target := table[targetNumber];
      var table' := Overwrite(Overwrite(table, origin.(balance := origin.balance - amount)),
                              target.(balance := target.balance + amount));
      && Consistent(table', rows + [LedgerRow(TRANSFER, amount, today, Some(targetNumber), origin.number)])
      && table'[origin.number] == origin.(balance := origin.balance - amount)
      && table'[origin.number].balance + table'[targetNumber].balance
         == table[origin.number].balance + table[targetNumber].balance
  {
    var target := table[targetNumber];
    var debited := Overwrite(table, origin.(balance := origin.balance - amount));
    var table' := Overwrite(debited, target.(balance := target.balance + amount));
    assert debited[targetNumber] == target;
    assert table'[targetNumber] == target.(balance := target.balance + amount);
    assert table'[origin.number] == origin.(balance := origin.balance - amount);
    var row := LedgerRow(TRANSFER, amount, today, Some(targetNumber), origin.number);
    forall k | k in table
      ensures table'[k].balance >= 0.0 && table'[k].balance == table[k].balance + Delta(row, k)
    {
      if k != origin.number && k != targetNumber {
        assert table'[k] == table[k];
      }
    }
    PostingKeepsBooks(table, table', rows, row);
  }

  /** The lines of account `n`'s statement add up to its balance replayed
      from the ledger. */
  lemma {:induction false} StatementTotalsLedger(table: Table, next: int, rows: seq<LedgerRow>, n: int)
    requires WellKeyed(table, next)
    requires RowsValid(table, rows)
    ensures AllClassifiable(StatementOf(table, rows, n), n)
    ensures SignedTotal(ClassifyAll(StatementOf(table, rows, n), n)) == LedgerBalance(rows, n)
    decreases |rows|
  {
    if rows != [] {
      var init, row := rows[..|rows| - 1], rows[|rows| - 1];
      assert rows == init + [row];
      assert RowValid(table, row);
      assert RowsValid(table, init) by {
        forall i | 0 <= i < |init| ensures RowValid(table, init[i]) { assert init[i] == rows[i]; }
      }
      StatementTotalsLedger(table, next, init, n);
      StatementOfAppend(table, init, row, n);
      LedgerBalanceAppend(init, row, n);
      var prev := StatementOf(table, init, n);
      if Involves(row, n) {
        PostedLineMatchesDelta(table, next, row, n);
        SignedTotalAppend(prev, Hydrate(table, row), n);
      }
    }
  }

  /** A valid row that names `n`, rebuilt and classified from `n`'s side,
      carries exactly the row's effect on `n`. */
  lemma PostedLineMatchesDelta(table: Table, next: int, row: LedgerRow, n: int)
    requires WellKeyed(table, next)
    requires RowValid(table, row) && Involves(row, n)
    ensures Classifiable(Hydrate(table, row), n)
    ensures SignedAmount(Classify(Hydrate(table, row), n)) == Delta(row, n)
  {
  }

  /** Replaying the statement reproduces the stored balance. */
  lemma StatementReconciles(table: Table, next: int, rows: seq<LedgerRow>, n: int)
    requires WellKeyed(table, next)
    requires Consistent(table, rows)
    requires n in table
    ensures AllClassifiable(StatementOf(table, rows, n), n)
    ensures SignedTotal(ClassifyAll(StatementOf(table, rows, n), n)) == table[n].balance
  {
    StatementTotalsLedger(table, next, rows, n);
  }
}
