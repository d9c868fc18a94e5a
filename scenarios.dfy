/** A client of the engine: what a caller can conclude from the contracts
    alone, on a fresh database. */
module Scenarios {
  import opened Wrappers
  import opened Entities
  import opened Database
  import opened AccountStore
  import opened TransactionStore
  import opened StatementLines
  import opened Books
  import opened Bank

  /** Two accounts are opened through the store. The first logs in, deposits
      100, fails to withdraw 150, and cannot transfer to the second, which was
      opened inactive and is never activated, nor to a number nobody holds.
      Its statement still adds up to its balance. */
  method OpenDepositOverdrawTransfer(first: Account, second: Account, today: Date)
    requires first.balance == 0.0 && second.balance == 0.0 && !second.active
  {
    var conn := new Connection();
    var bank := new Bank(conn);
    bank.accountDAO.CreateAccount(first);
    CreateKeepsBooks(map[], 1, [], first);
    ghost var afterFirst := conn.accounts;
    assert afterFirst == map[1 := first.(number := 1)];
    bank.accountDAO.CreateAccount(second);
    CreateKeepsBooks(afterFirst, 2, [], second);
    assert bank.Books();
    assert conn.accounts[2] == second.(number := 2);

    var session := bank.accountDAO.LoginAccount(Some(1), first.password);
    assert session == Some(first.(number := 1));
    var account := session.value;

    var deposited := bank.Deposit(account, 100.0, today);
    assert deposited.Success? && deposited.value.balance == 100.0;
    assert |conn.transactions| == 1 && conn.transactions[0].kind == DEPOSIT;
    account := deposited.value;

    var overdrawn := bank.Withdraw(account, 150.0, today);
    assert overdrawn == Failure(InsufficientFunds);
    assert conn.accounts[1].balance == 100.0 && |conn.transactions| == 1;

    var toInactive := bank.Transfer(account, 2, 40.0, today);
    assert toInactive == Failure(TargetNotFound);
    var toNobody := bank.Transfer(account, 3, 40.0, today);
    assert toNobody == Failure(TargetNotFound);

    StatementTotalsLedger(conn.accounts, conn.nextNumber, conn.transactions, 1);
    var lines := bank.BankStatement(1);
    assert SignedTotal(lines) == 100.0;
  }
}
