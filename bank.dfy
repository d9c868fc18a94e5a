/** The ledger engine (Bank.java): deposit, withdrawal, transfer, balance and
    statement over the two stores, and the new-account form. */
module Bank {
  import opened Wrappers
  import opened Entities
  import opened Database
  import opened AccountStore
  import opened TransactionStore
  import opened StatementLines
  import opened Validation
  import opened Books

  /** Why an amount or a transfer target was rejected; each is a message
      after which the source asks again or returns. */
  datatype BankError = InvalidAmount | InsufficientFunds | TargetNotFound | SameAccount

  /** The form field whose inputs ran out before one of them was accepted. */
  datatype InfoField = NameField | CpfField | PhoneField | PasswordField | TypeField

  class Bank {
    const conn: Connection
    const accountDAO: AccountDAO
    const transactionDAO: TransactionDAO

    /** Both stores work over the bank's single connection. */
    predicate Connected() {
      accountDAO.conn == conn && transactionDAO.conn == conn
    }

    ghost predicate Books()
      reads conn
    {
      Consistent(conn.accounts, conn.transactions)
    }

    /** The session's copy of an account is the stored row. */
    ghost predicate InSync(a: Account)
      reads conn
    {
      a.number in conn.accounts && conn.accounts[a.number] == a
    }

    constructor (conn: Connection)
      ensures this.conn == conn && Connected()
      ensures fresh(accountDAO) && fresh(transactionDAO)
    {
      this.conn := conn;
      accountDAO := new AccountDAO(conn);
      transactionDAO := new TransactionDAO(conn);
    }

    /** One answer to the prompt loop: the index of the first input the
        validator accepts, or `None` when the input runs out first. */
    static method AskValueUntilValid<T>(inputs: seq<T>, accept: T -> bool) returns (r: Option<nat>)
      ensures r.Some? ==> r.value < |inputs| && accept(inputs[r.value])
      ensures r.Some? ==> forall j :: 0 <= j < r.value ==> !accept(inputs[j])
      ensures r.None? ==> forall j :: 0 <= j < |inputs| ==> !accept(inputs[j])
    {
      var i := 0;
      while i < |inputs| && !accept(inputs[i])
        invariant 0 <= i <= |inputs|
        invariant forall j :: 0 <= j < i ==> !accept(inputs[j])
      {
        i := i + 1;
      }
      r := if i < |inputs| then Some(i) else None;
    }

    /** The new-account form: each field is asked until an input passes its
        check, and the account starts with a zero balance and inactive. The
        birthdate is taken as already checked. The number is left unset (0)
        for the store to assign. */
    method GetAccountInfo(names: seq<string>, birthdate: Date, cpfs: seq<string>, phones: seq<string>,
                          passwords: seq<string>, types: seq<string>, today: Date)
      returns (r: Result<Account, InfoField>)
      requires Connected()
      ensures r.Success? ==>
        && r.value.number == 0 && r.value.balance == 0.0 && !r.value.active
        && r.value.openingDate == today && r.value.holderBirthdate == birthdate
        && r.value.holder in names && CheckName(r.value.holder).Pass?
        && r.value.holderCpf in cpfs && CheckElevenDigits(r.value.holderCpf).Pass?
        && r.value.holderPhone in phones && CheckElevenDigits(r.value.holderPhone).Pass?
        && r.value.password in passwords && CheckPassword(r.value.password).Pass?
        && (exists i :: 0 <= i < |types| && ParseAccountType(types[i]) == Some(r.value.kind))
        && !HasTypeForCpf(conn.accounts, r.value.kind, r.value.holderCpf)
      ensures r == Failure(NameField) <==> forall i :: 0 <= i < |names| ==> !CheckName(names[i]).Pass?
      ensures r == Failure(CpfField) <==>
        && (exists i :: 0 <= i < |names| && CheckName(names[i]).Pass?)
        && forall i :: 0 <= i < |cpfs| ==> !CheckElevenDigits(cpfs[i]).Pass?
      ensures r == Failure(PhoneField) <==>
        && (exists i :: 0 <= i < |names| && CheckName(names[i]).Pass?)
        && (exists i :: 0 <= i < |cpfs| && CheckElevenDigits(cpfs[i]).Pass?)
        && forall i :: 0 <= i < |phones| ==> !CheckElevenDigits(phones[i]).Pass?
      ensures r == Failure(PasswordField) <==>
        && (exists i :: 0 <= i < |names| && CheckName(names[i]).Pass?)
        && (exists i :: 0 <= i < |cpfs| && CheckElevenDigits(cpfs[i]).Pass?)
        && (exists i :: 0 <= i < |phones| && CheckElevenDigits(phones[i]).Pass?)
        && forall i :: 0 <= i < |passwords| ==> !CheckPassword(passwords[i]).Pass?
      ensures r == Failure(TypeField) ==>
        exists i :: 0 <= i < |cpfs| && CheckElevenDigits(cpfs[i]).Pass? &&
          forall j :: 0 <= j < |types| ==> !CheckAccountType(conn.accounts, cpfs[i], types[j]).Pass?
    {
      var ni := AskValueUntilValid(names, s => CheckName(s).Pass?);
      if ni.None? { return Failure(NameField); }
      var ci := AskValueUntilValid(cpfs, s => CheckElevenDigits(s).Pass?);
      if ci.None? { return Failure(CpfField); }
      var cpf := cpfs[ci.value];
      var pi := AskValueUntilValid(phones, s => CheckElevenDigits(s).Pass?);
      if pi.None? { return Failure(PhoneField); }
      var wi := AskValueUntilValid(passwords, s => CheckPassword(s).Pass?);
      if wi.None? { return Failure(PasswordField); }
      var table := accountDAO.conn.accounts;
      var ti := AskValueUntilValid(types, s => CheckAccountType(table, cpf, s).Pass?);
      if ti.None? { return Failure(TypeField); }
      var kind := ParseAccountType(types[ti.value]).value;
      r := Success(Account(0, kind, 0.0, today, names[ni.value], phones[pi.value], birthdate,
                           cpf, passwords[wi.value], false));
    }

    /** A deposit of a positive amount credits the caller's account, stores it
        and posts one DEPOSIT entry from it. */
    method Deposit(account: Account, amount: Money, today: Date) returns (r: Result<Account, BankError>)
      requires Connected() && conn.Valid()
      modifies conn
      ensures conn.Valid()
      ensures amount <= 0.0 ==> r == Failure(InvalidAmount)
      ensures amount > 0.0 ==> r == Success(account.(balance := account.balance + amount))
      ensures r.Failure? ==> unchanged(conn)
      ensures r.Success? ==>
        && conn.accounts == Overwrite(old(conn.accounts), r.value)
        && conn.nextNumber == old(conn.nextNumber)
        && conn.transactions == old(conn.transactions) + [LedgerRow(DEPOSIT, amount, today, None, account.number)]
      ensures old(Books()) && old(InSync(account)) ==> Books() && (r.Success? ==> InSync(r.value))
    {
      if amount <= 0.0 {
        return Failure(InvalidAmount);
      }
      ghost var table, rows := conn.accounts, conn.transactions;
      var updated := account.(balance := account.balance + amount);
      accountDAO.UpdateAccount(updated);
      transactionDAO.MakeTransaction(Transaction(DEPOSIT, amount, today, None, Some(updated)));
      if Consistent(table, rows) && account.number in table && table[account.number] == account {
        PostingKeepsBooks(table, conn.accounts, rows, LedgerRow(DEPOSIT, amount, today, None, account.number));
      }
      r := Success(updated);
    }

    /** A withdrawal of a positive amount no larger than the caller's balance
        debits the account, stores it and posts one WITHDRAWAL entry from it. */
    method Withdraw(account: Account, amount: Money, today: Date) returns (r: Result<Account, BankError>)
      requires Connected() && conn.Valid()
      modifies conn
      ensures conn.Valid()
      ensures amount <= 0.0 ==> r == Failure(InvalidAmount)
      ensures 0.0 < amount && amount > account.balance ==> r == Failure(InsufficientFunds)
      ensures 0.0 < amount <= account.balance ==> r == Success(account.(balance := account.balance - amount))
      ensures r.Success? ==> r.value.balance >= 0.0
      ensures r.Failure? ==> unchanged(conn)
      ensures r.Success? ==>
        && conn.accounts == Overwrite(old(conn.accounts), r.value)
        && conn.nextNumber == old(conn.nextNumber)
        && conn.transactions == old(conn.transactions) + [LedgerRow(WITHDRAWAL, amount, today, None, account.number)]
      ensures old(Books()) && old(InSync(account)) ==> Books() && (r.Success? ==> InSync(r.value))
    {
      if amount <= 0.0 {
        return Failure(InvalidAmount);
      }
      if amount > account.balance {
        return Failure(InsufficientFunds);
      }
      ghost var table, rows := conn.accounts, conn.transactions;
      var updated := account.(balance := account.balance - amount);
      accountDAO.UpdateAccount(updated);
      transactionDAO.MakeTransaction(Transaction(WITHDRAWAL, amount, today, None, Some(updated)));
      if Consistent(table, rows) && account.number in table && table[account.number] == account {
        PostingKeepsBooks(table, conn.accounts, rows, LedgerRow(WITHDRAWAL, amount, today, None, account.number));
      }
      r := Success(updated);
    }

    /** The balance of the caller's copy; nothing is written. */
    method CheckBalance(account: Account) returns (balance: Money)
      ensures balance == account.balance
    {
      balance := account.balance;
    }

    /** A transfer checks, in this order, that the target exists and is active,
        that it is not the origin, and that the amount is positive and covered
        by the origin's balance; then it moves the amount from the origin to
        the target, stores both and posts one TRANSFER entry. */
    method Transfer(origin: Account, targetNumber: int, amount: Money, today: Date)
      returns (r: Result<Account, BankError>)
      requires Connected() && conn.Valid()
      modifies conn
      ensures conn.Valid()
      ensures !ActiveTarget(old(conn.accounts), targetNumber) ==> r == Failure(TargetNotFound)
      ensures ActiveTarget(old(conn.accounts), targetNumber) && origin.number == targetNumber ==>
        r == Failure(SameAccount)
      ensures ActiveTarget(old(conn.accounts), targetNumber) && origin.number != targetNumber && amount <= 0.0 ==>
        r == Failure(InvalidAmount)
      ensures (ActiveTarget(old(conn.accounts), targetNumber) && origin.number != targetNumber &&
               0.0 < amount && amount > origin.balance) ==>
        r == Failure(InsufficientFunds)
      ensures (ActiveTarget(old(conn.accounts), targetNumber) && origin.number != targetNumber &&
               0.0 < amount <= origin.balance) ==>
        r == Success(origin.(balance := origin.balance - amount))
      ensures r.Failure? ==> unchanged(conn)
      ensures r.Success? ==>
        && ActiveTarget(old(conn.accounts), targetNumber)
        && var target := old(conn.accounts)[targetNumber];
           && conn.accounts == Overwrite(Overwrite(old(conn.accounts), r.value), target.(balance := target.balance + amount))
           && conn.nextNumber == old(conn.nextNumber)
           && conn.transactions == old(conn.transactions) + [LedgerRow(TRANSFER, amount, today, Some(targetNumber), origin.number)]
      ensures old(Books()) && old(InSync(origin)) ==> Books()
      ensures old(Books()) && old(InSync(origin)) && r.Success? ==>
        && InSync(r.value)
        && conn.accounts[origin.number].balance + conn.accounts[targetNumber].balance
           == old(conn.accounts[origin.number].balance + conn.accounts[targetNumber].balance)
    {
      var targetActive := transactionDAO.TargetAccountExistsAndActive(targetNumber);
      if !targetActive {
        return Failure(TargetNotFound);
      }
      if origin.number == targetNumber {
        return Failure(SameAccount);
      }
      if amount <= 0.0 {
        return Failure(InvalidAmount);
      }
      if amount > origin.balance {
        return Failure(InsufficientFunds);
      }
      var updatedOrigin := MoveFunds(origin, targetNumber, amount, today);
      r := Success(updatedOrigin);
    }

    /** The transfer once every check has passed: the target is read again,
        the amount leaves the origin and reaches the target, both rows are
        stored and one TRANSFER entry is posted. */
    method MoveFunds(origin: Account, targetNumber: int, amount: Money, today: Date)
      returns (updatedOrigin: Account)
      requires Connected() && conn.Valid()
      requires ActiveTarget(conn.accounts, targetNumber) && origin.number != targetNumber
      requires 0.0 < amount <= origin.balance
      modifies conn
      ensures conn.Valid()
      ensures updatedOrigin == origin.(balance := origin.balance - amount)
      ensures var target := old(conn.accounts)[targetNumber];
        && conn.accounts == Overwrite(Overwrite(old(conn.accounts), updatedOrigin), target.(balance := target.balance + amount))
        && conn.nextNumber == old(conn.nextNumber)
        && conn.transactions == old(conn.transactions) + [LedgerRow(TRANSFER, amount, today, Some(targetNumber), origin.number)]
      ensures old(Books()) && old(InSync(origin)) ==>
        && Books() && InSync(updatedOrigin)
        && conn.accounts[origin.number].balance + conn.accounts[targetNumber].balance
           == old(conn.accounts[origin.number].balance + conn.accounts[targetNumber].balance)
    {
      ghost var table, rows := conn.accounts, conn.transactions;
      var fetched := accountDAO.GetAccount(targetNumber);
      var target := fetched.value;
      updatedOrigin := origin.(balance := origin.balance - amount);
      var updatedTarget := target.(balance := target.balance + amount);
      accountDAO.UpdateAccount(updatedOrigin);
      accountDAO.UpdateAccount(updatedTarget);
      transactionDAO.MakeTransaction(Transaction(TRANSFER, amount, today, Some(updatedTarget), Some(updatedOrigin)));
      if Consistent(table, rows) && origin.number in table && table[origin.number] == origin {
        TransferKeepsBooks(table, conn.nextNumber, rows, origin, targetNumber, amount, today);
      }
    }

    /** The account's statement as signed lines, in id order; nothing is
        written. Every inbound transfer in it must name its origin, which is
        read when the line is labelled. When the books are consistent the
        lines add up to the stored balance. */
    method BankStatement(accountNumber: int) returns (lines: seq<StatementLine>)
      requires Connected() && conn.Valid()
      requires AllClassifiable(StatementOf(conn.accounts, conn.transactions, accountNumber), accountNumber)
      ensures lines == ClassifyAll(StatementOf(conn.accounts, conn.transactions, accountNumber), accountNumber)
      ensures Books() && accountNumber in conn.accounts ==> SignedTotal(lines) == conn.accounts[accountNumber].balance
    {
      var transactions := transactionDAO.BankStatement(accountNumber);
      if Books() {
        StatementTotalsLedger(conn.accounts, conn.nextNumber, conn.transactions, accountNumber);
      }
      lines := [];
      var i := 0;
      while i < |transactions|
        invariant 0 <= i <= |transactions|
        invariant AllClassifiable(transactions[..i], accountNumber)
        invariant lines == ClassifyAll(transactions[..i], accountNumber)
      {
        var t := transactions[i];
        var sign := Unsigned;
        var counterparty := NoCounterparty;
        match t.kind {
          case DEPOSIT => sign := Plus;
          case WITHDRAWAL => sign := Minus;
          case TRANSFER =>
            if t.transferAccount.Some? {
              sign := Minus;
              counterparty := To(t.transferAccount.value.number);
              if t.transferAccount.value.number == accountNumber {
                sign := Plus;
                counterparty := From(t.originAccount.value.number);
              }
            }
        }
        assert StatementLine(sign, t.kind, counterparty, t.value, t.date) == Classify(t, accountNumber);
        assert transactions[..i + 1] == transactions[..i] + [t];
        assert transactions[..i + 1][..i] == transactions[..i];
        lines := lines + [StatementLine(sign, t.kind, counterparty, t.value, t.date)];
        i := i + 1;
      }
      assert transactions[..|transactions|] == transactions;
    }
  }
}
