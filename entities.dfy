/** The entities of the ledger (model/entity/Account.java and
    model/entity/Transaction.java), as values. */
module Entities {
  import opened Wrappers

  /** BigDecimal amounts: exact, and only added, subtracted and compared. */
  type Money = real

  /** A calendar date (LocalDate); the engine only stores and returns it. */
  datatype Date = Date(year: int, month: int, day: int)

  datatype AccountType = CHECKING | SAVINGS | SALARY | BUSINESS | STUDENT | INVESTMENT

  datatype TransactionType = DEPOSIT | WITHDRAWAL | TRANSFER

  /** One row of tb_account, or the in-memory copy a session holds.
      `number` is 0 on an account that the store has not numbered yet
      (a null Long in the source). */
  datatype Account = Account(
    number: int,
    kind: AccountType,
    balance: Money,
    openingDate: Date,
    holder: string,
    holderPhone: string,
    holderBirthdate: Date,
    holderCpf: string,
    password: string,
    active: bool)

  /** A ledger entry as the engine builds it and as the statement query
      returns it: both counterparties are account objects, possibly null. */
  datatype Transaction = Transaction(
    kind: TransactionType,
    value: Money,
    date: Date,
    transferAccount: Option<Account>,
    originAccount: Option<Account>)

  /** The name an enum constant prints as (its `name()`). */
  function AccountTypeName(t: AccountType): string {
    match t
    case CHECKING => "CHECKING"
    case SAVINGS => "SAVINGS"
    case SALARY => "SALARY"
    case BUSINESS => "BUSINESS"
    case STUDENT => "STUDENT"
    case INVESTMENT => "INVESTMENT"
  }
}
