# BankProject ledger engine, modelled in Dafny

This project models the ledger engine of a single-bank console application.
It has three parts:

- `Bank` applies deposits, withdrawals and transfers to an account. It checks
  the balance and reads the account's statement.
- The account store (`AccountDAO`) is the `tb_account` table.
- The ledger store (`TransactionDAO`) is the `tb_transaction` table.

The SQL tables become in-memory values held by one `Connection` object:

- `accounts: map<int, Account>` is `tb_account`, keyed by account number.
- `nextNumber` is the number the store gives the next inserted account.
- `transactions: seq<LedgerRow>` is `tb_transaction`. A row's position is its id.

Each DAO method is specified by a pure function that states what its SQL
statement does to, or returns from, the table. `BigDecimal` amounts are
`real`, since they are only added, subtracted and compared. A `null` reference
is `Option.None`.

The books invariant (`Books.Consistent`) has three parts:

- no balance is negative;
- every ledger row is a posting the engine could have written;
- every stored balance equals the balance rebuilt by replaying the ledger.

The invariant is a predicate on the table contents, so it is stated and proved
in lemmas kept apart from the methods that update state. Each engine method guarantees the
invariant when the caller's `Account` copy is the stored row (`InSync`). That is
the case for the copy a login returns and for each copy an operation hands back.
The source overwrites the stored row with whatever copy the caller passes, so
nothing stronger can be promised.

The model follows the code on these points:

- Nothing in the code sets `active` to true. Login does not activate an account.
  Accounts opened through the form start inactive, so a transfer to one of them
  fails with `TargetNotFound`.
- None of the operations is atomic. `updateAccount` and `makeTransaction` are
  separate writes, and there is no locking, no version check and no retry. The
  model assumes the operations run one after another.
- A rejected amount makes the source ask again. In the model each call is one
  attempt, and a rejected value returns a typed `Failure`.
- Withdraw and transfer check the amount against the caller's copy of the
  balance, not against the stored row.

`Scenarios.OpenDepositOverdrawTransfer` is a client of the engine. It uses
only the contracts, on a fresh database. It opens two accounts, logs in and
deposits 100. It shows that a withdrawal of 150 fails with
`InsufficientFunds` and changes nothing. A transfer to the inactive second
account, or to a number nobody holds, fails with `TargetNotFound`. The
statement still adds up to the balance of 100.

## Model

| member | source | states |
|---|---|---|
| `AccountStore.Lookup` | src/main/java/br/com/compass/model/dao/AccountDAO.java:22-54 | Returns the row stored under number n, or None when there is no such row. When rows are keyed by their own number, the row returned has number n. |
| `AccountStore.Overwrite` | src/main/java/br/com/compass/model/dao/AccountDAO.java:144-170 | Keeps the same set of numbers. If a.number is stored, that row becomes a, and a later lookup of a.number returns a. Every other row is unchanged. If no row matches, nothing changes. Rows stay keyed by their own number. |
| `AccountStore.Insert` | src/main/java/br/com/compass/model/dao/AccountDAO.java:56-82 | Adds exactly one row, under the number the store assigns. It holds a's other fields, whatever a.number was. Existing rows are untouched. The numbers handed out stay below the next one. |
| `AccountStore.Login` | src/main/java/br/com/compass/model/dao/AccountDAO.java:105-142 | Returns an account exactly when the number casts, the row exists and its password matches. The account returned is the stored row as it is, `active` included. A number the database cannot cast gives None. |
| `AccountStore.InsertedTypeIsHeld` | src/main/java/br/com/compass/model/dao/AccountDAO.java:84-103 | After an account is inserted, its CPF counts as holding an account of its type. |
| `AccountStore.InsertKeepsOneAccountPerTypeAndCpf` | src/main/java/br/com/compass/Bank.java:87-103 | Inserting an account whose type the CPF does not yet hold keeps the rule of at most one account per type per CPF. |
| `AccountStore.AccountDAO.GetAccount` | src/main/java/br/com/compass/model/dao/AccountDAO.java:22-54 | Returns Lookup of the current table. It writes nothing. |
| `AccountStore.AccountDAO.CreateAccount` | src/main/java/br/com/compass/model/dao/AccountDAO.java:56-82 | The table becomes Insert under the next number. The counter advances by one and the ledger is unchanged. |
| `AccountStore.AccountDAO.ExistsAccountTypeForCpf` | src/main/java/br/com/compass/model/dao/AccountDAO.java:84-103 | True exactly when some row has that holder CPF and that type. |
| `AccountStore.AccountDAO.LoginAccount` | src/main/java/br/com/compass/model/dao/AccountDAO.java:105-142 | Returns Login of the current table. It has no modifies clause, so it writes nothing and does not change `active`. |
| `AccountStore.AccountDAO.UpdateAccount` | src/main/java/br/com/compass/model/dao/AccountDAO.java:144-170 | The table becomes Overwrite of the old table. The counter and the ledger are unchanged. |
| `TransactionStore.Record` | src/main/java/br/com/compass/model/dao/TransactionDAO.java:26-53 | The stored row keeps the entry's type, value, date and origin number. The transfer account is NULL exactly when it is absent, and otherwise it is stored as its number. |
| `TransactionStore.MatchingIds` | src/main/java/br/com/compass/model/dao/TransactionDAO.java:79-84 | Holds the id of a row exactly when the row names the account as origin or as transfer account. Every id is in range, and the ids are strictly ascending. |
| `TransactionStore.Hydrate` | src/main/java/br/com/compass/model/dao/TransactionDAO.java:89-99 | A selected row is rebuilt with its type, value and date. Both counterparties are looked up again. A NULL transfer account is first read as number 0. |
| `TransactionStore.StatementOf` | src/main/java/br/com/compass/model/dao/TransactionDAO.java:79-99 | What `bankStatement(n)` returns: the rows that name n, rebuilt, in id order, with never more entries than rows. `StatementIsSelectionInIdOrder` characterises it entry by entry. |
| `TransactionStore.StatementIsSelectionInIdOrder` | src/main/java/br/com/compass/model/dao/TransactionDAO.java:75-110 | The statement has one entry per selected id, in ascending id order. Entry k is the row with the k-th selected id, rebuilt. There is nothing more and nothing less. |
| `TransactionStore.HydrateRecord` | src/main/java/br/com/compass/model/dao/TransactionDAO.java:26-100 | Reading an entry back gives the entity that was written. This needs the accounts it names to be the stored rows and no account numbered 0. |
| `TransactionStore.TransactionDAO.MakeTransaction` | src/main/java/br/com/compass/model/dao/TransactionDAO.java:26-53 | Appends exactly one row, Record of the entry. Earlier rows are unchanged, and the account table and counter are untouched. |
| `TransactionStore.TransactionDAO.TargetAccountExistsAndActive` | src/main/java/br/com/compass/model/dao/TransactionDAO.java:55-73 | True exactly when an account with that number exists and is active. |
| `TransactionStore.TransactionDAO.BankStatement` | src/main/java/br/com/compass/model/dao/TransactionDAO.java:75-110 | The `while (rs.next())` loop returns exactly the statement of the account: the selected rows, rebuilt, in id order. It writes nothing. |
| `Validation.MatchesClassPlus` | src/main/java/br/com/compass/Bank.java:34 | `matches("[C]+")` holds exactly when the string is non-empty and every character is in the class. |
| `Validation.Utf16Length` | src/main/java/br/com/compass/Bank.java:80 | Java's string length is between \|s\| and 2\|s\|. It equals \|s\| when every character is in the Basic Multilingual Plane. |
| `Validation.CheckName` | src/main/java/br/com/compass/Bank.java:33-39 | Accepts exactly the non-empty names made only of ASCII letters, apostrophes and spaces. |
| `Validation.CheckElevenDigits` | src/main/java/br/com/compass/Bank.java:55-77 | For CPF and phone: accepts exactly strings of 11 ASCII digits. The non-digit error is reported before the length error. |
| `Validation.CheckPassword` | src/main/java/br/com/compass/Bank.java:79-85 | Accepts exactly passwords of at least 6 UTF-16 units, so any password of 6 or more characters. Every rejected password is rejected as TooShort, the one message the source prints. |
| `Validation.ToUpper` | src/main/java/br/com/compass/Bank.java:91 | Keeps the length and upper-cases each ASCII letter. |
| `Validation.ParseAccountType` | src/main/java/br/com/compass/Bank.java:87-96 | Returns a type exactly when the upper-cased text is one of the type names, and the type returned has that name. |
| `Validation.ParseAccountTypeName` | src/main/java/br/com/compass/Bank.java:90-91 | Each type's own name parses back to that type. |
| `Validation.CheckAccountType` | src/main/java/br/com/compass/Bank.java:87-103 | Accepts exactly a text that names a type the CPF does not hold yet. Unknown names give UnknownType. A type the CPF already holds gives TypeAlreadyHeld. Both hold in both directions. |
| `StatementLines.Classify` | src/main/java/br/com/compass/Bank.java:266-283 | DEPOSIT is `+` and WITHDRAWAL is `-`. A TRANSFER with a target is `+` FROM the origin exactly when the queried account is the target, and otherwise `-` TO the target. A TRANSFER with no target has no sign. |
| `StatementLines.ClassifyAll` | src/main/java/br/com/compass/Bank.java:265-287 | Gives one line per entry, in the same order, each classified from the queried account's side. |
| `StatementLines.TransferMirrors` | src/main/java/br/com/compass/Bank.java:272-281 | One transfer is an outflow TO the target on the origin's statement and an inflow FROM the origin on the target's. The two signed amounts cancel. |
| `Books.UninvolvedBalanceIsZero` | src/main/java/br/com/compass/model/dao/TransactionDAO.java:79-81 | An account that no entry names has a replayed balance of zero. |
| `Books.PostingKeepsBooks` | src/main/java/br/com/compass/Bank.java:153-257 | Start from consistent books, with new balances that are all non-negative. Posting one valid entry that moves each balance by exactly its effect keeps the books consistent: the rows stay valid and every balance equals the ledger replay. The non-negative bound is a premise; the engine's amount checks supply it. |
| `Books.TransferKeepsBooks` | src/main/java/br/com/compass/Bank.java:202-258 | Start from consistent books. Debiting a covered positive amount from the stored origin and crediting it to a different stored target keeps the books consistent once the TRANSFER entry is posted. The origin's row becomes the debited copy, and the sum of the two balances is unchanged. |
| `Books.CreateKeepsBooks` | src/main/java/br/com/compass/Bank.java:105-106 | Opening an account with a zero balance under a fresh number keeps the books consistent. |
| `Books.StatementTotalsLedger` | src/main/java/br/com/compass/Bank.java:260-289 | The signed lines of an account's statement add up to its balance replayed from the ledger. |
| `Books.StatementReconciles` | src/main/java/br/com/compass/Bank.java:260-289 | When the books are consistent, the statement's signed lines add up to the stored balance. |
| `Bank.Bank.AskValueUntilValid` | src/main/java/br/com/compass/Bank.java:118-126 | Returns the first input the validator accepts, with every earlier one rejected, or None when every input is rejected. |
| `Bank.Bank.GetAccountInfo` | src/main/java/br/com/compass/Bank.java:29-116 | A new account starts with balance 0, inactive, opened today and unnumbered. Each field passed its check, and the type is not yet held for the CPF. The form fails at the first field, in the order name, CPF, phone, password, whose inputs all fail. The name, CPF, phone and password failures each hold exactly when every earlier field had an accepted input and this one had none. |
| `Bank.Bank.Deposit` | src/main/java/br/com/compass/Bank.java:138-163 | Succeeds exactly when the amount is positive. The new balance is old plus amount, the row is overwritten and one DEPOSIT entry is appended (origin the account, no transfer account). On failure nothing changes. The books are kept. |
| `Bank.Bank.Withdraw` | src/main/java/br/com/compass/Bank.java:165-196 | Succeeds exactly when 0 < amount ≤ balance, so the new balance, old minus amount, is never negative. One WITHDRAWAL entry is appended. On failure nothing changes. The books are kept. |
| `Bank.Bank.CheckBalance` | src/main/java/br/com/compass/Bank.java:198-200 | Returns the caller's balance and writes nothing. |
| `Bank.Bank.Transfer` | src/main/java/br/com/compass/Bank.java:202-258 | The checks run in a fixed order: target missing or inactive, then same account, then amount not positive, then amount over the origin's balance. Every failure leaves both tables unchanged. On success the origin loses v and the target gains v, so their sum is unchanged. One TRANSFER entry from the origin to the target is appended, and the books are kept. |
| `Bank.Bank.MoveFunds` | src/main/java/br/com/compass/Bank.java:244-257 | After the checks pass, the target is read again. The origin loses the amount and the target gains it, both rows are overwritten and one TRANSFER entry is appended. With in-sync books the books are kept and the sum of the two balances is unchanged. |
| `Bank.Bank.BankStatement` | src/main/java/br/com/compass/Bank.java:260-289 | Returns the statement entries, each classified from the queried account's side, in id order, and writes nothing. It needs only that each inbound transfer in the statement names its origin. When the books are consistent the lines add up to the stored balance. |

`AccountStore.HasTypeForCpf`, `TransactionStore.ActiveTarget` and
`TransactionStore.Involves` are the `WHERE` clauses of
AccountDAO.java:88, TransactionDAO.java:59 and TransactionDAO.java:79-81,
written as predicates. The members above use them.

## Left out

- JDBC plumbing is not modelled: prepared statements, result sets,
  `Database.closeStatement`, and `SQLException` rethrown as `DbException`.
  The stores never fail. The one exception is the login lookup, whose caught
  error is modelled.
- `db/Database.java` is not part of this model: the connection singleton and
  reading `db.properties` are I/O. The one shared connection is passed to the
  `Bank` constructor instead.
- `App.java`, `AppTeste.java` and the older classes under `entity/` are not
  part of this model: menus, a demo `main`, and superseded duplicates.
  `Bank.loginScreen` only reads two tokens from the console and calls
  `loginAccount`, so it is left out as I/O.
- Console prompts and printing are not modelled, including the statement's
  text layout. A statement line carries its sign, type, counterparty, value
  and date.
- Text parsing is not modelled: `new BigDecimal(...)`, `Long.parseLong`, and
  the database's `CAST(? AS INTEGER)`. The model takes numbers that are
  already parsed. `Login` takes the cast's result as an `Option`.
- Date handling is not modelled: `LocalDate.now()` becomes a `today`
  parameter. The birthdate's format and range checks are library calls on the
  clock, so the birthdate is taken as already checked.
- Validation.ToUpper: only ASCII letters are upper-cased. Java's
  `toUpperCase` also maps a few non-ASCII letters (such as the dotless `ı`)
  to ASCII ones. The default locale is not modelled either: under a Turkish
  locale Java turns `i` into `İ`, so the source rejects "checking" and the
  model accepts it. Java maps `ß` to "SS", which changes the length, so the
  source accepts "busineß" as BUSINESS and the model rejects it.
- Update in place is not modelled. The source changes the caller's `Account`
  object. The model returns the updated account value and does not model
  aliasing.
- The number of an account not yet stored is a null `Long` in the source. It
  is 0 in the model, and `createAccount` ignores it.
- The store gives out numbers from a counter that starts at 1. The schema is
  not in the source, so this stands for its serial key.
- The `id` of an entity `Transaction` is never set by the code, so it is
  omitted. `Account.transactions` is never read or stored, so it is omitted.
- Concurrency, locking, optimistic retry and all-or-nothing commits are not
  modelled, because the code has none.
- Bank.Bank.GetAccountInfo: does not say that each field is the first
  accepted input, because AskValueUntilValid states that. The name, CPF,
  phone and password failures are stated both ways. The type-field failure is
  stated one way only: it says that some accepted CPF is rejected by every type
  input, and not that this is the CPF the form kept.
- Bank.Bank.Deposit, Bank.Bank.Withdraw, Bank.Bank.Transfer, Bank.Bank.MoveFunds: the books
  invariant and the unchanged sum are promised only when the caller's copy is
  the stored row. The source writes back whatever copy it is given.
