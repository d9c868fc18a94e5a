/** The account store (model/dao/AccountDAO.java): tb_account as a map from
    account number to row, with the meaning each SQL statement gives it. */
module AccountStore {
  import opened Wrappers
  import opened Entities
  import opened Database

  type Table = map<int, Account>

  /** `SELECT * FROM tb_account WHERE number=?`: the row numbered `n`, or null. */
  function Lookup(table: Table, n: int): (r: Option<Account>)
    ensures r.Some? <==> n in table
    ensures r.Some? ==> r.value == table[n]
    ensures forall next :: WellKeyed(table, next) && r.Some? ==> r.value.number == n
  {
    if n in table then Some(table[n]) else None
  }

  /** `UPDATE tb_account SET <every column> WHERE number=?`: the row numbered
      `a.number`, if there is one, takes all of `a`'s fields; no other row changes,
      and an update that matches no row changes nothing. */
  function Overwrite(table: Table, a: Account): (r: Table)
    ensures r.Keys == table.Keys
    ensures a.number in table ==> Lookup(r, a.number) == Some(a)
    ensures forall k :: k in table && k != a.number ==> r[k] == table[k]
    ensures a.number !in table ==> r == table
    ensures forall next :: WellKeyed(table, next) ==> WellKeyed(r, next)
  {
    if a.number in table then table[a.number := a] else table
  }

  /** `INSERT INTO tb_account (<every column but number>)`: one new row holding
      `a`'s fields under the number the store assigns, whatever `a.number` was. */
  function Insert(table: Table, next: int, a: Account): (r: Table)
    ensures r.Keys == table.Keys + {next}
    ensures r[next] == a.(number := next)
    ensures forall k :: k in table && k != next ==> r[k] == table[k]
    ensures next !in table ==> |r| == |table| + 1
    ensures WellKeyed(table, next) ==> WellKeyed(r, next + 1)
  {
    table[next := a.(number := next)]
  }

  /** `SELECT 1 FROM tb_account WHERE holder_cpf=? AND type=?`. */
  predicate HasTypeForCpf(table: Table, t: AccountType, cpf: string) {
    exists k :: k in table && table[k].holderCpf == cpf && table[k].kind == t
  }

  /** `SELECT * FROM tb_account WHERE number=CAST(? AS INTEGER) AND password=?`.
      `number` is the result of the cast, `None` when the database rejects the
      text; that error is caught and reported as a failed login. */
  function Login(table: Table, number: Option<int>, password: string): (r: Option<Account>)
    ensures r.Some? <==> number.Some? && number.value in table && table[number.value].password == password
    ensures r.Some? ==> r.value == table[number.value]
  {
    match number
    case None => None
    case Some(n) => if n in table && table[n].password == password then Some(table[n]) else None
  }

  /** At most one account of each type per CPF. */
  ghost predicate OneAccountPerTypeAndCpf(table: Table) {
    forall j, k ::
      j in table && k in table && table[j].holderCpf == table[k].holderCpf && table[j].kind == table[k].kind
      ==> j == k
  }

  /** Once an account is inserted, its type counts as held for its CPF. */
  lemma InsertedTypeIsHeld(table: Table, next: int, a: Account)
    ensures HasTypeForCpf(Insert(table, next, a), a.kind, a.holderCpf)
  {
    var r := Insert(table, next, a);
    assert next in r && r[next].holderCpf == a.holderCpf && r[next].kind == a.kind;
  }

  /** Inserting an account whose type the CPF does not hold yet keeps one
      account per type and CPF. */
  lemma InsertKeepsOneAccountPerTypeAndCpf(table: Table, next: int, a: Account)
    requires OneAccountPerTypeAndCpf(table)
    requires next !in table
    requires !HasTypeForCpf(table, a.kind, a.holderCpf)
    ensures OneAccountPerTypeAndCpf(Insert(table, next, a))
  {
    var r := Insert(table, next, a);
    forall j, k | j in r && k in r && r[j].holderCpf == r[k].holderCpf && r[j].kind == r[k].kind
      ensures j == k
    {
      if j != next && k != next {
        assert r[j] == table[j] && r[k] == table[k];
      }
    }
  }

  class AccountDAO {
    const conn: Connection

    constructor (conn: Connection)
      ensures this.conn == conn
    {
      this.conn := conn;
    }

    method GetAccount(accountNumber: int) returns (r: Option<Account>)
      ensures r == Lookup(conn.accounts, accountNumber)
    {
      if accountNumber in conn.accounts {
        r := Some(conn.accounts[accountNumber]);
      } else {
        r := None;
      }
    }

    method CreateAccount(account: Account)
      requires conn.Valid()
      modifies conn
      ensures conn.Valid()
      ensures conn.accounts == Insert(old(conn.accounts), old(conn.nextNumber), account)
      ensures conn.nextNumber == old(conn.nextNumber) + 1
      ensures conn.transactions == old(conn.transactions)
    {
      conn.accounts := conn.accounts[conn.nextNumber := account.(number := conn.nextNumber)];
      conn.nextNumber := conn.nextNumber + 1;
    }

    method ExistsAccountTypeForCpf(accountType: AccountType, cpf: string) returns (b: bool)
      ensures b == HasTypeForCpf(conn.accounts, accountType, cpf)
    {
      b := exists k :: k in conn.accounts && conn.accounts[k].holderCpf == cpf && conn.accounts[k].kind == accountType;
    }

    /** Reads only: a successful login leaves the row, `active` included, as it was. */
    method LoginAccount(number: Option<int>, password: string) returns (r: Option<Account>)
      ensures r == Login(conn.accounts, number, password)
    {
      r := None;
      if number.Some? && number.value in conn.accounts && conn.accounts[number.value].password == password {
        r := Some(conn.accounts[number.value]);
      }
    }

    method UpdateAccount(account: Account)
      requires conn.Valid()
      modifies conn
      ensures conn.Valid()
      ensures conn.accounts == Overwrite(old(conn.accounts), account)
      ensures conn.nextNumber == old(conn.nextNumber)
      ensures conn.transactions == old(conn.transactions)
    {
      if account.number in conn.accounts {
        conn.accounts := conn.accounts[account.number := account];
      }
    }
  }
}
