/** How `Bank.bankStatement` turns each entry of an account's statement into a
    signed line, seen from the queried account. */
module StatementLines {
  import opened Wrappers
  import opened Entities

  /** `[+]`, `[-]`, or the empty sign string. */
  datatype Sign = Plus | Minus | Unsigned

  /** The ` TO: n` / ` FROM: n` suffix, or none. */
  datatype Counterparty = NoCounterparty | To(number: int) | From(number: int)

  datatype StatementLine = StatementLine(
    sign: Sign, kind: TransactionType, counterparty: Counterparty, value: Money, date: Date)

  /** The source dereferences the origin account of an inbound transfer. */
  predicate Classifiable(t: Transaction, n: int) {
    (t.kind == TRANSFER && t.transferAccount.Some? && t.transferAccount.value.number == n) ==>
      t.originAccount.Some?
  }

  function Classify(t: Transaction, n: int): (line: StatementLine)
    requires Classifiable(t, n)
    ensures line.kind == t.kind && line.value == t.value && line.date == t.date
    ensures t.kind == DEPOSIT ==> line.sign == Plus && line.counterparty == NoCounterparty
    ensures t.kind == WITHDRAWAL ==> line.sign == Minus && line.counterparty == NoCounterparty
    ensures t.kind == TRANSFER && t.transferAccount.None? ==>
      line.sign == Unsigned && line.counterparty == NoCounterparty
    ensures t.kind == TRANSFER && t.transferAccount.Some? ==>
      (line.sign == Plus <==> t.transferAccount.value.number == n) &&
      (line.sign == Plus ==> line.counterparty == From(t.originAccount.value.number)) &&
      (line.sign != Plus ==> line.sign == Minus && line.counterparty == To(t.transferAccount.value.number))
  {
    match t.kind
    case DEPOSIT => StatementLine(Plus, t.kind, NoCounterparty, t.value, t.date)
    case WITHDRAWAL => StatementLine(Minus, t.kind, NoCounterparty, t.value, t.date)
    case TRANSFER =>
      if t.transferAccount.None? then StatementLine(Unsigned, t.kind, NoCounterparty, t.value, t.date)
      else if t.transferAccount.value.number == n then
        StatementLine(Plus, t.kind, From(t.originAccount.value.number), t.value, t.date)
      else StatementLine(Minus, t.kind, To(t.transferAccount.value.number), t.value, t.date)
  }

  predicate AllClassifiable(ts: seq<Transaction>, n: int) {
    forall k :: 0 <= k < |ts| ==> Classifiable(ts[k], n)
  }

  function ClassifyAll(ts: seq<Transaction>, n: int): (lines: seq<StatementLine>)
    requires AllClassifiable(ts, n)
    ensures |lines| == |ts|
    ensures forall k :: 0 <= k < |ts| ==> lines[k] == Classify(ts[k], n)
    decreases |ts|
  {
    if ts == [] then [] else ClassifyAll(ts[..|ts| - 1], n) + [Classify(ts[|ts| - 1], n)]
  }

  /** The amount a line adds to the account: `+value`, `-value`, or nothing. */
  function SignedAmount(line: StatementLine): Money {
    match line.sign
    case Plus => line.value
    case Minus => -line.value
    case Unsigned => 0.0
  }

  function SignedTotal(lines: seq<StatementLine>): Money
    decreases |lines|
  {
    if lines == [] then 0.0 else SignedTotal(lines[..|lines| - 1]) + SignedAmount(lines[|lines| - 1])
  }

  /** One more classifiable entry adds exactly its own signed amount. */
  lemma SignedTotalAppend(ts: seq<Transaction>, t: Transaction, n: int)
    requires AllClassifiable(ts, n) && Classifiable(t, n)
    ensures AllClassifiable(ts + [t], n)
    ensures SignedTotal(ClassifyAll(ts + [t], n)) == SignedTotal(ClassifyAll(ts, n)) + SignedAmount(Classify(t, n))
  {
    var all := ts + [t];
    assert all[..|all| - 1] == ts;
    var lines := ClassifyAll(all, n);
    assert lines[..|lines| - 1] == ClassifyAll(ts, n);
  }

  /** One transfer seen from both ends: an outflow to the target on the
      origin's statement and an inflow from the origin of the same amount on
      the target's, so the two lines cancel. */
  lemma TransferMirrors(t: Transaction, origin: int, target: int)
    requires t.kind == TRANSFER && origin != target
    requires t.originAccount.Some? && t.originAccount.value.number == origin
    requires t.transferAccount.Some? && t.transferAccount.value.number == target
    ensures Classify(t, origin) == StatementLine(Minus, TRANSFER, To(target), t.value, t.date)
    ensures Classify(t, target) == StatementLine(Plus, TRANSFER, From(origin), t.value, t.date)
    ensures SignedAmount(Classify(t, origin)) + SignedAmount(Classify(t, target)) == 0.0
  {
  }
}
