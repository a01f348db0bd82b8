/**
 * The ledger entities the import views read and write: accounts, transaction
 * headers and the splits (double-entry legs) of each transaction.
 *
 * Dates are day numbers counted from 1970-01-01 (day 0); amounts are whole
 * minor units (cents), so the Decimal and float arithmetic of the views
 * becomes exact integer arithmetic.
 */
module Ledger {
  import opened Wrappers

  /** A calendar day, as the number of days since 1970-01-01. */
  type Date = int

  /** Number of leap years among the years 1 .. y of the Gregorian calendar. */
  function LeapYearsThrough(y: nat): nat
  {
    y / 4 - y / 100 + y / 400
  }

  /** The day number of January 1st of year y (y >= 1970). */
  function NewYear(y: nat): (d: Date)
    requires y >= 1970
    ensures d >= 0
    ensures y > 1970 ==> d >= 365 * (y - 1970)
  {
    365 * (y - 1970) + LeapYearsThrough(y - 1) - LeapYearsThrough(1969)
  }

  /** date(1970, 1, 1): the seed of the upper date bound of an import batch. */
  const Epoch: Date := NewYear(1970)

  /** date(3000, 1, 1): the seed of the lower date bound of an import batch. */
  const Year3000: Date := NewYear(3000)

  function Abs(x: int): (r: nat)
    ensures r == x || r == -x
  {
    if x < 0 then -x else x
  }

  /** PERSONAL and FOREIGN are the two account types the views branch on; every other type is Other. */
  datatype AccountType = Personal | Foreign | Other

  /** An account as stored in the ledger; an empty iban stands for "no IBAN". */
  datatype Account = Account(id: int, name: string, iban: string, kind: AccountType)

  /** TRANSFER, WITHDRAW and DEPOSIT are the types the views read or write; every other type is Other. */
  datatype TransactionType = Transfer | Withdraw | Deposit | OtherTransaction

  /**
   * A transaction header. kind, src and dst are None when the code that
   * builds the header never assigned them; amount is a magnitude.
   */
  datatype Transaction = Transaction(
    kind: Option<TransactionType>,
    src: Option<int>,
    dst: Option<int>,
    title: string,
    date: Date,
    amount: int,
    recurrence: Option<int>)

  /**
   * One leg of a transaction: the signed amount booked on account, against
   * opposing. transaction is the index of its header in the ledger's sequence
   * of transactions.
   */
  datatype Split = Split(
    title: string,
    amount: int,
    date: Date,
    transaction: nat,
    account: int,
    opposing: int)
}
