/**
 * The confirmation pass of a bank-statement import (ImportProcessView.post):
 * for every row of the re-parsed batch, read the fields the user submitted,
 * skip the row on the skip rules, find or create the opposing account by name,
 * classify the booking as a transfer, withdrawal or deposit, and write one
 * transaction header with its two opposite splits.
 */
module ImportConfirm {
  import opened Wrappers
  import opened Ledger
  import opened ImportReview

  // ---------------------------------------------------------------------------
  // Submitted fields
  // ---------------------------------------------------------------------------

  /** The fields title-i, account-i, recurrence-i and ignore-i submitted for row i. */
  datatype RowForm = RowForm(title: string, account: string, recurrence: int, ignore: string)

  /** What a row reads when a field was not submitted: '', '', -1 and ''. */
  const Unsubmitted: RowForm := RowForm("", "", -1, "")

  /** The submitted fields of row i, with the defaults for fields that are missing. */
  function FormRow(form: map<nat, RowForm>, i: nat): RowForm
  {
    if i in form then form[i] else Unsubmitted
  }

  /** A row is skipped when its title or account name is blank, its ignore field is set, or its amount is zero. */
  predicate Skipped(f: RowForm, rec: RawRecord)
  {
    f.title == "" || f.account == "" || f.ignore != "" || rec.amount == 0
  }

  // ---------------------------------------------------------------------------
  // Classification
  // ---------------------------------------------------------------------------

  /** The type, source and destination a row assigns to its transaction header; None where nothing is assigned. */
  datatype Classification = Classification(kind: Option<TransactionType>, src: Option<int>, dst: Option<int>)

  /**
   * The branch on the opposing account's type: a personal account makes a
   * transfer, a foreign one a withdrawal (negative amount) or a deposit;
   * money flows from the imported account when the amount is negative and
   * into it otherwise. Any other account type assigns nothing.
   */
  function Classify(opposing: AccountType, amount: int, thisId: int, opposingId: int): (c: Classification)
    ensures c.kind == Some(Transfer) <==> opposing == Personal
    ensures c.kind == Some(Withdraw) <==> opposing == Foreign && amount < 0
    ensures c.kind == Some(Deposit) <==> opposing == Foreign && amount >= 0
    ensures c.kind.None? <==> opposing == Other
    ensures c.kind.Some? && amount < 0 ==> c.src == Some(thisId) && c.dst == Some(opposingId)
    ensures c.kind.Some? && amount >= 0 ==> c.src == Some(opposingId) && c.dst == Some(thisId)
    ensures c.kind.None? ==> c.src.None? && c.dst.None?
  {
    match opposing
    case Personal =>
      if amount < 0 then Classification(Some(Transfer), Some(thisId), Some(opposingId))
      else Classification(Some(Transfer), Some(opposingId), Some(thisId))
    case Foreign =>
      if amount < 0 then Classification(Some(Withdraw), Some(thisId), Some(opposingId))
      else Classification(Some(Deposit), Some(opposingId), Some(thisId))
    case Other => Classification(None, None, None)
  }

  // ---------------------------------------------------------------------------
  // The ledger as a value
  // ---------------------------------------------------------------------------

  /**
   * The part of the ledger the confirmation pass reads and writes: the
   * accounts by name, the id the next created account receives, the
   * transaction headers and the splits.
   */
  datatype Books = Books(accounts: map<string, Account>, nextId: int, transactions: seq<Transaction>, splits: seq<Split>)

  /** The two splits of one transaction balance, name each other's account, and carry the header's amount. */
  predicate BalancedPair(t: Transaction, s: Split, s': Split, k: nat)
  {
    && s.transaction == k && s'.transaction == k
    && s.amount + s'.amount == 0
    && s.opposing == s'.account && s'.opposing == s.account
    && t.amount > 0 && Abs(s.amount) == t.amount
  }

  /**
   * The invariant of the books: accounts are filed under their names with ids
   * below nextId, and transaction k owns exactly the splits 2k and 2k+1,
   * which balance.
   */
  predicate WellFormed(b: Books)
  {
    && (forall n :: n in b.accounts ==> b.accounts[n].name == n && b.accounts[n].id < b.nextId)
    && |b.splits| == 2 * |b.transactions|
    && (forall k :: 0 <= k < |b.transactions| ==> BalancedPair(b.transactions[k], b.splits[2 * k], b.splits[2 * k + 1], k))
  }

  /** get_or_create by name: the stored account, or a new foreign account with the next id. */
  function FindOrCreate(b: Books, name: string): (acc: Account)
  {
    if name in b.accounts then b.accounts[name] else Account(b.nextId, name, "", Foreign)
  }

  /** An account without an IBAN takes the row's IBAN when the row has one. */
  function Backfill(acc: Account, iban: Option<string>): (acc': Account)
  {
    if acc.iban == "" && iban.Some? then acc.(iban := iban.value) else acc
  }

  /** The opposing account of an accepted row, after the IBAN backfill. */
  function Opposing(b: Books, rec: RawRecord, f: RowForm): Account
  {
    Backfill(FindOrCreate(b, f.account), rec.iban)
  }

  function BuildTransaction(thisId: int, acc: Account, rec: RawRecord, f: RowForm): Transaction
  {
    var c := Classify(acc.kind, rec.amount, thisId, acc.id);
    Transaction(c.kind, c.src, c.dst, f.title, rec.transactionDate, Abs(rec.amount),
                if f.recurrence > 0 then Some(f.recurrence) else None)
  }

  function BuildSplits(thisId: int, acc: Account, rec: RawRecord, title: string, k: nat): seq<Split>
  {
    [Split(title, rec.amount, rec.bookDate, k, thisId, acc.id),
     Split(title, -rec.amount, rec.transactionDate, k, acc.id, thisId)]
  }

  /** One iteration of the confirmation loop, on the books. */
  function ConfirmRow(b: Books, thisId: int, rec: RawRecord, f: RowForm): Books
  {
    if Skipped(f, rec) then b
    else
      var acc := Opposing(b, rec, f);
      var k := |b.transactions|;
      Books(b.accounts[f.account := acc],
            if f.account in b.accounts then b.nextId else b.nextId + 1,
            b.transactions + [BuildTransaction(thisId, acc, rec, f)],
            b.splits + BuildSplits(thisId, acc, rec, f.title, k))
  }

  /** The first n iterations of the confirmation loop. */
  function ConfirmRows(b: Books, thisId: int, data: seq<RawRecord>, form: map<nat, RowForm>, n: nat): Books
    requires n <= |data|
  {
    if n == 0 then b
    else ConfirmRow(ConfirmRows(b, thisId, data, form, n - 1), thisId, data[n - 1], FormRow(form, n - 1))
  }

  /** The number of rows among the first n that are not skipped. */
  function AcceptedRows(data: seq<RawRecord>, form: map<nat, RowForm>, n: nat): nat
    requires n <= |data|
  {
    if n == 0 then 0
    else AcceptedRows(data, form, n - 1) + (if Skipped(FormRow(form, n - 1), data[n - 1]) then 0 else 1)
  }

  // ---------------------------------------------------------------------------
  // Properties of one row
  // ---------------------------------------------------------------------------

  /** A skipped row creates no account, no transaction and no split. */
  lemma SkippedRowChangesNothing(b: Books, thisId: int, rec: RawRecord, f: RowForm)
    requires f.title == "" || f.account == "" || f.ignore != "" || rec.amount == 0
    ensures ConfirmRow(b, thisId, rec, f) == b
  {
  }

  /**
   * An accepted row appends one header: its amount is the row's |amount|,
   * strictly positive, dated at the transaction date, with the submitted
   * title, linked to a recurrence exactly when the selector is positive, and
   * typed, sourced and destined as the classification of its opposing account says.
   */
  lemma AcceptedRowHeader(b: Books, thisId: int, rec: RawRecord, f: RowForm)
    requires !Skipped(f, rec)
    ensures var b' := ConfirmRow(b, thisId, rec, f);
      |b'.transactions| == |b.transactions| + 1 && b'.transactions[..|b.transactions|] == b.transactions
    ensures var t := ConfirmRow(b, thisId, rec, f).transactions[|b.transactions|];
      && t.amount > 0 && (t.amount == rec.amount || t.amount == -rec.amount)
      && t.date == rec.transactionDate && t.title == f.title
      && (t.recurrence.Some? <==> f.recurrence > 0)
      && (t.recurrence.Some? ==> t.recurrence.value == f.recurrence)
    ensures var t := ConfirmRow(b, thisId, rec, f).transactions[|b.transactions|];
      var acc := Opposing(b, rec, f);
      Classification(t.kind, t.src, t.dst) == Classify(acc.kind, rec.amount, thisId, acc.id)
  {
    var b' := ConfirmRow(b, thisId, rec, f);
    assert b'.transactions[..|b.transactions|] == b.transactions;
  }

  /**
   * An accepted row appends exactly two splits that balance: the first is on
   * the imported account against the opposing one at the book date, with the
   * row's amount; the second is the mirror image at the transaction date.
   * Both carry the submitted title.
   */
  lemma AcceptedRowSplits(b: Books, thisId: int, rec: RawRecord, f: RowForm)
    requires !Skipped(f, rec)
    ensures var b' := ConfirmRow(b, thisId, rec, f);
      |b'.splits| == |b.splits| + 2 && b'.splits[..|b.splits|] == b.splits
    ensures var b' := ConfirmRow(b, thisId, rec, f);
      var s, s' := b'.splits[|b.splits|], b'.splits[|b.splits| + 1];
      var acc := b'.accounts[f.account];
      && acc == Opposing(b, rec, f)
      && s.amount + s'.amount == 0 && s.amount == rec.amount
      && s.account == thisId && s.opposing == acc.id && s.date == rec.bookDate
      && s'.account == acc.id && s'.opposing == thisId && s'.date == rec.transactionDate
      && s.transaction == s'.transaction == |b.transactions|
      && s.title == f.title && s'.title == f.title
  {
    var b' := ConfirmRow(b, thisId, rec, f);
    assert b'.splits[..|b.splits|] == b.splits;
  }

  /**
   * The signs of the splits agree with the direction of the classified
   * header: the split on the source account is the outflow (minus the
   * header's amount), the split on the destination account the inflow.
   */
  lemma SplitsFollowMoney(b: Books, thisId: int, rec: RawRecord, f: RowForm)
    requires !Skipped(f, rec)
    requires Opposing(b, rec, f).id != thisId
    requires Opposing(b, rec, f).kind != Other
    ensures var b' := ConfirmRow(b, thisId, rec, f);
      var t := b'.transactions[|b.transactions|];
      var s, s' := b'.splits[|b.splits|], b'.splits[|b.splits| + 1];
      && t.kind.Some? && t.src.Some? && t.dst.Some?
      && (s.account == t.src.value || s.account == t.dst.value)
      && (s.account == t.src.value ==> s.amount == -t.amount && s'.account == t.dst.value && s'.amount == t.amount)
      && (s.account == t.dst.value ==> s.amount == t.amount && s'.account == t.src.value && s'.amount == -t.amount)
  {
    AcceptedRowSplits(b, thisId, rec, f);
  }

  /**
   * The opposing account of an accepted row is the stored account of that
   * name, or, when there is none, a new foreign account whose id no stored
   * account has; either way it keeps its IBAN unless it had none.
   */
  lemma OpposingAccountFound(b: Books, rec: RawRecord, f: RowForm)
    requires WellFormed(b)
    ensures var acc := Opposing(b, rec, f);
      acc.name == f.account &&
      (f.account in b.accounts ==> acc.id == b.accounts[f.account].id && acc.kind == b.accounts[f.account].kind) &&
      (f.account !in b.accounts ==> acc.kind == Foreign && forall n :: n in b.accounts ==> b.accounts[n].id != acc.id)
    ensures var acc := Opposing(b, rec, f);
      acc.iban == (if FindOrCreate(b, f.account).iban == "" && rec.iban.Some? then rec.iban.value else FindOrCreate(b, f.account).iban)
  {
  }

  /**
   * What an accepted row does to the stored accounts: the opposing account is
   * stored under the submitted name (created by get_or_create, or saved with
   * its backfilled IBAN), the next id advances only when an account is
   * created, and every other stored account is left as it was.
   */
  lemma AcceptedRowAccounts(b: Books, thisId: int, rec: RawRecord, f: RowForm)
    requires !Skipped(f, rec)
    ensures var b' := ConfirmRow(b, thisId, rec, f);
      && b'.accounts.Keys == b.accounts.Keys + {f.account}
      && b'.accounts[f.account] == Opposing(b, rec, f)
      && (forall n :: n in b.accounts && n != f.account ==> b'.accounts[n] == b.accounts[n])
    ensures ConfirmRow(b, thisId, rec, f).nextId == if f.account in b.accounts then b.nextId else b.nextId + 1
  {
  }

  /**
   * The imported account already exists, so its id lies below the next id; an
   * account created for an accepted row then never takes the imported
   * account's id.
   */
  lemma CreatedAccountIsNotImported(b: Books, thisId: int, rec: RawRecord, f: RowForm)
    requires WellFormed(b) && thisId < b.nextId
    requires f.account !in b.accounts
    ensures Opposing(b, rec, f).id != thisId
    ensures forall n :: n in b.accounts ==> b.accounts[n].id != Opposing(b, rec, f).id
  {
  }

  /** One row keeps the books well formed. */
  lemma ConfirmRowKeepsWellFormed(b: Books, thisId: int, rec: RawRecord, f: RowForm)
    requires WellFormed(b)
    ensures WellFormed(ConfirmRow(b, thisId, rec, f))
  {
    if !Skipped(f, rec) {
      var b' := ConfirmRow(b, thisId, rec, f);
      var n := |b.transactions|;
      AcceptedRowHeader(b, thisId, rec, f);
      AcceptedRowSplits(b, thisId, rec, f);
      forall k | 0 <= k < |b'.transactions|
        ensures BalancedPair(b'.transactions[k], b'.splits[2 * k], b'.splits[2 * k + 1], k)
      {
        if k < n {
          assert b'.transactions[k] == b.transactions[k];
          assert b'.splits[2 * k] == b.splits[2 * k];
          assert b'.splits[2 * k + 1] == b.splits[2 * k + 1];
        }
      }
    }
  }

  /**
   * A confirmed row leaves in the ledger a fingerprint of its opposing
   * account on the transaction date with |amount|, whatever its type
   * (personal or foreign), so a later review finds it again.
   */
  lemma AcceptedRowLeavesFingerprint(b: Books, thisId: int, rec: RawRecord, f: RowForm)
    requires !Skipped(f, rec)
    requires Opposing(b, rec, f).kind != Other
    ensures var b' := ConfirmRow(b, thisId, rec, f);
      Fingerprint(Opposing(b, rec, f).id, rec.transactionDate, Abs(rec.amount)) in FingerprintSet(b'.transactions)
  {
    var b' := ConfirmRow(b, thisId, rec, f);
    var acc := Opposing(b, rec, f);
    var fp := Fingerprint(acc.id, rec.transactionDate, Abs(rec.amount));
    var t := BuildTransaction(thisId, acc, rec, f);
    assert fp in EntryFingerprints(t);
    assert b'.transactions[..|b'.transactions| - 1] == b.transactions;
  }

  /**
   * Re-importing a confirmed row: a record on the same opposing account,
   * booked on the confirmed transaction date with the same |amount|, is
   * flagged as a duplicate against the ledger the row was confirmed into.
   */
  lemma ReimportIsFlagged(b: Books, thisId: int, rec: RawRecord, f: RowForm, again: RawRecord)
    requires !Skipped(f, rec)
    requires Opposing(b, rec, f).kind != Other
    requires again.account == Some(Opposing(b, rec, f))
    requires again.bookDate == rec.transactionDate && Abs(again.amount) == Abs(rec.amount)
    ensures Mark(again, FingerprintSet(ConfirmRow(b, thisId, rec, f).transactions)).ignore
  {
    AcceptedRowLeavesFingerprint(b, thisId, rec, f);
  }

  // ---------------------------------------------------------------------------
  // Properties of the whole pass
  // ---------------------------------------------------------------------------

  /**
   * The pass keeps the books well formed, never alters an existing
   * transaction or split, and adds one transaction and two splits per row
   * that is not skipped.
   */
  lemma {:induction false} ConfirmRowsEffect(b: Books, thisId: int, data: seq<RawRecord>, form: map<nat, RowForm>, n: nat)
    requires n <= |data|
    requires WellFormed(b)
    ensures var b' := ConfirmRows(b, thisId, data, form, n);
      && WellFormed(b')
      && |b'.transactions| == |b.transactions| + AcceptedRows(data, form, n)
      && |b'.splits| == |b.splits| + 2 * AcceptedRows(data, form, n)
      && b'.transactions[..|b.transactions|] == b.transactions
      && b'.splits[..|b.splits|] == b.splits
  {
    if n > 0 {
      var prev := ConfirmRows(b, thisId, data, form, n - 1);
      ConfirmRowsEffect(b, thisId, data, form, n - 1);
      var f := FormRow(form, n - 1);
      ConfirmRowKeepsWellFormed(prev, thisId, data[n - 1], f);
      if !Skipped(f, data[n - 1]) {
        AcceptedRowHeader(prev, thisId, data[n - 1], f);
        AcceptedRowSplits(prev, thisId, data[n - 1], f);
        var b' := ConfirmRows(b, thisId, data, form, n);
        assert b'.transactions[..|b.transactions|] == prev.transactions[..|b.transactions|];
        assert b'.splits[..|b.splits|] == prev.splits[..|b.splits|];
      }
    }
  }

  /** The sum of the amounts of a sequence of splits. */
  function SplitTotal(ss: seq<Split>): int
  {
    if ss == [] then 0 else SplitTotal(ss[..|ss| - 1]) + ss[|ss| - 1].amount
  }

  lemma {:induction false} PairsBalance(b: Books, k: nat)
    requires WellFormed(b) && k <= |b.transactions|
    ensures SplitTotal(b.splits[..2 * k]) == 0
  {
    if k > 0 {
      PairsBalance(b, k - 1);
      var p := b.splits[..2 * k];
      assert p[..|p| - 1] == b.splits[..2 * k - 1];
      assert b.splits[..2 * k - 1][..2 * k - 2] == b.splits[..2 * (k - 1)];
      assert BalancedPair(b.transactions[k - 1], b.splits[2 * (k - 1)], b.splits[2 * (k - 1) + 1], k - 1);
    }
  }

  /** Double entry: in well-formed books all split amounts together sum to zero. */
  lemma BooksBalance(b: Books)
    requires WellFormed(b)
    ensures SplitTotal(b.splits) == 0
  {
    PairsBalance(b, |b.transactions|);
    assert b.splits[..2 * |b.transactions|] == b.splits;
  }

  /** A batch in which every row is skipped leaves the books as they were. */
  lemma {:induction false} AllSkippedChangesNothing(b: Books, thisId: int, data: seq<RawRecord>, form: map<nat, RowForm>, n: nat)
    requires n <= |data|
    requires forall i :: 0 <= i < n ==> Skipped(FormRow(form, i), data[i])
    ensures ConfirmRows(b, thisId, data, form, n) == b
  {
    if n > 0 {
      AllSkippedChangesNothing(b, thisId, data, form, n - 1);
    }
  }

  // ---------------------------------------------------------------------------
  // The ledger store, written row by row
  // ---------------------------------------------------------------------------

  class Store {
    var accounts: map<string, Account>
    var nextId: int
    var transactions: seq<Transaction>
    var splits: seq<Split>

    function Snapshot(): Books
      reads this
    {
      Books(accounts, nextId, transactions, splits)
    }

    ghost predicate Valid()
      reads this
    {
      WellFormed(Snapshot())
    }

    constructor (initial: Books)
      requires WellFormed(initial)
      ensures Valid() && Snapshot() == initial
    {
      accounts := initial.accounts;
      nextId := initial.nextId;
      transactions := initial.transactions;
      splits := initial.splits;
    }

    /** get_or_create(name=..., defaults={'account_type': FOREIGN}). */
    method GetOrCreate(name: string) returns (acc: Account)
      modifies this
      ensures acc == FindOrCreate(old(Snapshot()), name)
      ensures accounts == old(accounts)[name := acc]
      ensures nextId == if name in old(accounts) then old(nextId) else old(nextId) + 1
      ensures transactions == old(transactions) && splits == old(splits)
    {
      if name in accounts {
        acc := accounts[name];
      } else {
        acc := Account(nextId, name, "", Foreign);
        accounts := accounts[name := acc];
        nextId := nextId + 1;
      }
    }

    /** The body of the confirmation loop for row i of the re-parsed batch. */
    method ConfirmOne(thisId: int, i: nat, rec: RawRecord, form: map<nat, RowForm>)
      requires Valid()
      modifies this
      ensures Valid()
      ensures Snapshot() == ConfirmRow(old(Snapshot()), thisId, rec, FormRow(form, i))
    {
      ghost var before := Snapshot();
      var row := FormRow(form, i);
      var title, name, recurrence, ignore := row.title, row.account, row.recurrence, row.ignore;
      if !(title != "" && name != "") || ignore != "" {
        return;
      }
      var amount := rec.amount;
      if amount == 0 {
        return;
      }
      var account := GetOrCreate(name);
      if account.iban == "" && rec.iban.Some? {
        account := account.(iban := rec.iban.value);
        accounts := accounts[name := account];
      }
      assert account == Opposing(before, rec, row);
      assert accounts == before.accounts[name := account];
      var kind: Option<TransactionType> := None;
      var src: Option<int> := None;
      var dst: Option<int> := None;
      if account.kind == Personal {
        kind := Some(Transfer);
        if amount < 0 {
          src, dst := Some(thisId), Some(account.id);
        } else {
          src, dst := Some(account.id), Some(thisId);
        }
      } else if account.kind == Foreign {
        if amount < 0 {
          kind := Some(Withdraw);
          src, dst := Some(thisId), Some(account.id);
        } else {
          kind := Some(Deposit);
          dst, src := Some(thisId), Some(account.id);
        }
      }
      assert Classification(kind, src, dst) == Classify(account.kind, amount, thisId, account.id);
      var recurrenceId: Option<int> := None;
      if recurrence > 0 {
        recurrenceId := Some(recurrence);
      }
      transactions := transactions + [Transaction(kind, src, dst, title, rec.transactionDate, Abs(amount), recurrenceId)];
      var k := |transactions| - 1;
      splits := splits + [Split(title, amount, rec.bookDate, k, thisId, account.id)];
      splits := splits + [Split(title, -amount, rec.transactionDate, k, account.id, thisId)];
      assert transactions == before.transactions + [BuildTransaction(thisId, account, rec, row)];
      assert splits == before.splits + BuildSplits(thisId, account, rec, title, k);
      ConfirmRowKeepsWellFormed(before, thisId, rec, row);
    }

    /** The confirmation pass: every row of the batch, in order. */
    method Confirm(thisId: int, data: seq<RawRecord>, form: map<nat, RowForm>)
      requires Valid()
      modifies this
      ensures Valid()
      ensures Snapshot() == ConfirmRows(old(Snapshot()), thisId, data, form, |data|)
    {
      var i := 0;
      while i < |data|
        invariant 0 <= i <= |data|
        invariant Valid()
        invariant Snapshot() == ConfirmRows(old(Snapshot()), thisId, data, form, i)
      {
        ConfirmOne(thisId, i, data[i], form);
        i := i + 1;
      }
    }
  }
}
