/**
 * The review pass of a bank-statement import (ImportProcessView.get_context_data):
 * one scan over the parsed batch finds the range of book dates and attaches an
 * opposing account to every record whose IBAN is known; the existing ledger
 * transactions of that date range are reduced to a set of fingerprints; every
 * record whose own fingerprint is in that set is flagged as a probable duplicate.
 */
module ImportReview {
  import opened Wrappers
  import opened Ledger

  /**
   * A record as produced by a statement parser, with the two annotations the
   * review pass writes: the resolved opposing account and the ignore flag.
   * iban is None when the record's IBAN attribute holds None; account is None
   * when the record has no account with an id.
   */
  datatype RawRecord = RawRecord(
    bookDate: Date,
    transactionDate: Date,
    amount: int,
    title: string,
    iban: Option<string>,
    account: Option<Account>,
    ignore: bool)

  // ---------------------------------------------------------------------------
  // IBAN -> account index
  // ---------------------------------------------------------------------------

  /** The position of the last account carrying the IBAN k, or -1 when none carries it. */
  function LastWithIban(accounts: seq<Account>, k: string): (j: int)
    ensures -1 <= j < |accounts|
    ensures j >= 0 ==> accounts[j].iban == k && forall j' :: j < j' < |accounts| ==> accounts[j'].iban != k
    ensures j == -1 ==> forall j' :: 0 <= j' < |accounts| ==> accounts[j'].iban != k
  {
    if accounts == [] then -1
    else if accounts[|accounts| - 1].iban == k then |accounts| - 1
    else LastWithIban(accounts[..|accounts| - 1], k)
  }

  /**
   * The dictionary { a.iban: a } built over every account whose IBAN is not
   * empty; when several accounts share an IBAN the last one wins.
   */
  function IbanIndex(accounts: seq<Account>): (m: map<string, Account>)
    ensures forall k :: k in m <==> k != "" && LastWithIban(accounts, k) >= 0
    ensures forall k :: k in m ==> m[k] == accounts[LastWithIban(accounts, k)]
  {
    if accounts == [] then map[]
    else
      var init := accounts[..|accounts| - 1];
      var a := accounts[|accounts| - 1];
      var m := IbanIndex(init);
      if a.iban == "" then m else m[a.iban := a]
  }

  /** The record carries a non-empty IBAN that is a key of the index. */
  predicate HasKnownIban(r: RawRecord, ibans: map<string, Account>)
  {
    r.iban.Some? && r.iban.value != "" && r.iban.value in ibans
  }

  /** The account attachment of the scan loop, for one record. */
  function Resolve(r: RawRecord, ibans: map<string, Account>): RawRecord
  {
    if HasKnownIban(r, ibans) then r.(account := Some(ibans[r.iban.value])) else r
  }

  /** A record's new account is the index entry of its IBAN if it has a known one, and otherwise its old account. */
  lemma ResolveAttachesByIban(r: RawRecord, ibans: map<string, Account>)
    ensures !HasKnownIban(r, ibans) ==> Resolve(r, ibans) == r
    ensures HasKnownIban(r, ibans) ==> Resolve(r, ibans).account == Some(ibans[r.iban.value])
    ensures Resolve(r, ibans).(account := r.account) == r
  {
  }

  // ---------------------------------------------------------------------------
  // Date bounds of a batch
  // ---------------------------------------------------------------------------

  /** The lower bound after scanning rs: seeded with 3000-01-01, lowered by every earlier book date. */
  function MinBookDate(rs: seq<RawRecord>): Date
  {
    if rs == [] then Year3000
    else
      var m := MinBookDate(rs[..|rs| - 1]);
      var d := rs[|rs| - 1].bookDate;
      if d < m then d else m
  }

  /** The upper bound after scanning rs: seeded with 1970-01-01, raised by every later book date. */
  function MaxBookDate(rs: seq<RawRecord>): Date
  {
    if rs == [] then Epoch
    else
      var m := MaxBookDate(rs[..|rs| - 1]);
      var d := rs[|rs| - 1].bookDate;
      if d > m then d else m
  }

  lemma SeedDays()
    ensures Epoch == 0 && Year3000 == 376200
  {
  }

  /**
   * Every record's book date lies within the bounds; an empty batch leaves the
   * seeds in place, a degenerate range whose lower end is above its upper end.
   */
  lemma {:induction false} BoundsContainBatch(rs: seq<RawRecord>)
    ensures MinBookDate(rs) <= Year3000 && MaxBookDate(rs) >= Epoch
    ensures forall i :: 0 <= i < |rs| ==> MinBookDate(rs) <= rs[i].bookDate <= MaxBookDate(rs)
    ensures rs == [] ==> MinBookDate(rs) == Year3000 && MaxBookDate(rs) == Epoch && MinBookDate(rs) > MaxBookDate(rs)
  {
    SeedDays();
    if rs != [] {
      var init := rs[..|rs| - 1];
      BoundsContainBatch(init);
      assert forall i :: 0 <= i < |init| ==> init[i] == rs[i];
    }
  }

  /** Each bound is its seed or the book date of some record. */
  lemma {:induction false} BoundsFromSeedOrBatch(rs: seq<RawRecord>)
    ensures MinBookDate(rs) == Year3000 || exists i :: 0 <= i < |rs| && MinBookDate(rs) == rs[i].bookDate
    ensures MaxBookDate(rs) == Epoch || exists i :: 0 <= i < |rs| && MaxBookDate(rs) == rs[i].bookDate
  {
    if rs != [] {
      var init := rs[..|rs| - 1];
      BoundsFromSeedOrBatch(init);
      assert forall i :: 0 <= i < |init| ==> init[i] == rs[i];
    }
  }

  /**
   * A bound moves off its seed as soon as one book date reaches it, and then
   * it equals the book date of some record; so for a batch dated between the
   * two seeds both bounds are book dates of the batch.
   */
  lemma BoundsAttained(rs: seq<RawRecord>)
    ensures (exists i :: 0 <= i < |rs| && rs[i].bookDate <= Year3000) ==>
      exists i :: 0 <= i < |rs| && MinBookDate(rs) == rs[i].bookDate
    ensures (exists i :: 0 <= i < |rs| && rs[i].bookDate >= Epoch) ==>
      exists i :: 0 <= i < |rs| && MaxBookDate(rs) == rs[i].bookDate
  {
    BoundsFromSeedOrBatch(rs);
    BoundsContainBatch(rs);
  }

  // ---------------------------------------------------------------------------
  // Fingerprints of existing transactions
  // ---------------------------------------------------------------------------

  /** The key (account id, date, amount) under which a booking is recognised again. */
  datatype Fingerprint = Fingerprint(account: int, date: Date, amount: int)

  /**
   * The fingerprint t leaves on one of its accounts. An unset id contributes
   * nothing: the source would format it as 'None-...', which no record's
   * account id can match.
   */
  function Leg(id: Option<int>, t: Transaction): set<Fingerprint>
  {
    if id.Some? then {Fingerprint(id.value, t.date, t.amount)} else {}
  }

  /**
   * What one existing transaction adds to the set: its source and its
   * destination for a transfer, its source for a deposit, its destination
   * for a withdrawal, nothing for any other type.
   */
  function EntryFingerprints(t: Transaction): set<Fingerprint>
  {
    match t.kind
    case Some(Transfer) => Leg(t.src, t) + Leg(t.dst, t)
    case Some(Deposit) => Leg(t.src, t)
    case Some(Withdraw) => Leg(t.dst, t)
    case _ => {}
  }

  /** The fingerprints of a transaction are exactly its contributing accounts, each with its date and amount. */
  lemma EntryFingerprintsMembers(t: Transaction, f: Fingerprint)
    ensures f in EntryFingerprints(t) <==>
      f.date == t.date && f.amount == t.amount &&
      ((t.kind in {Some(Transfer), Some(Deposit)} && t.src == Some(f.account)) ||
       (t.kind in {Some(Transfer), Some(Withdraw)} && t.dst == Some(f.account)))
  {
  }

  /** The union of the fingerprints of all transactions in txs. */
  function FingerprintSet(txs: seq<Transaction>): set<Fingerprint>
  {
    if txs == [] then {} else FingerprintSet(txs[..|txs| - 1]) + EntryFingerprints(txs[|txs| - 1])
  }

  lemma {:induction false} FingerprintSetMembers(txs: seq<Transaction>, f: Fingerprint)
    ensures f in FingerprintSet(txs) <==> exists k :: 0 <= k < |txs| && f in EntryFingerprints(txs[k])
  {
    if txs != [] {
      var init := txs[..|txs| - 1];
      FingerprintSetMembers(init, f);
      assert forall k :: 0 <= k < |init| ==> init[k] == txs[k];
    }
  }

  /** The transactions whose date lies in [lo, hi], in ledger order. */
  function DateRange(txs: seq<Transaction>, lo: Date, hi: Date): (r: seq<Transaction>)
    ensures forall k :: 0 <= k < |r| ==> lo <= r[k].date <= hi
  {
    if txs == [] then []
    else
      var t := txs[|txs| - 1];
      DateRange(txs[..|txs| - 1], lo, hi) + (if lo <= t.date <= hi then [t] else [])
  }

  /**
   * Restricting the ledger to the date range loses no fingerprint whose date
   * lies in the range.
   */
  lemma {:induction false} DateRangeKeepsFingerprints(txs: seq<Transaction>, lo: Date, hi: Date, f: Fingerprint)
    requires lo <= f.date <= hi
    ensures f in FingerprintSet(DateRange(txs, lo, hi)) <==> f in FingerprintSet(txs)
  {
    if txs != [] {
      var init := txs[..|txs| - 1];
      var t := txs[|txs| - 1];
      DateRangeKeepsFingerprints(init, lo, hi, f);
      EntryFingerprintsMembers(t, f);
      var r := DateRange(init, lo, hi);
      assert FingerprintSet(txs) == FingerprintSet(init) + EntryFingerprints(t);
      if lo <= t.date <= hi {
        assert DateRange(txs, lo, hi) == r + [t];
        assert (r + [t])[..|r + [t]| - 1] == r;
      } else {
        assert DateRange(txs, lo, hi) == r + [];
        assert r + [] == r;
        assert f !in EntryFingerprints(t);
      }
    }
  }

  // ---------------------------------------------------------------------------
  // Duplicate marking
  // ---------------------------------------------------------------------------

  /** The fingerprint a record is looked up under, when it has an account with an id. */
  function RecordFingerprint(r: RawRecord): Option<Fingerprint>
  {
    if r.account.Some? then Some(Fingerprint(r.account.value.id, r.bookDate, Abs(r.amount))) else None
  }

  /** The ignore marking of the last loop, for one record. */
  function Mark(r: RawRecord, fps: set<Fingerprint>): RawRecord
  {
    if RecordFingerprint(r).Some? && RecordFingerprint(r).value in fps then r.(ignore := true) else r
  }

  /** The whole review pass as a function of the parsed batch, the accounts and the ledger. */
  function ReviewSpec(rs: seq<RawRecord>, accounts: seq<Account>, ledger: seq<Transaction>): (out: seq<RawRecord>)
    ensures |out| == |rs|
  {
    var ibans := IbanIndex(accounts);
    var fps := FingerprintSet(DateRange(ledger, MinBookDate(rs), MaxBookDate(rs)));
    seq(|rs|, i requires 0 <= i < |rs| => Mark(Resolve(rs[i], ibans), fps))
  }

  /**
   * What the review pass does to record i: its account is replaced only
   * through a known non-empty IBAN; it is flagged exactly when it was flagged
   * already or its resolved account, book date and |amount| match a
   * fingerprint of some ledger transaction; nothing else about it changes.
   */
  lemma ReviewOutcome(rs: seq<RawRecord>, accounts: seq<Account>, ledger: seq<Transaction>, i: int)
    requires 0 <= i < |rs|
    ensures var ibans := IbanIndex(accounts);
      ReviewSpec(rs, accounts, ledger)[i].account ==
        if HasKnownIban(rs[i], ibans) then Some(ibans[rs[i].iban.value]) else rs[i].account
    ensures var out := ReviewSpec(rs, accounts, ledger)[i];
      out.ignore <==> (rs[i].ignore ||
        (out.account.Some? && Fingerprint(out.account.value.id, rs[i].bookDate, Abs(rs[i].amount)) in FingerprintSet(ledger)))
    ensures ReviewSpec(rs, accounts, ledger)[i].(account := rs[i].account, ignore := rs[i].ignore) == rs[i]
  {
    var ibans := IbanIndex(accounts);
    var lo, hi := MinBookDate(rs), MaxBookDate(rs);
    var r := Resolve(rs[i], ibans);
    BoundsContainBatch(rs);
    if r.account.Some? {
      DateRangeKeepsFingerprints(ledger, lo, hi, Fingerprint(r.account.value.id, rs[i].bookDate, Abs(rs[i].amount)));
    }
  }

  /**
   * A record left without an account is never flagged by the review: its
   * ignore flag comes out exactly as it went in.
   */
  lemma UnresolvedNeverMarked(rs: seq<RawRecord>, accounts: seq<Account>, ledger: seq<Transaction>, i: int)
    requires 0 <= i < |rs|
    requires rs[i].account.None? && !HasKnownIban(rs[i], IbanIndex(accounts))
    ensures ReviewSpec(rs, accounts, ledger)[i].account.None?
    ensures ReviewSpec(rs, accounts, ledger)[i].ignore == rs[i].ignore
  {
    ReviewOutcome(rs, accounts, ledger, i);
  }

  /**
   * A ledger withdrawal to account a on day d of amount x flags an imported
   * outflow of -x booked on day d whose IBAN resolves to a.
   */
  lemma WithdrawalFlagsOutflow(rs: seq<RawRecord>, accounts: seq<Account>, ledger: seq<Transaction>, i: int, k: int)
    requires 0 <= i < |rs| && 0 <= k < |ledger|
    requires HasKnownIban(rs[i], IbanIndex(accounts))
    requires ledger[k].kind == Some(Withdraw)
    requires ledger[k].dst == Some(IbanIndex(accounts)[rs[i].iban.value].id)
    requires ledger[k].date == rs[i].bookDate && ledger[k].amount >= 0 && rs[i].amount == -ledger[k].amount
    ensures ReviewSpec(rs, accounts, ledger)[i].ignore
  {
    var a := IbanIndex(accounts)[rs[i].iban.value];
    var f := Fingerprint(a.id, rs[i].bookDate, Abs(rs[i].amount));
    assert f in EntryFingerprints(ledger[k]);
    assert f in FingerprintSet(ledger) by {
      FingerprintSetMembers(ledger, f);
    }
    ReviewOutcome(rs, accounts, ledger, i);
  }

  // ---------------------------------------------------------------------------
  // The batch under review, annotated in place
  // ---------------------------------------------------------------------------

  /** Builds the fingerprint set with one pass over the transactions of the date range. */
  method CollectFingerprints(txs: seq<Transaction>) returns (fps: set<Fingerprint>)
    ensures fps == FingerprintSet(txs)
    ensures forall f :: f in fps <==> exists k :: 0 <= k < |txs| && f in EntryFingerprints(txs[k])
  {
    fps := {};
    var i := 0;
    while i < |txs|
      invariant 0 <= i <= |txs|
      invariant fps == FingerprintSet(txs[..i])
    {
      var t := txs[i];
      if t.kind == Some(Transfer) {
        if t.src.Some? { fps := fps + {Fingerprint(t.src.value, t.date, t.amount)}; }
        if t.dst.Some? { fps := fps + {Fingerprint(t.dst.value, t.date, t.amount)}; }
      } else if t.kind == Some(Deposit) {
        if t.src.Some? { fps := fps + {Fingerprint(t.src.value, t.date, t.amount)}; }
      } else if t.kind == Some(Withdraw) {
        if t.dst.Some? { fps := fps + {Fingerprint(t.dst.value, t.date, t.amount)}; }
      }
      assert txs[..i + 1][..i] == txs[..i];
      i := i + 1;
    }
    assert txs[..i] == txs;
    forall f ensures f in fps <==> exists k :: 0 <= k < |txs| && f in EntryFingerprints(txs[k]) {
      FingerprintSetMembers(txs, f);
    }
  }

  class ImportBatch {
    /** The parsed records, in the order of the statement file. */
    var records: array<RawRecord>

    constructor (parsed: seq<RawRecord>)
      ensures fresh(records) && records[..] == parsed
    {
      records := new RawRecord[|parsed|](i requires 0 <= i < |parsed| => parsed[i]);
    }

    /** The first loop: date bounds and account attachment through the IBAN index. */
    method ScanBatch(ibans: map<string, Account>) returns (minDate: Date, maxDate: Date)
      modifies records
      ensures minDate == MinBookDate(old(records[..])) && maxDate == MaxBookDate(old(records[..]))
      ensures forall i :: 0 <= i < records.Length ==> records[i] == Resolve(old(records[i]), ibans)
    {
      ghost var parsed := records[..];
      minDate, maxDate := Year3000, Epoch;
      var i := 0;
      while i < records.Length
        invariant 0 <= i <= records.Length
        invariant minDate == MinBookDate(parsed[..i]) && maxDate == MaxBookDate(parsed[..i])
        invariant forall j :: 0 <= j < i ==> records[j] == Resolve(parsed[j], ibans)
        invariant forall j :: i <= j < records.Length ==> records[j] == parsed[j]
      {
        var datum := records[i];
        assert parsed[..i + 1][..i] == parsed[..i];
        if datum.bookDate < minDate {
          minDate := datum.bookDate;
        }
        if datum.bookDate > maxDate {
          maxDate := datum.bookDate;
        }
        if datum.iban.Some? && datum.iban.value != "" && datum.iban.value in ibans {
          records[i] := datum.(account := Some(ibans[datum.iban.value]));
        }
        i := i + 1;
      }
      assert parsed[..i] == parsed;
    }

    /** The last loop: flag every record whose fingerprint is in fps. */
    method MarkDuplicates(fps: set<Fingerprint>)
      modifies records
      ensures forall i :: 0 <= i < records.Length ==> records[i] == Mark(old(records[i]), fps)
      ensures forall i :: 0 <= i < records.Length ==>
        (records[i].ignore <==> (old(records[i]).ignore || (old(records[i]).account.Some? &&
          Fingerprint(old(records[i]).account.value.id, old(records[i]).bookDate, Abs(old(records[i]).amount)) in fps)))
    {
      var i := 0;
      while i < records.Length
        invariant 0 <= i <= records.Length
        invariant forall j :: 0 <= j < i ==> records[j] == Mark(old(records[j]), fps)
        invariant forall j :: i <= j < records.Length ==> records[j] == old(records[j])
      {
        var datum := records[i];
        if datum.account.Some? && Fingerprint(datum.account.value.id, datum.bookDate, Abs(datum.amount)) in fps {
          records[i] := datum.(ignore := true);
        }
        i := i + 1;
      }
    }

    /**
     * The review pass: index the accounts by IBAN, scan the batch, collect the
     * fingerprints of the ledger transactions within the bounds, flag duplicates.
     */
    method Review(accounts: seq<Account>, ledger: seq<Transaction>) returns (minDate: Date, maxDate: Date)
      modifies records
      ensures minDate == MinBookDate(old(records[..])) && maxDate == MaxBookDate(old(records[..]))
      ensures records[..] == ReviewSpec(old(records[..]), accounts, ledger)
    {
      ghost var parsed := records[..];
      var ibans := IbanIndex(accounts);
      minDate, maxDate := ScanBatch(ibans);
      var fps := CollectFingerprints(DateRange(ledger, minDate, maxDate));
      MarkDuplicates(fps);
      assert forall i :: 0 <= i < records.Length ==> records[i] == Mark(Resolve(parsed[i], ibans), fps);
    }
  }
}
