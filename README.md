# Bank-statement import of silverstrike, modelled in Dafny

This project models the decision logic of silverstrike's statement import
(`silverstrike/views/imports.py`, class `ImportProcessView`). The view works in
two passes over a parsed bank statement.

- **Review** (`get_context_data`). One scan finds the range of book dates and
  attaches an opposing account to each record whose IBAN is known. The existing
  transactions in that date range become a set of fingerprints
  `(account id, date, amount)`. A record is flagged `ignore` when its own
  fingerprint `(account id, book date, |amount|)` is in that set.
- **Confirmation** (`post`). For each row it reads the submitted title, account
  name, recurrence selector and ignore field, and skips the row on the skip
  rules. Otherwise it finds or creates the opposing account by name, classifies
  the booking as transfer, withdrawal or deposit, and writes one transaction
  header and two balancing splits.

Files and modules:

- `wrappers.dfy` (`Wrappers`): `Option`.
- `ledger.dfy` (`Ledger`): accounts, transaction headers, splits, dates and the
  two date seeds. Dates are day numbers with 1970-01-01 as day 0, so
  3000-01-01 is day 376200. Amounts are integers in minor units (cents).
- `import_review.dfy` (`ImportReview`): the review pass. The class
  `ImportBatch` holds the parsed records in an `array` and annotates them in
  place. The loops are the methods `ScanBatch`, `CollectFingerprints` and
  `MarkDuplicates`, and `Review` runs them in order. Each method is proved
  against specification functions (`MinBookDate`, `MaxBookDate`, `Resolve`,
  `FingerprintSet`, `Mark`, `ReviewSpec`), and the lemmas state what the pass
  promises.
- `import_confirm.dfy` (`ImportConfirm`): the confirmation pass. The class
  `Store` holds the ledger the pass writes: accounts by name, the next account
  id, the transaction headers, and the splits. `ConfirmOne` is one loop
  iteration and assigns the header fields step by step. `Confirm` is the loop.
  Both are proved against `ConfirmRow` and `ConfirmRows`, and they keep the
  invariant `WellFormed`: transaction `k` owns splits `2k` and `2k+1`, and those
  two splits balance.
  The model assumes that the ledger the pass starts from already satisfies
  `WellFormed` (the `Store` constructor, `ConfirmOne` and `Confirm` require it).
  `post` reads none of the existing transactions, so this assumption
  restricts only the starting state, not what a row does.

Modelling choices:

- A record's `account` is `None` when the record has no account with an id.
  This is the `hasattr(datum.account, 'id')` test at line 62.
- A record's `iban` is `None` when its IBAN attribute holds `None`. It counts
  as present for the review when it is `Some` of a non-empty string (line 48).
  A record with no IBAN attribute at all is not modelled (see "## Left out").
- Missing form fields read as `''`, `''`, `-1`, `''`, as the defaults of
  `request.POST.get` give them (lines 74-77).
- Only PERSONAL and FOREIGN account types are branched on. Every other type is
  `Other`. For such an account the header's `kind`, `src` and `dst` stay `None`,
  because lines 92-108 have no `else`.
- `Transaction.objects.date_range(min_date, max_date)` is modelled as
  `DateRange`, an inclusive filter on the transaction date. Its definition is in
  `silverstrike/models.py`, which is not part of this model.
  `DateRangeKeepsFingerprints` shows that, with inclusive bounds, the filter
  loses no fingerprint a record of the batch could match.
- The upper bound is seeded with 1970-01-01 and the lower bound with 3000-01-01
  (lines 41-42). So a bound is a book date of the batch only once some book
  date reaches its seed. `BoundsAttained` is stated with that condition: a batch
  dated entirely before 1970 keeps its upper bound at 1970-01-01. Every record
  still lies within the bounds.
- `thisId`, the id of the imported account, is an input. In the source it is
  the id of an account that already exists, so in the model it should lie
  below the books' next id. The definitions do not require this;
  `CreatedAccountIsNotImported` shows that under it a created account never
  shares the imported account's id.
- Transaction ids are the positions of the headers in `Store.transactions`. A
  split refers to its transaction by that position.

## Model

| member | source | states |
|---|---|---|
| `ImportReview.LastWithIban` | silverstrike/views/imports.py:39 | the position of the last account carrying a given IBAN, or -1 when no account carries it: no later account carries it |
| `ImportReview.IbanIndex` | silverstrike/views/imports.py:39 | the IBAN dictionary has a key exactly for every non-empty IBAN of some account, and maps it to the last account carrying it (last wins) |
| `ImportReview.ResolveAttachesByIban` | silverstrike/views/imports.py:48-49 | a record without a non-empty IBAN that is a dictionary key is left exactly as it was; one with such an IBAN gets that entry as its account; no other field changes |
| `ImportReview.SeedDays` | silverstrike/views/imports.py:41-42 | the seeds 1970-01-01 and 3000-01-01 are days 0 and 376200 |
| `ImportReview.BoundsContainBatch` | silverstrike/views/imports.py:41-47 | every record satisfies min_date <= book_date <= max_date; an empty batch keeps the seeds, with min_date > max_date |
| `ImportReview.BoundsFromSeedOrBatch` | silverstrike/views/imports.py:41-47 | each bound is either its seed or the book date of some record |
| `ImportReview.BoundsAttained` | silverstrike/views/imports.py:41-47 | once any book date reaches a bound's seed, that bound equals the book date of some record |
| `ImportReview.EntryFingerprintsMembers` | silverstrike/views/imports.py:54-60 | a transaction's fingerprints carry its date and amount, and come from src for transfers and deposits, from dst for transfers and withdrawals, and from nothing for other types |
| `ImportReview.FingerprintSetMembers` | silverstrike/views/imports.py:52-60 | the fingerprint set is exactly the union of the fingerprints of the transactions |
| `ImportReview.DateRange` | silverstrike/views/imports.py:53 | every transaction of the date-range query lies within [min_date, max_date] |
| `ImportReview.DateRangeKeepsFingerprints` | silverstrike/views/imports.py:53 | restricting to the date range keeps every fingerprint dated inside the range |
| `ImportReview.CollectFingerprints` | silverstrike/views/imports.py:52-60 | the loop builds exactly the set whose members are the fingerprints of some transaction |
| `ImportReview.ReviewOutcome` | silverstrike/views/imports.py:34-63 | after review, a record's account is the IBAN match, or its old account if it has no match; ignore is set iff it was set already or the resolved (account id, book date, abs amount) is a fingerprint of some ledger transaction; nothing else changes |
| `ImportReview.UnresolvedNeverMarked` | silverstrike/views/imports.py:61-63 | a record left without an account keeps its ignore flag unchanged |
| `ImportReview.WithdrawalFlagsOutflow` | silverstrike/views/imports.py:59-63 | if a ledger withdrawal to account A on day D has amount X, an imported outflow of -X booked on D whose IBAN resolves to A is flagged |
| `ImportReview.ImportBatch.constructor` | silverstrike/views/imports.py:40 | the batch holds the parsed records in their order |
| `ImportReview.ImportBatch.ScanBatch` | silverstrike/views/imports.py:41-49 | the scan returns the folded minimum and maximum book dates and attaches accounts through the IBAN dictionary, record by record |
| `ImportReview.ImportBatch.MarkDuplicates` | silverstrike/views/imports.py:61-63 | each record ends up flagged iff it was flagged already or it has an account and its fingerprint is in the set; nothing else changes |
| `ImportReview.ImportBatch.Review` | silverstrike/views/imports.py:34-63 | the whole review pass leaves the records equal to the review specification and returns the two bounds |
| `ImportConfirm.Classify` | silverstrike/views/imports.py:92-108 | Transfer iff the account is personal; Withdraw iff foreign with amount < 0; Deposit iff foreign with amount >= 0; the imported account is src when amount < 0 and dst otherwise; other types assign nothing |
| `ImportConfirm.SkippedRowChangesNothing` | silverstrike/views/imports.py:80-84 | a row with a blank title, a blank account name, a non-empty ignore field or a zero amount creates no account, no transaction and no split |
| `ImportConfirm.AcceptedRowHeader` | silverstrike/views/imports.py:109-114 | an accepted row appends one header with amount abs(amount) > 0, the transaction date and the title; it has a recurrence iff the selector is > 0, and then that recurrence; its type, source and destination are the classification of the opposing account |
| `ImportConfirm.AcceptedRowSplits` | silverstrike/views/imports.py:117-132 | an accepted row appends exactly two splits of the new transaction: amount on the imported account at the book date, and -amount on the opposing account at the transaction date; each names the other's account as its opposing account, which is the account stored under the submitted name; both carry the submitted title |
| `ImportConfirm.SplitsFollowMoney` | silverstrike/views/imports.py:92-132 | the first split is on the header's source or destination account; the split on the source carries minus the header amount and the split on the destination carries plus it, when the opposing account is not the imported account and is personal or foreign |
| `ImportConfirm.OpposingAccountFound` | silverstrike/views/imports.py:85-90 | the opposing account is the stored account of that name, or a new foreign account whose id no stored account has; an account without an IBAN takes the row's IBAN |
| `ImportConfirm.AcceptedRowAccounts` | silverstrike/views/imports.py:85-90 | an accepted row stores the opposing account (created or IBAN-backfilled) under the submitted name, adds no other name, leaves every other stored account unchanged, and advances the next id only when it creates the account |
| `ImportConfirm.CreatedAccountIsNotImported` | silverstrike/views/imports.py:85-87 | when the imported account's id is below the next id, an account created for a row gets an id distinct from it and from every stored account |
| `ImportConfirm.ConfirmRowKeepsWellFormed` | silverstrike/views/imports.py:91-132 | one row keeps the books well formed: each transaction owns two balanced, cross-referencing splits carrying its amount |
| `ImportConfirm.AcceptedRowLeavesFingerprint` | silverstrike/views/imports.py:91-111 | a confirmed row leaves a fingerprint (opposing account id, transaction date, abs amount) in the ledger, when the opposing account is personal or foreign |
| `ImportConfirm.ReimportIsFlagged` | silverstrike/views/imports.py:109-115 | re-importing a confirmed row once its book date equals the confirmed transaction date flags it as a duplicate, for a re-imported record already resolved to the confirmed row's personal or foreign opposing account |
| `ImportConfirm.ConfirmRowsEffect` | silverstrike/views/imports.py:73-132 | the pass keeps the books well formed, leaves existing transactions and splits untouched, and adds one transaction and two splits per row that is not skipped |
| `ImportConfirm.AllSkippedChangesNothing` | silverstrike/views/imports.py:73-84 | if every row is skipped, the books are unchanged |
| `ImportConfirm.BooksBalance` | silverstrike/views/imports.py:117-132 | in well-formed books the amounts of all splits sum to zero |
| `ImportConfirm.Store.GetOrCreate` | silverstrike/views/imports.py:85-87 | returns the account of that name, or stores and returns a new foreign account with the next id |
| `ImportConfirm.Store.ConfirmOne` | silverstrike/views/imports.py:74-132 | one loop iteration changes the store exactly as the row specification says and keeps it well formed |
| `ImportConfirm.Store.Confirm` | silverstrike/views/imports.py:69-133 | the loop over all rows changes the store exactly as the pass specification says and keeps it well formed |

## Left out

- `ImportView`, `ImportUploadView`, `ImportFireflyView`, the template context, the redirects and `LoginRequiredMixin` are left out. They are web framework code with no decision logic.
- The importer registry `importers.IMPORTERS[...]` and the Firefly import are left out. They are parsers defined outside this file. The parsed records are an input (the `ImportBatch` constructor, and `Confirm`'s `data`).
- The ORM queries and persistence (`Account.objects.exclude`, `date_range`, `get_or_create`, `save`, `Split.objects.create`) become inputs and the fields of `Store`. Database failures are not modelled: a duplicate account name in `get_or_create`, and a save that rejects a header left without type, source or destination.
- The writes of one row are not atomic in the source. The model applies each row as one step, so it does not capture a crash between the header and its splits.
- `float(data[i].amount)` and the Decimal amounts are floating point in the source. They are integers here, so there is no rounding.
- The `int(...)` parse of the recurrence field can raise. The model receives the selector already as an integer.
- Fingerprints are strings built with `'{}-{}-{}'.format(...)` in the source. They are compared as tuples here. How dates or Decimals render as text is not modelled.
- `hasattr(data[i], 'iban')` at line 88: the model treats an IBAN attribute holding `None` the same as a missing one.
- The scan at line 48 reads `datum.iban` without a `hasattr` guard, so a record with no `iban` attribute at all raises an AttributeError there and the review pass stops. The model does not capture that failure. In the review pass a record's `None` IBAN stands only for an attribute that holds `None` (or, like `Some("")`, an empty value), and such a record is scanned without an account attached.
- The recurrence template query (lines 65-66) is left out. It is a database read with no logic.
- `ExportView` (lines 147-171) is left out. Its filtering relies on `transfers_once()` and on query methods outside this file, and its CSV writing is I/O.
- Splits get no category, because this code never sets one.
- `ImportConfirm.ReimportIsFlagged`: the review flags a re-imported row only when its IBAN resolves (lines 39, 48-49) to the same opposing account; a row with no IBAN, another IBAN, or an IBAN that a later account also carries is not covered, and its book date must equal the confirmed transaction date.
