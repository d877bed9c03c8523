# Transactor core, modelled in Dafny

Transactor reads a stream of client payment records (deposits, withdrawals,
disputes, resolutions and chargebacks) and reports, per client, the funds that
are available, held and in total, and whether the account is locked. This
project models the parts of it whose source is at hand:

- `LedgerBalance.Balance` (balance.dfy): one client's balance — a running
  `total`, the `holds` placed by disputes (a map from transaction id to a
  signed amount: positive for a disputed deposit, negative for a disputed
  withdrawal) and a permanent `locked` flag. Its mutators return
  `Result<(), Error>` with the source's four errors, and the derived
  quantities are `held` (the sum of the positive holds only, computed by a
  loop over the holds) and `available` (`total - held`).
- `Ledger` (ledger.dfy): the `Transaction` sum type and the `u16`/`u32`
  identifier ranges.
- `TypeWords` (type_words.dfy): lower-casing a record's type word and matching
  it against the five transaction words; shared by the two conversions below.
- `Csv` (csv.dfy): turning a deserialised record into a `Transaction`, and the
  output column list.
- `Core` (core.rs → core.dfy): an older copy of the same conversion with its
  own types, a `Chargeback` variant and `TransDeError` for a missing amount;
  a lemma proves it agrees with `Csv.TryInto` record for record.
- `Strings.StringReader` (string_reader.dfy): a reader that copies the
  unread bytes of a string into a caller's buffer in place and advances a
  cursor.

Amounts are exact integers (minor units) instead of `f64`, so the sum over the
holds does not depend on the order in which the map is walked; `PositiveSum`
is defined by taking out an arbitrary key and `PositiveSumRemove` proves any
key gives the same sum.

The model follows the code:
`withdraw` checks the funds against `total` before it checks the lock, so a
locked balance without enough funds reports `InsufficientFunds`; `hold` does
not look at the lock at all.

## Model

| member | source | states |
|---|---|---|
| `LedgerBalance.Balance.constructor` | src/ledger/balance.rs:50-57 | a new balance has total 0, no holds, is unlocked, and holds and has available 0 |
| `LedgerBalance.Balance.Held` | src/ledger/balance.rs:68-76 | the loop returns the sum of the strictly positive hold amounts, which is never negative |
| `LedgerBalance.Balance.Available` | src/ledger/balance.rs:59-61 | available is total minus held, and never exceeds total |
| `LedgerBalance.Balance.LockBalance` | src/ledger/balance.rs:82-84 | the balance becomes locked; total and holds are unchanged |
| `LedgerBalance.Balance.Deposit` | src/ledger/balance.rs:87-95 | a locked balance refuses with `AccountLocked` and is unchanged; otherwise the total grows by the amount (and so does available); holds and lock never change |
| `LedgerBalance.Balance.Withdraw` | src/ledger/balance.rs:97-109 | `amount > total` fails with `InsufficientFunds` before the lock is looked at; then a lock fails with `AccountLocked`; otherwise total drops by the amount and stays non-negative; holds and lock never change |
| `LedgerBalance.Balance.Hold` | src/ledger/balance.rs:111-119 | an existing hold on `tx` fails with `MultiHoldError(tx)`; otherwise exactly `tx ↦ amount` is added; total and lock are unchanged whatever the lock; held grows by the positive part of the amount only |
| `LedgerBalance.Balance.RemoveHold` | src/ledger/balance.rs:121-129 | a missing hold fails with `NoHoldError(tx)`; otherwise only `tx` is removed, total is unchanged, and held drops by that hold's positive part |
| `LedgerBalance.Balance.ApplyHold` | src/ledger/balance.rs:131-140 | a missing hold fails with `NoHoldError(tx)`; otherwise the hold amount comes off the total (a negative hold raises it) and `tx` is removed; available is unchanged for a positive hold and rises by the size of a negative one |
| `LedgerBalance.Balance.Snapshot` | src/ledger/balance.rs:142-150 | the snapshot carries the client, total and lock, and held and available as the accessors define them, with `available + held == total`, `held >= 0` and `available <= total` |
| `LedgerBalance.PositiveSumRemove` | src/ledger/balance.rs:68-76 | the sum of positive holds can be split at any key, so it does not depend on the order the map is walked in |
| `LedgerBalance.PositiveSumNonNegative` | src/ledger/balance.rs:63-76 | held is never negative, so available never exceeds total |
| `LedgerBalance.PositiveSumInsert` | src/ledger/balance.rs:111-119 | adding a hold adds exactly its positive part to held; a withdrawal's negative hold leaves held unchanged |
| `LedgerBalance.DepositAndWithdraw` | src/ledger/balance.rs:159-169 | deposit 100 and withdraw 10 both succeed and leave 90 available |
| `LedgerBalance.DepositWithdrawHold` | src/ledger/balance.rs:171-184 | deposit 100, withdraw 10 and a hold of -10 all succeed and leave 90 available |
| `LedgerBalance.ChargeBackAndLock` | src/ledger/balance.rs:131-140 | deposit 100, hold it, deposit 50, apply the hold and lock: total and available 50, held 0, locked, and a later deposit fails with `AccountLocked` |
| `TypeWords.AsciiLower` | src/csv.rs:40 | no upper-case ASCII letter remains after folding one character |
| `TypeWords.Lower` | src/csv.rs:40 | lower-casing keeps the length and folds each character |
| `TypeWords.LowerOfLowerCase` | src/csv.rs:40 | a word with no upper-case letter is unchanged by lower-casing |
| `TypeWords.LowerIdempotent` | src/core.rs:43 | lower-casing a lower-cased word changes nothing |
| `TypeWords.KindOf` | src/csv.rs:40-59 | a recognised word lower-cases to its kind's word; an unrecognised one lower-cases to none of the five |
| `TypeWords.KindOfIff` | src/csv.rs:40-59 | a word is recognised as a kind exactly when it lower-cases to that kind's word |
| `TypeWords.KindOfIgnoresCase` | src/csv.rs:40 | words that lower-case alike are recognised alike |
| `TypeWords.KindOfLowered` | src/core.rs:43 | recognising the lower-cased word gives what the word gives |
| `TypeWords.WordIsLower` | src/csv.rs:41-55 | the five match words are already lower case |
| `TypeWords.KindOfUpperCase` | src/csv.rs:40-41 | "DEPOSIT" is a deposit |
| `TypeWords.KindOfMixedCase` | src/csv.rs:40-55 | "ChargeBack" is a chargeback |
| `TypeWords.KindOfDoesNotTrim` | src/csv.rs:40-59 | " deposit" with a leading blank is not recognised: the conversion does not trim |
| `Csv.TryInto` | src/csv.rs:31-61 | success copies client and tx (and the amount for a deposit or withdrawal) and matches the word's kind; `MissingAmount` exactly for a deposit or withdrawal with no amount; `UnknownTransactionType` exactly for an unrecognised word |
| `Csv.TryIntoSound` | src/csv.rs:40-55 | every transaction read from a record has the record's lower-cased word, client and tx, and its amount when it carries one |
| `Csv.TryIntoComplete` | src/csv.rs:40-55 | every record that describes a transaction in that way is read as exactly that transaction, whatever amount a dispute, resolve or chargeback record holds |
| `Csv.TryIntoMissingAmount` | src/csv.rs:41-52 | a deposit or withdrawal with no amount fails with `MissingAmount` and the matching message |
| `Csv.TryIntoUnknown` | src/csv.rs:56-59 | an unrecognised word fails with `UnknownTransactionType`, quoting the word as written |
| `Csv.TryIntoIgnoresCase` | src/csv.rs:40 | another spelling with the same lower case gives the same result, except that an unknown word's message quotes the new spelling |
| `Csv.TryIntoLowered` | src/csv.rs:40 | converting the lower-cased word gives the same transaction |
| `Csv.Headers` | src/csv.rs:88-90 | five distinct columns in the order `client`, `available`, `held`, `total`, `locked` |
| `Core.TryFrom` | src/core.rs:34-64 | success copies client, tx and amount and matches the word's kind; `TransDeError` exactly for a deposit or withdrawal with no amount; `UnknownTransactionType` exactly for an unrecognised word |
| `Core.TryFromAgreesWithCsv` | src/core.rs:43-62 | the older copy returns what `Csv.TryInto` returns, with `Chargeback` for `ChargeBack` and `TransDeError` for `MissingAmount` |
| `Core.TryFromIgnoresCase` | src/core.rs:43 | another spelling with the same lower case gives the same transaction |
| `Strings.StringReader.From` | src/string.rs:12-25 | a new reader is at cursor 0 over the given bytes |
| `Strings.StringReader.Read` | src/string.rs:27-45 | returns `min(|buf|, unread)`, copies exactly those unread bytes to the front of `buf`, leaves the rest of `buf` alone, and moves the cursor past them, which stays within the bytes |
| `Strings.ReadAString` | src/string.rs:56-74 | one read into a buffer as long as the string fills it with the whole string |
| `Strings.PartialReads` | src/string.rs:76-98 | one-byte reads each return 1 and yield the string's bytes in order, then a read returns 0 |

## Left out

- The ledger itself (`Ledger::new`, `process_transaction`, `get_client_snapshots`, the dispute status transitions and duplicate and frozen-account checks): src/ledger.rs declares only the `Ledger` struct's two fields, and the implementation is not part of this model; only the `Transaction` type is modelled.
- `write_balances_to_file` is not part of this model; only the column list `Csv.Headers` is.
- src/main.rs: argument scanning, opening the input file, the csv and serde deserialisation, writing to standard output and skipping bad rows are input and output plumbing.
- Floating point: amounts are exact integers, so rounding, NaN, negative zero and the order of summation over the hash map play no part.
- `Lower`: folds ASCII letters only, not the full Unicode lower-casing of `to_lowercase`. So a word that becomes a type word only under Unicode folding is read as unknown here: "chargebac" followed by the KELVIN SIGN (U+212A) is a chargeback to the program but an unknown type in the model.
- `StringReader.From`: takes the string's bytes directly; the UTF-8 encoding of a Rust `String` is not modelled, and the `From<String>` and `From<&str>` constructors are one constructor here.
- The `BufReader` wrapping in the string tests is library buffering; the test methods call `Read` directly.
- `Display` for `CsvTransaction` is debug formatting only.
- The test in src/core.rs refers to a `crate::utils` module that does not exist and checks nothing; it is not modelled.
- `Balance::locked` is the plain field read `Locked()` and carries no contract of its own.
