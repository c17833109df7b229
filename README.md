# Bank account domain: transfer ledger and personal-account rules

This project models two pieces of a small banking application in Dafny.

- **Transfer ledger** (`src/operations.py`, class `Transfer_operations`). The ledger is an object with two public integer fields, `balance` and `fee`, and both start at 0. It has three guarded transfers. Each one answers whether it was carried out and changes only `balance`:
  - an incoming transfer credits a positive amount;
  - an outgoing transfer debits an amount between 0 and the balance;
  - an express transfer debits the amount plus the fee, provided the amount is between 0 and the balance plus the fee.

  `operations.dfy` models the object as the class `Operations.TransferOperations`, with methods that modify the `balance` field in place. Each method is tied to a pure function (`IncomingOutcome`, `OutgoingOutcome`, `ExpressOutcome`), and the lemmas are about those functions. `Replay` runs a sequence of transfers. It is used to prove how far the balance can fall: never below `-2 * fee`, a bound that can actually be reached, and never below zero without an express transfer.
- **Personal account** (`src/account.py`, class `Account`). The module covers:
  - the structural PESEL check: 11 characters, all digits;
  - the promotional-code check: `PROM_` followed by three characters;
  - the birth year decoded from the PESEL's year and month fields, where the month field's bucket selects the century;
  - promotion eligibility: birth year after 1960;
  - the constructor, which stores the PESEL or the sentinel `"Invalid"` and grants a one-off bonus of 50.

  The source's rule methods read only the identifier they are given or the one the account stores, so `account.dfy` makes them functions of that string. The constructor is the constructor of the class `Accounts.Account`. `EncodeDateFields` is the PESEL scheme's own encoding of a birth year and month. It is the partner of the decoder: decoding recovers the encoded year, and every decodable identifier is such an encoding.

The ledger and the account are separate classes, as in `src/account.py`. The account does not inherit the ledger, and the ledger has no transaction history.

## Model

| member | source | states |
|---|---|---|
| `Operations.IncomingOutcome` | src/operations.py:7-11 | accepted iff the amount is positive; the balance never decreases and grows by exactly the amount when accepted; a refusal leaves it unchanged |
| `Operations.OutgoingOutcome` | src/operations.py:13-18 | accepted iff 0 <= amount <= balance; an accepted transfer reduces the balance by the amount and never makes it negative; a refusal leaves it unchanged |
| `Operations.ExpressOutcome` | src/operations.py:20-25 | accepted iff 0 <= amount <= balance + fee; an accepted transfer reduces the balance by amount + fee and leaves it at least -2 * fee; a refusal leaves it unchanged |
| `Operations.TransferOperations.constructor` | src/operations.py:2-4 | a fresh ledger has balance 0 and fee 0 |
| `Operations.TransferOperations.IncomingTransfer` | src/operations.py:7-11 | returns true iff amount > 0; the new balance is the incoming outcome on the old one; fee unchanged, nothing else modified |
| `Operations.TransferOperations.OutgoingTransfer` | src/operations.py:13-18 | returns true iff 0 <= amount <= old balance; the new balance is the outgoing outcome on the old one; fee unchanged |
| `Operations.TransferOperations.ExpressTransfer` | src/operations.py:20-25 | returns true iff 0 <= amount <= old balance + fee; the new balance is the express outcome with the fee; fee unchanged |
| `Operations.ExpressWithoutFeeIsOutgoing` | src/operations.py:13-25 | with fee 0, an express transfer has the same answer and balance as an outgoing transfer, for every amount |
| `Operations.IncomingUndoesOutgoing` | src/operations.py:7-18 | an incoming transfer of the same positive amount restores the balance an accepted outgoing transfer took |
| `Operations.OutgoingUndoesIncoming` | src/operations.py:7-18 | from a non-negative balance, an outgoing transfer of the same amount is accepted and undoes an incoming one |
| `Operations.ReplayStaysAboveFloor` | src/operations.py:7-25 | with fee >= 0, any sequence of transfers from a balance >= -2 * fee (balance 0 included, whatever fee has been set) ends at or above -2 * fee |
| `Operations.FloorIsReached` | src/operations.py:20-25 | the bound is tight: on a ledger at balance 0 whose fee has been set to fee, two express transfers of 0 leave exactly -2 * fee |
| `Operations.ReplayWithoutExpressStaysNonNegative` | src/operations.py:7-18 | incoming and outgoing transfers alone never take a non-negative balance below zero |
| `Operations.BalanceAfterExpress` | src/operations.py:20-25 | on a ledger with a given fee and balance, an express transfer is accepted iff 0 <= amount <= balance + fee and then leaves balance - amount - fee, otherwise the balance |
| `Operations.ExpressTransferExpectations` | tests/unit/test_express_transfers.py:6-40 | with fee 1 and fee 5: 200 minus an express 100 leaves 99 and 95; an express 200 from 100 is refused and leaves 100; an express 100 from 100 leaves -1 and -5 |
| `Accounts.TwoDigitField` | src/account.py:31-32 | the year and month fields read as numbers lie in 0..99 |
| `Accounts.BirthYearFromPesel` | src/account.py:26-45 | defined iff the identifier has 11 characters and its month field lies in one of the five buckets; a defined year lies in 1800..2299 and ends in the year field |
| `Accounts.IsPeselValid` | src/account.py:14-17 | holds iff the identifier has exactly 11 characters and all of them are ASCII digits; a valid PESEL is never the sentinel and its date fields can be decoded |
| `Accounts.IsPromoCodeValid` | src/account.py:19-24 | an absent code is invalid; a present one is valid iff it starts with `PROM_` and has length 8 |
| `Accounts.IsEligibleForPromotion` | src/account.py:47-51 | holds iff the birth year is defined and > 1960; an eligible identifier has PESEL length and a month field in a bucket other than 81-92 |
| `Accounts.SentinelIsNeverEligible` | src/account.py:28-29 | the sentinel `"Invalid"` has no birth year and is never eligible |
| `Accounts.EligibilityByBucket` | src/account.py:34-51 | buckets 21-32, 41-52 and 61-72 are always eligible; 81-92 never; 1-12 iff the two-digit year is above 60; a month field in no bucket never |
| `Accounts.BucketsAreDisjoint` | src/account.py:34-43 | two identifiers decoding to the same birth year have the same year field and month fields in the same bucket |
| `Accounts.EncodedMonth` | src/account.py:34-43 | the month field written for a birth year in 1800..2299 lies in one of the five buckets |
| `Accounts.EncodeDateFields` | src/account.py:31-43 | encodes a birth year and month as four digit characters |
| `Accounts.BirthYearRoundTrip` | src/account.py:26-45 | decoding the encoded date fields, followed by any seven characters, gives back the encoded year |
| `Accounts.BirthYearComplete` | src/account.py:31-45 | every identifier with a defined birth year starts with the encoding of that year and some month 1..12 |
| `Accounts.EligibleExactlyAfterThreshold` | src/account.py:47-51 | an identifier encoding a birth in a given year is eligible iff the year is after 1960: 1965 qualifies, 1959 and 1960 do not |
| `Accounts.PromoCodeShape` | src/account.py:19-24 | a code is valid iff it is `PROM_` followed by exactly three characters |
| `Accounts.PromoCodeExamples` | src/account.py:19-24 | `PROM_456` is valid; `WELCOME_BONUS` and an absent code are not |
| `Accounts.Account.constructor` | src/account.py:2-10 | the code defaults to absent; stores the names and the code unchanged, and stores the PESEL if valid or else `"Invalid"`; the balance is 50 iff the code is valid and the stored PESEL is eligible, otherwise 0; a balance of 50 implies both checks passed |
| `Accounts.StoredPeselExamples` | tests/unit/test_account_create.py:5-26 | `12345678911` is stored as given; `123456789112`, `1234567891` and `12345ABCDE1` are stored as `"Invalid"` |
| `Accounts.OpeningBalanceExamples` | tests/unit/test_account_transactions.py:8-14 | PESEL `85020212345` (born 1985) with `PROM_456` opens with 50 and without a code with 0 |

## Left out

- Amounts and balances are whole numbers (`int`). The source would also accept floats at runtime; floating point is not modelled.
- Digits are ASCII `'0'..'9'`. Python's `str.isdigit` also accepts other Unicode digits, and `int` on some of them raises; that difference is not modelled.
- `Accounts.BirthYearFromPesel` requires its argument's first four characters to be ASCII digits when it has 11 characters. Any identifier the constructor stores meets this. On a field overwritten from outside with 11 non-numeric characters, the source's `int` would raise. That case is not modelled, and neither are `int`'s leading signs and whitespace.
- `Operations.Replay` keeps the fee fixed across the sequence. The source lets callers reassign `fee` between transfers; each transfer is still modelled with the fee current at its call.
- Company accounts, the registry, transaction history, loans, e-mail history and external tax-id verification are not part of this model. The two classes modelled here define none of them.
- The HTTP layer in `app/api.py` is not part of this model, nor is the document-store repository in `src/accounts_repository.py` (a network client configured from the environment).
