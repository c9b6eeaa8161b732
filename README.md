# solidarityMSP allocation core, in Dafny

This project models three parts of the solidarityMSP donation platform and proves properties of them.

**The large-pledge allocation batch**
- The console command `app:transaction:create-for-large-amount`, in `CreateForLargeAmountCommand`.
- It matches donors who pledged large amounts to damaged educators who still await payment. For each donor it:
  - skips the donor on cooldown or with too little left;
  - picks a per-transaction cap from the donor's pledge tier;
  - walks a copy of the educator array. Along the way it applies the university filter and the yearly per-account guard, creates clamped transactions, drops exhausted rows and stops once the donor has less than the minimum left;
  - emails the donor when anything was created.
- `allocation_spec.dfy` (module `AllocationSpec`) states the command as values and functions and proves what a run guarantees.
- `allocation_command.dfy` (module `AllocationCommand`) is the command itself: a class whose fields change in place.
  - The fields are the educator array, the current cap, the persisted transactions and the emailed donors.
  - Each method is proved to change the object's state exactly as the matching function of `AllocationSpec` does.

**The payout account-number check**
- `ValidateAccountNumberValidator`, in `account_number.dfy` (module `AccountNumber`).
- Two prefixes, "840" and "150", are reserved.
- Otherwise the last two characters must be the ISO/IEC 7064 MOD 97-10 check value of the rest, written with two digits.
- That check value is computed by a right-to-left loop that keeps remainders modulo 97.

**The IPS payment-QR payload**
- `IpsQrCodeService::createIpsQrString`, in `ips_qr.dfy` (module `IpsQr`).
- The service's own source is not part of this model. Its behaviour is what its tests pin down:
  - the pipe-separated segments K, V, C, R, N, I, P, an optional SF, S and an optional RO;
  - the defaults PR, 01, 1 and RSD;
  - a failure when one of the six required arguments is missing.
- `Decode`, which reads a payload back, is not part of the service. It is the inverse against which the encoder is proved.

The command is modelled as follows:
- The PHP educator array (rows keyed by educator id, in insertion order) is a `map<int, Educator>` plus the key order `seq<int>`.
- `foreach` over that array walks a copy. `Entries` is the copy taken when a donor's inner loop starts.
- `createTransaction` reads the live array.
  - A row unset earlier in the same loop reads as PHP `null`. `null < 10000` holds, so `unset` is a no-op and the call returns 0. The model does the same.
- `CreateTransactionService` is replaced by the `Services` value:
  - holiday;
  - university school types;
  - cooldown;
  - sums.
- The ledger queries receive the transactions persisted so far in the run. A transaction created for one donor is therefore seen by the guards for later donors.

Three points where the code behaves differently from what one might expect, and where the model follows the code:
- **When rows are removed.** One might expect an educator to leave the array as soon as what it is owed falls below the minimum. The code instead removes such a row only when a later visit finds it below the minimum (lines 145-152). An emptied row therefore stays in the array until then. `CapThenRemainderScenario` shows a row with 0 left still present at the end of a run.
- **No "amount below the minimum" skip.** One might expect a transaction to be skipped when the clamped amount falls below the minimum while the educator still has enough. The code has no such branch (lines 154-176): it creates the transaction whatever the clamped amount.
  - The donor's remainder is at least the minimum whenever a transaction is attempted.
  - The cap is always above the minimum (`TierCap`).
  - The row holds at least the minimum.
  - So no transaction below the minimum arises anyway (`RunGuarantees`).
- **Length and characters of account numbers.** One might expect empty or non-numeric input to be invalid. The validator instead refuses only the empty string (line 21). Otherwise it reads every non-digit byte as 0 (PHP `(int)`, line 63) and checks no length (lines 51-69). `NonDigitBodyPasses` shows that "98" and any digit-free body followed by "98" pass the checksum.

## Model

| member | source | states |
|---|---|---|
| AccountNumber.DigitRoundTrip | src/Validator/ValidateAccountNumberValidator.php:63 | reading a digit character as a number and writing it back gives the character again |
| AccountNumber.DigitValue | src/Validator/ValidateAccountNumberValidator.php:63 | PHP `(int)` of one character: a digit's value (the digit is '0' plus it), 0 for any other character |
| AccountNumber.NumValue | src/Validator/ValidateAccountNumberValidator.php:62-63 | the decimal value the loop weighs, every character read by `(int)`; it is below 10 to the power of the length |
| AccountNumber.Tail | src/Validator/ValidateAccountNumberValidator.php:55 | `substr(…, -2)`: the last two characters, or the whole string when it is shorter |
| AccountNumber.DecimalString | src/Validator/ValidateAccountNumberValidator.php:55 | the integer check value written as a string for `str_pad`: at least one character, all of them digits |
| AccountNumber.DecimalStringReadsBack | src/Validator/ValidateAccountNumberValidator.php:55 | that string has no leading zero and reads back as the number it was made from |
| Strings.StartsWithIff | src/Validator/ValidateAccountNumberValidator.php:36-42 | `str_starts_with`: a string starts with a prefix exactly when it is the prefix followed by the rest of the string |
| AccountNumber.PadLeft | src/Validator/ValidateAccountNumberValidator.php:55 | left padding to a width: the result has that width or the input's length, ends with the input and is padding before it |
| AccountNumber.Body | src/Validator/ValidateAccountNumberValidator.php:53 | everything but the last two characters (nothing for shorter input); with the tail it makes up the whole number |
| AccountNumber.CheckValue | src/Validator/ValidateAccountNumberValidator.php:68 | the check value 98 - (100 * N mod 97) always lies in [2, 98] |
| AccountNumber.Mod97 | src/Validator/ValidateAccountNumberValidator.php:58-69 | the right-to-left loop with `base` starting at 100 returns 98 - (100 * N mod 97) for N the value of the digits |
| AccountNumber.CheckValueIsMod97_10 | src/Validator/ValidateAccountNumberValidator.php:58-69 | 100 * N plus the check value is congruent to 1 modulo 97 (the MOD 97-10 property) |
| AccountNumber.ValidateAccountNumber | src/Validator/ValidateAccountNumberValidator.php:51-56 | true exactly when the zero-padded check value of the body equals the last two characters |
| AccountNumber.ChecksumMatchesIff | src/Validator/ValidateAccountNumberValidator.php:51-56 | the checksum holds exactly when the last two characters are digits whose two-digit value is the body's check value |
| AccountNumber.IsValid | src/Validator/ValidateAccountNumberValidator.php:34-49 | false for the prefixes "840" and "150", otherwise the checksum's answer |
| AccountNumber.ReservedPrefixRejected | src/Validator/ValidateAccountNumberValidator.php:36-42 | every number starting with "840" or "150" is invalid, whatever follows |
| AccountNumber.ImpossibleEndingsRejected | src/Validator/ValidateAccountNumberValidator.php:51-69 | numbers ending in "00", "01" or "99" never pass, because the check value is between 2 and 98 |
| AccountNumber.ShortNumbersRejected | src/Validator/ValidateAccountNumberValidator.php:51-56 | numbers of fewer than two characters never pass |
| AccountNumber.NonDigitBodyPasses | src/Validator/ValidateAccountNumberValidator.php:58-69 | a body without digits, the empty one included, reads as 0, so it passes with the ending "98" |
| AccountNumber.SingleCharacterChangeDetected | src/Validator/ValidateAccountNumberValidator.php:51-69 | changing one body character to one of another digit value, keeping the last two characters, makes a passing number fail |
| AccountNumber.ValidateAccountNumberValidator.Validate | src/Validator/ValidateAccountNumberValidator.php:11-32 | a foreign constraint gives the unexpected-type outcome and no violation; null adds none; a non-string or "" adds one; otherwise one exactly when the number is invalid |
| IpsQr.FromArguments | tests/Service/IpsQrCodeServiceTest.php:17-77 | succeeds exactly when the six required keys are present, and then carries their values; identification code, version, character set and currency are the argument when given and PR, 01, 1 and RSD otherwise; the payment and reference codes are present exactly when their keys are, with the argument's value |
| IpsQr.CreateIpsQrString | tests/Service/IpsQrCodeServiceTest.php:17-77 | fails exactly when a required argument is missing; otherwise renders the payment read from the arguments |
| IpsQr.EmptyArgumentsRefused | tests/Service/IpsQrCodeServiceTest.php:17-21 | an empty argument map is refused |
| IpsQr.DefaultsApplied | tests/Service/IpsQrCodeServiceTest.php:23-38 | for every map with the six required arguments and no optional one, the payload is the segments `K:PR`, `V:01`, `C:1`, `R:<account>`, `N:<payee>` LF CR "BB" LF CR `<city>`, `I:RSD<amount>`, `P:<payer>` and `S:<purpose>`, joined by pipe characters |
| IpsQr.RequiredArgumentsAndDefaults | tests/Service/IpsQrCodeServiceTest.php:23-38 | the six required arguments give the test's payload, with the PR, 01, 1 and RSD defaults |
| IpsQr.AllArgumentsProvided | tests/Service/IpsQrCodeServiceTest.php:40-59 | all arguments including a payment code give the test's payload, with an SF segment holding 123 |
| IpsQr.WithReferenceCode | tests/Service/IpsQrCodeServiceTest.php:61-77 | a reference code gives the test's payload, ending in an RO segment holding 972012345 |
| IpsQr.ExplicitDefaultsSameAsOmitted | tests/Service/IpsQrCodeServiceTest.php:23-59 | passing PR, 01 and 1 explicitly gives the same result as leaving them out |
| IpsQr.PaymentCodeInsertsSegment | tests/Service/IpsQrCodeServiceTest.php:23-59 | a payment code inserts an SF segment holding the code right before the S segment and changes nothing else |
| IpsQr.ReferenceCodeAppendsSegment | tests/Service/IpsQrCodeServiceTest.php:23-77 | a reference code appends an RO segment holding the code at the very end and changes nothing else |
| IpsQr.DecodeRender | tests/Service/IpsQrCodeServiceTest.php:34 | a payment whose fields hold no pipe character, whose payee name holds no line feed and whose currency code has exactly three characters is read back from its payload unchanged: the layout is unambiguous |
| IpsQr.CreateIpsQrStringDecodes | tests/Service/IpsQrCodeServiceTest.php:23-77 | with the required arguments present the encoder succeeds; when in addition no argument holds a pipe character, the payee name holds no line feed and the currency code has exactly three characters, every argument can be read back from its output |
| AllocationSpec.TierCap | src/Command/Transaction/CreateForLargeAmountCommand.php:120-141 | the cap per pledge tier is always above the minimum transaction and at most the maximum donation |
| AllocationSpec.TierCapMonotone | src/Command/Transaction/CreateForLargeAmountCommand.php:120-141 | a larger pledge never gets a smaller cap |
| AllocationSpec.TierCapBoundaries | src/Command/Transaction/CreateForLargeAmountCommand.php:122-140 | 120000, 200000 and 300000 belong to the lower tier, one more to the next |
| AllocationSpec.Remove | src/Command/Transaction/CreateForLargeAmountCommand.php:149 | `unset` on the key order drops exactly that key, keeps the keys distinct, and leaves the other keys in their relative order |
| AllocationSpec.Entries | src/Command/Transaction/CreateForLargeAmountCommand.php:92 | the copy the `foreach` walks: the array's rows, one per key, in key order |
| AllocationSpec.IsUserDonorList | src/Command/Transaction/CreateForLargeAmountCommand.php:183-189 | the donor query's filter and order; along such a list the tier cap never rises |
| AllocationSpec.UniversityOnlyRespected | src/Command/Transaction/CreateForLargeAmountCommand.php:93 | the university-only filter at work: every transaction a donor step creates for a donor who asked for universities only goes to an educator of the pool whose school is a university |
| AllocationSpec.YearLimitRespected | src/Command/Transaction/CreateForLargeAmountCommand.php:97-99 | the yearly guard at work: each transaction a donor step creates, added to what the donor had already given that account before it, stays below 80000 |
| AllocationSpec.DonorNeverOverGives | src/Command/Transaction/CreateForLargeAmountCommand.php:81-82 | the remaining-amount check at work: when a donor step creates transactions, their total added to what the ledger already sums for the donor never exceeds the pledge |
| AllocationSpec.TransactionAmount | src/Command/Transaction/CreateForLargeAmountCommand.php:146-160 | the amount is at most the educator's remainder, the donor's remainder and the cap, and equals one of them |
| AllocationSpec.CreateStep | src/Command/Transaction/CreateForLargeAmountCommand.php:143-177 | a missing row or one below the minimum is unset and 0 returned; otherwise one transaction is appended with the clamped amount, and both remainders drop by it |
| AllocationSpec.StepKeepsAccounts | src/Command/Transaction/CreateForLargeAmountCommand.php:143-177 | each row left is its loaded row less what the ledger gave it, no educator got more than it was owed, every transaction goes to a loaded row |
| AllocationSpec.StepTotal | src/Command/Transaction/CreateForLargeAmountCommand.php:169-171 | what leaves the donor's remainder is exactly what the ledger gains |
| AllocationSpec.StepAllocated | src/Command/Transaction/CreateForLargeAmountCommand.php:92-103 | a transaction created in the pass is the donor's, within the cap and at least the minimum, to the row's account, and past the university and yearly guards |
| AllocationSpec.EducatorSkipped | src/Command/Transaction/CreateForLargeAmountCommand.php:93-101 | a row the university filter or the yearly guard excludes is passed over with nothing created or removed |
| AllocationSpec.PassKeepsAccounts | src/Command/Transaction/CreateForLargeAmountCommand.php:92-108 | the inner loop keeps every row equal to its loaded row less what it received, and no educator above what it was owed |
| AllocationSpec.PassBookkeeping | src/Command/Transaction/CreateForLargeAmountCommand.php:92-108 | the inner loop only appends to the ledger; the donor's remainder drops by exactly what was added and stays non-negative; the count is the number of new transactions; the cap and emails are untouched |
| AllocationSpec.PassAllocated | src/Command/Transaction/CreateForLargeAmountCommand.php:92-108 | every transaction of the inner loop meets the pass's guards against the ledger before it |
| AllocationSpec.DonorPass | src/Command/Transaction/CreateForLargeAmountCommand.php:92-108 | the inner `foreach` from a given row on: the cap and the emailed donors are untouched and the count never drops (`PassBookkeeping`, `PassKeepsAccounts` and `PassAllocated` state the rest) |
| AllocationSpec.DonorStep | src/Command/Transaction/CreateForLargeAmountCommand.php:72-115 | one donor's iteration: the cap is the old one or the donor's tier cap, and the donor is emailed at most once (`DonorStepFacts` states the rest) |
| AllocationSpec.RunDonors | src/Command/Transaction/CreateForLargeAmountCommand.php:72-115 | the donor loop: the emailed list only grows, by at most one entry per donor (`RunDonorsFacts` states the rest) |
| AllocationSpec.Run | src/Command/Transaction/CreateForLargeAmountCommand.php:42-118 | `execute`: FAILURE exactly without the lock; without the lock or on a holiday nothing changes (`RunGuarantees` states the rest) |
| AllocationSpec.DonorSkipped | src/Command/Transaction/CreateForLargeAmountCommand.php:76-86 | a donor on cooldown, or with less than the minimum left, changes nothing |
| AllocationSpec.DonorStepFacts | src/Command/Transaction/CreateForLargeAmountCommand.php:72-115 | one donor: accounts kept, new transactions meet the guards for the donor's tier cap, together within the donor's remainder; email sent exactly when something was created |
| AllocationSpec.RunDonorsFacts | src/Command/Transaction/CreateForLargeAmountCommand.php:72-115 | over any prefix of the donors: accounts kept, every transaction at least the minimum, emailed donors exactly those with a transaction |
| AllocationSpec.RunGuarantees | src/Command/Transaction/CreateForLargeAmountCommand.php:42-118 | FAILURE exactly without the lock; nothing changes then or on a holiday; transactions at least the minimum, to loaded educators, never more than an educator was owed; emailed donors exactly those with a transaction |
| AllocationSpec.PassKeepsOrderedMap | src/Command/Transaction/CreateForLargeAmountCommand.php:92-108 | removals and decrements keep the array's keys and key order in step, each key once; the key order at the end is the one at the start with some keys left out |
| AllocationSpec.RunKeepsOrderedMap | src/Command/Transaction/CreateForLargeAmountCommand.php:72-115 | the same over the whole donor loop: every donor's `foreach` walks the loaded order with some keys left out |
| AllocationSpec.CapThenRemainderScenario | src/Command/Transaction/CreateForLargeAmountCommand.php:72-177 | a 250000 pledge against rows owed 80000 and 20000 gives 45000 (the cap) and 20000; the emptied row stays; the donor is emailed |
| AllocationCommand.CreateForLargeAmountCommand.constructor | src/Command/Transaction/CreateForLargeAmountCommand.php:24-28 | a fresh command: cap 60000, empty array, no transactions, no emails |
| AllocationCommand.CreateForLargeAmountCommand.SetMaxTransactionDonationAmount | src/Command/Transaction/CreateForLargeAmountCommand.php:120-141 | sets the cap to the donor's tier cap and changes nothing else |
| AllocationCommand.CreateForLargeAmountCommand.CreateTransaction | src/Command/Transaction/CreateForLargeAmountCommand.php:143-177 | the new array, ledger, donor remainder and count are those of `CreateStep` |
| AllocationCommand.CreateForLargeAmountCommand.AllocateToEducators | src/Command/Transaction/CreateForLargeAmountCommand.php:91-108 | the inner loop, with `continue` and `break`, ends in the state, remainder and count of `DonorPass` |
| AllocationCommand.CreateForLargeAmountCommand.ProcessDonor | src/Command/Transaction/CreateForLargeAmountCommand.php:72-115 | one donor's iteration moves the object exactly as `DonorStep` |
| AllocationCommand.CreateForLargeAmountCommand.Execute | src/Command/Transaction/CreateForLargeAmountCommand.php:42-118 | the exit code and final state are those of `Run`, so `RunGuarantees` holds of them |

## Left out

- The run lock (Symfony `FlockStore`): it is the boolean `lockAcquired`. Lock names built from the options and lock release are not modelled.
- The `schoolTypeId` and `schoolIds` options and the parameters handed to `getDamagedEducators`. The array that call returns is an input to `Execute`.
- `getUserDonors`, a database query. Its result is an input, and `IsUserDonorList` states its filter and order: active, verified, pledge at least 100000, largest first.
- `CreateTransactionService`, whose source is not part of this model. It is replaced by `Services`:
  - its answers are functions of the donor, of the ledger persisted so far in the run, and of the school type;
  - the trailing time windows, dates and transaction statuses inside those queries are not modelled.
- Doctrine persistence (`find`, `persist`, `flush`). A persisted transaction is an element appended to `transactions`.
  - The transaction's user and educator entity are the donor id and educator id.
  - Persistence failures are not modelled.
- Console output and the email.
  - Output is left out.
  - `sendNewTransactionEmail` is the donor id appended to `notified`.
- `CreateTransaction` writes the decrement under the row's key, not the row's `id` field (line 171).
  - The two agree when the array is keyed by id, as `getDamagedEducators` builds it. `RunGuarantees` requires this (`KeyedById`).
  - A row filed under another key is not modelled.
- Integer width: amounts are unbounded integers. PHP's 64-bit integers cannot overflow at these magnitudes.
- `ValidateAccountNumberValidator.Validate`: the `UnexpectedTypeException` is the outcome `UnexpectedType`. The violation builder is a message appended to the context's list. Translation and parameters of the message are not modelled.
- AccountNumber.Mod97: the model reads an account number as a sequence of characters, while PHP's `strlen`, `$accountNumber[$x]` and `substr` (lines 53-63) work on bytes. The two agree on ASCII input. A multi-byte character gives different weights to the digits left of it: for "13é78" PHP reads the body as the bytes 1, 3, 0xC3, 0xA9, so N = 1300, the check value is 78 and the number passes; the model reads N = 130, the check value is 96 and the number fails. `Body`, `Tail`, `NumValue` and `IsValidAccountNumber` share this limit.
- The `ValidateAccountNumber` constraint class and its message are not part of this model, beyond the message string the constraint carries.
- `IpsQrCodeService` itself is not part of this model.
  - Its output format and defaults are those its tests pin down.
  - The model reads the currency code from an optional `currencyCode` argument, defaulting to RSD. Only the default appears in the tests.
  - The tests compare payloads after collapsing whitespace. The model emits the separator LF CR "BB" LF CR exactly, which the tests accept.
  - Any escaping or length limits the service may apply are not modelled.
- `IpsQr.DecodeRender` requires that no field contains '|', that the payee name contains no line feed, and that the currency code has exactly three characters. The decoder splits the I segment into currency and amount at the third character. A payload built from other fields cannot be split back unambiguously.
- The rest of the repository (controllers, forms, repositories, other commands, fixtures, templates) is outside this model.
