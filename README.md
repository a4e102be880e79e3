# Billing records: timesheet totals and contact display

A Dafny model of two pieces of logic from a billing-record library (the
`clinvoice_schema` / winvoice-schema crate):

- **`Timesheet::total_all`**: the money owed for a list of timesheets at one
  hourly rate. Timesheets without an end time are skipped, expenses and all.
  Each closed timesheet adds the hourly rate times its whole seconds over
  3600, then the cost of each of its expenses. The sum is rounded to two
  fractional digits and returned in the hourly rate's currency. Adding an
  expense in a different currency panics.
- **`Display for Contact`**: a contact renders as `"<label>: <kind>"`. An
  address renders its chain of locations from the innermost one outwards,
  joined by `", "`. An email address or a phone number renders as itself.

Files:

- `wrappers.dfy`: `Option`.
- `money.dfy` (module `Decimals`): the parts of the `money2` value types that
  the total uses. `Currency` is a tag. `Decimal` is a mantissa and a number
  of fractional digits, as `rust_decimal` stores it. `Money` is a decimal
  amount in one currency. `Rescale` is the final rounding to a fixed number
  of fractional digits.
- `timesheet.dfy` (module `Timesheets`): the records (`Expense`,
  `Timesheet`), the specification of the total (`RunningTotal`,
  `TotalAllSpec`), the accumulating method `TotalAll`, and lemmas about the
  total.
- `contact_display.dfy` (module `Contacts`): `Location`, `ContactKind`,
  `Contact`, their renderings, and lemmas about them.

Modelling choices:

- Amounts are summed as exact `real`s until the final rounding. Inputs and
  the result are `Decimal`s, so "exactly two fractional digits" is
  `scale == 2`.
- Time stamps are whole nanoseconds since the epoch, the resolution of
  `DateTime<Utc>`. This makes the truncation of `num_seconds` toward zero
  explicit (`WholeSeconds`).
- The panic of `Money` addition on a currency mismatch is the precondition
  `ExpensesInCurrency` of `TotalAll`. It covers only expenses on closed
  timesheets, because ongoing ones are filtered out before any addition.
- The code lets a timesheet end before it begins. Such a timesheet subtracts
  its time from the total (`NegativeSpanReducesTotal`).
- `label` is a reserved word in Dafny, so the contact's label field is
  called `labelText`.
- The renderers of `Location` and `ContactKind` are in files that are not
  part of this model. Their behaviour is taken from the `display` test in
  `src/contact/display.rs`.

## Model

| member | source | states |
|---|---|---|
| `Timesheets.TotalAll` | src/timesheet.rs:115-137 | Starting from zero in the rate's currency, the loop visits the closed timesheets in order. Each adds its labour, then each of its expenses. The sum is rounded to two digits. The result equals `TotalAllSpec`, is in the hourly rate's currency and has scale 2. It requires every expense on a closed timesheet to be in the rate's currency, because the addition panics otherwise. |
| `Timesheets.TotalAllSpec` | src/timesheet.rs:121-136 | The total is in the hourly rate's currency and has exactly two fractional digits. Its mantissa is within half a cent of 100 times the unrounded running total. |
| `Timesheets.WholeSeconds` | src/timesheet.rs:124-129 | The whole seconds of a span of nanoseconds, truncated toward zero for positive and negative spans alike. |
| `Timesheets.Closed` | src/timesheet.rs:122 | The filter keeps exactly the timesheets that have an end time. |
| `Timesheets.ClosedOfOne` | src/timesheet.rs:122 | One timesheet passes the filter exactly when it has an end time. |
| `Timesheets.ClosedAppend` | src/timesheet.rs:122 | The filter distributes over concatenation, so it keeps the order of the timesheets and every repeated one. |
| `Timesheets.RunningTotalIsBilledSum` | src/timesheet.rs:121-133 | Left-to-right accumulation that skips ongoing timesheets equals the sum, over the closed timesheets only, of labour plus expenses. |
| `Timesheets.RunningTotalAppend` | src/timesheet.rs:121-133 | Before rounding, the total over `a + b` is the total over `a` plus the total over `b`. |
| `Timesheets.ExpenseSumAppend` | src/timesheet.rs:132 | The expense sum over `a + b` is the sum over `a` plus the sum over `b`. |
| `Timesheets.ExpenseAddsItsCost` | src/timesheet.rs:132 | Each expense adds exactly its cost amount, wherever it stands in the list. |
| `Timesheets.OngoingTimesheetIsIgnored` | src/timesheet.rs:122 | Inserting an ongoing timesheet anywhere changes neither the total nor the currency precondition. Neither its time nor its expenses count. |
| `Timesheets.ClosedTimesheetAddsLabourAndExpenses` | src/timesheet.rs:123-132 | A closed timesheet, wherever it stands, adds `rate × whole seconds / 3600` plus the sum of its expense costs. |
| `Timesheets.AllOngoingTotalsZero` | src/timesheet.rs:121-135 | A list of only ongoing timesheets, including the empty list, satisfies the precondition. It totals zero with scale 2 in the rate's currency. |
| `Timesheets.TotalIsExactForWholeCents` | src/timesheet.rs:135 | When the unrounded total is a whole number of cents, the rounded total is exactly that amount. |
| `Timesheets.NegativeSpanReducesTotal` | src/timesheet.rs:123-130 | A timesheet that ends at least a second before it begins is not rejected. Wherever it stands, at a positive rate, it adds less than its expenses, so its time is subtracted from the total. Alone in the list and without expenses, it makes the total negative. |
| `Timesheets.DocExampleTotal` | src/timesheet.rs:70-90 | Two half-hour timesheets at 20.00 USD an hour, one with a 20.00 USD expense, total exactly 40.00 USD. |
| `Timesheets.DocExampleEurPanics` | src/timesheet.rs:93-113 | With a EUR hourly rate, the same timesheets violate the precondition: the USD expense would make the addition panic. |
| `Timesheets.OngoingExpenseExample` | src/timesheet.rs:122-132 | An ongoing timesheet with a 20.00 USD expense next to a closed half hour at 20.00 USD an hour totals 10.00 USD. |
| `Decimals.Rescale` | src/timesheet.rs:135 | The rescaled decimal has exactly the requested number of fractional digits. Its mantissa is within half a unit of the scaled input. |
| `Decimals.RescaleKeepsShorterDecimal` | src/timesheet.rs:135 | Rescaling a decimal that already has no more fractional digits than asked only pads its mantissa with zeros. The value is unchanged. |
| `Contacts.RenderContact` | src/contact/display.rs:7-10 | The text is the label, then `": "`, then the text of the kind, and nothing else. |
| `Contacts.RenderContactSplits` | src/contact/display.rs:9 | When the label holds no colon, splitting the text at its first `": "` gives back the label and the kind's text. |
| `Contacts.RenderLocation` | src/contact/display.rs:24-47 | An address's text is the names along its chain, innermost first, joined by `", "`, with nothing after the outermost one. |
| `Contacts.RenderKind` | src/contact/display.rs:44-60 | An address renders as the names along its chain joined by `", "`. An email address and a phone number render as their bare strings. |
| `Contacts.NamesFollowTheChain` | src/contact/display.rs:26-42 | The k-th name in that list is the name of the location k steps outward. |
| `Contacts.AncestorsEndAtDepth` | src/contact/display.rs:24-42 | The owned chain is finite. It has exactly `Depth` locations, and the last of them is the root, which has no outer location. |
| `Contacts.RenderLocationBounds` | src/contact/display.rs:24-47 | An address's text starts with its own name and ends with the root's name. There is no separator after the root. |
| `Contacts.RenderLocationLength` | src/contact/display.rs:44-47 | An address's text is as long as all its names plus two characters between each two neighbours. |
| `Contacts.OfficeAddressRendering` | src/contact/display.rs:44-47 | The five-level chain renders as `Office: 1337 Some Street, Phoenix, Arizona, USA, Earth`. It has depth 5 and root `Earth`. |
| `Contacts.EmailRendering` | src/contact/display.rs:48-52 | An email contact renders as `Email: foo@bar.io`. |
| `Contacts.PhoneRendering` | src/contact/display.rs:53-60 | A phone contact renders as `Cellphone: 1-603-555-5555`. |

## Left out

- Currency exchange is left out. The `exchange` modules of timesheets and jobs and their rate tables are not part of this model.
- Decimals.Rescale: the contract states only what holds for any round-to-nearest rule: the scale, the half-unit bound and exactness on shorter decimals. The body rounds halves away from zero. The rounding mode belongs to the decimal library.
- Decimal precision is not bounded. `rust_decimal` holds 28 significant digits, so dividing the seconds by 3600 can round, and a large enough value overflows. The model computes the unrounded total exactly.
- Timesheets.TotalAll: a currency mismatch is a precondition, not a modelled panic, so the model says nothing about timesheets that violate it.
- `Employee` and `Job` keep only their identifiers. `Expense` keeps `id`, `category`, `cost` and `description`; its source file is not part of this model.
- `Location` keeps only `name` and `outer`. The test leaves its other fields at their defaults. The renderer is not part of the source, so the model assumes they do not affect the text.
- A `Formatter` write can fail. The model renders to a string and has no error path.
- Serialization attributes, `Id` generation, `Default` implementations and the lazily initialised seconds-per-hour constant are left out. The constant is the literal 3600.
- The doc comment of `total_all` mentions an `exchange_rates` argument, but the signature has no such parameter. The model has none.
- Job's `increment` rounding rule is documented but not implemented in the library, so it is not modelled.
- `src/lib.rs` (module declarations and lint settings) and `ci/test.ts` (the CI pipeline) are not modelled.
