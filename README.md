# Progressive motor tax (pajak progresif) — a Dafny model

This project models the logic of a small web application that computes the
progressive motor-vehicle tax of a jurisdiction and keeps a catalogue of
motors to compute it for. Three pieces carry that logic:

- the tax calculator `calculateTax`: from an assessed value (nilai jual) and
  an ownership rank (kepemilikan ke-) it derives the transfer fee BBNKB
  (12.5%), the PKB rate (16% plus 8 points per further rank), PKB, the
  progressive surcharge (PKB beyond first-vehicle PKB), three fixed fees
  (SWDKLLJ 35,000, STNK administration 100,000, TNKB administration 60,000)
  and the total — module `Tax` (`tax.dfy`);
- the catalogue page's form check `validateForm`: name and type must be
  non-blank and at least two characters after trimming, the value must be in
  (0, 1,000,000,000] (a value that reads as NaN also passes), and a name that matches a listed motor ignoring case
  (other than the motor being edited) overrides the name message with
  "already exists" — module `MotorPage` (`motor_page.dfy`);
- the `/api/motors` route: `POST` runs an ordered ladder of early returns
  (missing field 400, non-string field 400, value out of range 400, stored
  name 409, otherwise create 201, any failure 500), and `GET` lists the
  motors by name ascending — module `MotorsRoute` (`motors_route.dfy`), with
  the motor table as the class `MotorStore`.

Supporting modules: `JsValues` (JavaScript numbers with NaN and the
infinities, JSON body values, truthiness, `Number(...)`), `Text` (ASCII
`trim()` and `toLowerCase()`), `Optional`.

The calculator is a pure function over exact reals and is total over integer
ranks. The only caller checks that the rank is at least 1 before calling
(src/app/page.tsx:58), so the lemmas that need that bound require it and the
calculator itself does not.

Code the route uses but does not define — `sanitizeString`,
`sanitizeNumber`, and the engine's reading of a string as a number — enters as
the parameter `Externals`. The points where a request can fail outside the
route's own checks enter as the parameter `Fault`: an unreadable body, a
failing lookup, or a failing create.

## Model

| member | source | states |
|---|---|---|
| `Tax.CalculateTax` | src/lib/calculateTax.ts:13-47 | the value is echoed unchanged; BBNKB is one eighth of the value; the reported rate is the percentage 16 + 8(k-1); PKB is BBNKB times that rate; the surcharge is PKB minus first-vehicle PKB and equals BBNKB · 0.08 · (k-1); the three fees are 35,000, 100,000 and 60,000; total = PKB + 195,000; at rank 1 the surcharge is 0 and the rate 16 |
| `Tax.TarifPkbUniform` | src/lib/calculateTax.ts:19-24 | the rate is 0.16 + 0.08(k-1) for every rank, so the special case for rank 1 agrees with the general branch |
| `Tax.SurchargeNonNegative` | src/lib/calculateTax.ts:26-28 | for a value ≥ 0 and a rank ≥ 1 the surcharge is ≥ 0 and PKB is at least first-vehicle PKB |
| `Tax.TotalStrictlyIncreasing` | src/lib/calculateTax.ts:17-34 | for a positive value, raising the rank from k1 to k2 raises the total by exactly value · (k2-k1) / 100, so the total is strictly increasing in the rank |
| `Tax.LinearInValue` | src/lib/calculateTax.ts:17-28 | for a fixed rank, BBNKB, PKB and the surcharge are linear in the value |
| `Tax.ExampleEighteenMillion` | src/lib/calculateTax.ts:17-45 | the full breakdown for value 18,000,000 at ranks 1, 2 and 3 (totals 555,000, 735,000 and 915,000) |
| `JsValues.Truthy` | src/app/api/motors/route.ts:25 | a value is falsy exactly when it is undefined, null, false, 0 or the empty string; every other value, arrays and objects included, is truthy |
| `JsValues.ToNumber` | src/app/api/motors/route.ts:39 | `Number(v)` of a string is what the engine's string reading gives, and of an array or object what it gives for the value's primitive string (so `[5]` reads as 5); of a number, that number; of `true` 1, of `false` and `null` 0; of undefined NaN, and no other non-string, non-object value is NaN; of null, a boolean or a number it is non-zero exactly when the value is truthy |
| `JsValues.NaNEscapesBothComparisons` | src/app/motor/page.tsx:73-78 | NaN is the only number for which both `n <= bound` and `n > bound` are false: it is why the page's two comparisons let a NaN value through, and why the route needs its explicit `isNaN` test (src/app/api/motors/route.ts:40) |
| `Text.ToLower` | src/app/motor/page.tsx:82 | `toLowerCase()` keeps the length, moves each upper-case letter up by 32 code points, keeps every other character, and leaves no upper-case letter |
| `Text.Trim` | src/app/motor/page.tsx:61-71 | `trim()` yields the infix of the input after its leading blanks that neither starts nor ends with a blank, and is empty exactly when the input is blank |
| `MotorPage.TextFieldError` | src/app/motor/page.tsx:61-71 | a blank field gets the "harus diisi" message, a field of one character after trimming the "minimal 2 karakter" message, and a field of two or more none |
| `MotorPage.NameError` | src/app/motor/page.tsx:61-87 | a name that is a duplicate gets "sudah ada", overriding the rest; otherwise a blank name gets "harus diisi", a one-character trimmed name "minimal 2 karakter", and any other none |
| `MotorPage.NilaiError` | src/app/motor/page.tsx:73-78 | an empty value or one ≤ 0 gets "lebih dari 0", one above 1,000,000,000 "terlalu besar", and one in (0, 1,000,000,000] or NaN none |
| `MotorPage.AnyClash` | src/app/motor/page.tsx:81-84 | the scan is true exactly when some listed motor has the lower-cased key as its lower-cased name and is not the motor being edited |
| `MotorPage.ValidateForm` | src/app/motor/page.tsx:58-91 | each field's message in terms of its own input only: a duplicate name gets "sudah ada", overriding the blank and too-short name messages; type follows the name's two rules on its own; an empty value or one ≤ 0 gets "lebih dari 0", one above 1,000,000,000 "terlalu besar", and exactly 1,000,000,000 or NaN none; the form is accepted exactly when no field has a message |
| `MotorPage.EditingKeepsOwnName` | src/app/motor/page.tsx:81-84 | when editing a listed motor whose trimmed name is unchanged, and listed names are distinct ignoring case, no duplicate is reported and the name message is that of the blank/length rule alone |
| `MotorPage.DuplicateIgnoresCaseAndBlanks` | src/app/motor/page.tsx:81-87 | a new name that equals a listed name after trimming and lower-casing is refused with "sudah ada" |
| `MotorPage.NonNumericValuePasses` | src/app/motor/page.tsx:73-78 | a value that reads as NaN gets no value message |
| `MotorPage.NilaiBounds` | src/app/motor/page.tsx:73-78 | 1,000,000,000 is accepted, anything above it is "terlalu besar", and 0 or an empty field is "lebih dari 0" |
| `MotorsRoute.CheckBody` | src/app/api/motors/route.ts:24-45 | a falsy field (including a value of 0 or "") gives "Missing required fields"; otherwise a non-string name or type gives "must be strings"; otherwise a `Number(nilai)` that is NaN, ≤ 0 or above 1,000,000,000 gives the range message; the body is accepted exactly when name and type are non-empty strings and the value is in (0, 1,000,000,000], and then carries them unchanged |
| `MotorsRoute.FindFirst` | src/app/api/motors/route.ts:48-50 | finds nothing exactly when no stored motor has the name, and otherwise the first stored motor that has it |
| `MotorsRoute.SortByName` | src/app/api/motors/route.ts:7-9 | the result is ordered by name ascending and is a permutation of the stored motors |
| `MotorsRoute.ServerNameMatchIsExact` | src/app/api/motors/route.ts:48-57 | the route's name match is exact: with "Beat" stored the form reports "beat" as a duplicate, but the route accepts it and its lookup finds nothing |
| `MotorsRoute.CreatesCaseVariant` | src/app/api/motors/route.ts:48-67 | with identity sanitising, posting "Beat" to an empty table and then "beat" answers 201 both times and creates both records |
| `MotorsRoute.MotorStore.Get` | src/app/api/motors/route.ts:5-18 | a failing store gives 500; otherwise 200 with every stored motor, ordered by name ascending |
| `MotorsRoute.MotorStore.Post` | src/app/api/motors/route.ts:20-75 | an unreadable body gives 500; a body the guards reject gives 400 with the guard's message; a failing lookup 500; a stored sanitised name 409; a failing create 500; otherwise 201; the store is unchanged on every path but 201, where exactly one record is appended holding the sanitised name, type and value under a fresh id and a name not stored before, so distinct names stay distinct |

## Left out

- Floating point: the source computes in IEEE-754 doubles (0.16 + 0.08·(k-1) is not exact in binary); the model uses exact reals, so rounding is not captured. This includes the rounding `JSON.parse` applies to number literals in a request body: a literal that overflows becomes Infinity and one that underflows becomes 0 (so `{"nilai": 1e-400}` is answered "Missing required fields"), whereas the model takes the literal's exact value.
- Tax.CalculateTax: the rank is an integer; the source accepts any JavaScript number, and non-integer ranks are not modelled.
- Display formatting (`toLocaleString`) and all rendering components, the keyboard-navigation hook and the screen-reader announcement: they only display values or manage focus and timing.
- The string-to-number grammar of `Number(...)`: it is the parameter `parseNumber` on the route and, on the page, the value field is given as already read (`Empty` or `Entered(number)`); for example, a non-numeric string reads as NaN and then passes the page's value rule, as `NonNumericValuePasses` shows.
- JsValues.ToNumber: the conversion of an array or object to its primitive string (`toString`, `valueOf`, `Symbol.toPrimitive`) is not computed; the body value carries that string.
- `trim()` and `toLowerCase()` are modelled on ASCII only: non-ASCII whitespace and case mappings are not captured, and lengths count characters rather than UTF-16 code units.
- `sanitizeString` and `sanitizeNumber` are not part of this model; they are arbitrary functions supplied as parameters.
- The database: lookups and creation act on a sequence of records; ids are assigned by a counter standing in for the table's auto-increment; failures of the body or the store are a parameter rather than exceptions; concurrent requests are not modelled.
- MotorsRoute.SortByName: name order is lexicographic by character code; the database's collation and its order among equal names are not modelled, so `Get` promises only sortedness and a permutation.
- The page's `fetchData`, `saveMotor` and `deleteMotor`, the React state, and the `PUT`/`DELETE` handlers of `src/app/api/motors/[id]/route.ts`: they are HTTP and UI plumbing outside the modelled logic.
