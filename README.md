# Refuel ledger model

A Dafny model of the refuel registration component of the scoring system
(`src/App.tsx`). A user fills in a name, a WhatsApp contact, a vehicle plate
and an amount; each submission becomes a refuel (`Abastecimento`) in the
record (`Registro`) of that plate, which earns one ticket per 50 currency
units of the refuel, rounded down. The ledger table is shown five records per
page, and each row can be expanded to show its refuel history.

The project has four modules:

- `Amount` (`amount.dfy`): the ticket rule (`TicketsFor`), the digit filter of
  the amount field (`KeepDigits`), and the reading of the typed digits as a
  number of cents (`DigitsValue`). Money is integer cents throughout, so the
  ticket rule `Math.floor(valor / 50)` on `valor = digits / 100` becomes
  `cents / 5000`.
- `Ledger` (`ledger.dfy`): the two record types, the `reduce` that totals a
  history (`SumTickets`), the `findIndex` by plate (`FindPlaca`) and the
  `setRegistros` updater of a submission as the pure function `Upsert`, with
  lemmas on what an upsert changes and what it preserves: unique plates,
  totals equal to the sum over the history, and every refuel's tickets given
  by the rule.
- `View` (`view.dfy`): the page count, `Array.prototype.slice` with its
  negative-index rules, the current page's slice, and the toggle of an
  expanded row.
- `Component` (`component.dfy`): the class `CadastroAbastecimento` holding
  the component state (`registros`, the four form strings, `paginaAtual`,
  `expandidos`) with one method per handler. Its `Valid()` predicate holds
  the invariants the handlers keep.

Some of the code's behaviour differs from what a reader might expect of a
paginated ledger. The model follows the code:

- One might expect at least one page. The code computes
  `Math.ceil(registros.length / 5)`, which is 0 on an empty ledger. The Next
  button is then enabled on page 1 (it is disabled only when the page equals
  the count), and pressing it sets the page to `min(2, 0) = 0`. Page 0 is the
  slice `slice(-5, 0)`, which is always empty. So a record submitted after that
  is not shown until Prev or Next is pressed. Both buttons are enabled on
  page 0 and both move to page 1. `Component.EmptyLedgerNext` walks through
  this sequence using Prev.
- One might expect an out-of-range page such as 0 or 100 to clamp to the
  first or last page. The slice itself does not clamp: both show nothing
  (`View.SevenRecordsExample`). Only the Prev and Next buttons clamp the page
  number.
- One might expect a non-empty plate to be required and plates to be checked
  for uniqueness. The code checks neither beyond the form's `required`
  attributes. Uniqueness follows from the upsert, and
  `Ledger.UpsertKeepsDistinct` proves it.

Expanded rows are keyed by the row's index within the current page, as in
the code (`toggleExpand(index)` is called with the index from
`registrosAtuais.map`). So in the `expandidos` state the model keeps, an
expanded row stays expanded at the same position when the page changes. The
running component never shows this: rendering an expanded row throws (see
`formatarMoeda` under "## Left out"), so no page change can follow an
expansion.

## Model

| member | source | states |
|---|---|---|
| Amount.TicketsFor | src/App.tsx:57-59 | The tickets `t` for an amount of `cents` satisfy `t * 5000 <= cents < (t + 1) * 5000`: one ticket per 50 currency units, rounded down, never negative. |
| Amount.SplitRefuelNeverGains | src/App.tsx:57-59 | The rule is applied per refuel: two refuels never earn more tickets than one refuel of their combined amount. |
| Amount.KeepDigits | src/App.tsx:62 | The filtered field holds only digits and is no longer than the input. |
| Amount.KeepDigitsAppend | src/App.tsx:62 | The filter distributes over concatenation: filtering `a + b` is filtering `a` then `b`. |
| Amount.KeepDigitsChar | src/App.tsx:62 | On a single character the filter keeps it exactly when it is an ASCII digit. With `KeepDigitsAppend` this determines the filter: the digit characters of the input, in their order. |
| Amount.KeepDigitsFixedPoint | src/App.tsx:62 | The filter leaves a string unchanged if and only if the string is all digits. |
| Amount.KeepDigitsIdempotent | src/App.tsx:62 | Filtering twice gives the same result as filtering once. |
| Amount.DigitsValue | src/App.tsx:84-86 | `Number(valor)` on a digits-only field, read as cents, is below `10^length`, and the empty field reads as 0. |
| Amount.DigitsValueOfDecimal | src/App.tsx:84-86 | Every amount in cents, typed as its decimal digits, is read back as exactly that amount. |
| Amount.LeadingZeroIgnored | src/App.tsx:86 | A leading zero typed into the field does not change the amount read. |
| Ledger.SumTickets | src/App.tsx:109-113 | The `reduce` total of a history is 0 for an empty history, and no single refuel's tickets exceed it. |
| Ledger.SumTicketsAppend | src/App.tsx:109-113 | The `reduce` total over a history joined from two parts is the sum of the two totals. |
| Ledger.FindPlaca | src/App.tsx:94-96 | `findIndex` by exact plate equality returns -1 if and only if no record has the plate; otherwise it returns the first index whose record has the plate. |
| Ledger.Upsert | src/App.tsx:93-128 | The length is unchanged if the plate is present. Otherwise it grows by one and the old list is a prefix. Afterwards the plate is present, and every record with another plate is unchanged at its index. |
| Ledger.UpsertExisting | src/App.tsx:97-115 | For a plate first held at `i`: same length; the record at `i` keeps its plate, takes the new name and contact, and its history is the old one plus the new refuel at the end; its total is recomputed as the sum over that new history, which is the old sum plus the refuel's tickets; all other records are unchanged. |
| Ledger.UpsertNew | src/App.tsx:116-127 | For a plate not held: one record is appended at the end and earlier records keep their order and contents. The new record holds exactly the new refuel, and its total is that refuel's tickets, which is the sum over its history. |
| Ledger.UpsertKeepsDistinct | src/App.tsx:94-127 | If plates are pairwise distinct before a submission, they are pairwise distinct after it. |
| Ledger.UpsertKeepsTotals | src/App.tsx:93-128 | If every record's total equals the sum of its history's tickets before a submission, the same holds after it. |
| Ledger.UpsertKeepsTicketRule | src/App.tsx:87-128 | If the new refuel's tickets follow the rule, every refuel in the ledger still carries the tickets the rule gives its amount. |
| Ledger.UpsertAllExisting | src/App.tsx:97-115 | Submitting a held plate once per refuel of a list keeps the record at its index and leaves every other record unchanged. The history grows by exactly that list in order, and the total is the sum over the whole history. |
| Ledger.UpsertAllNew | src/App.tsx:93-128 | Submitting a new plate once per refuel of a non-empty list appends exactly one record. Its history is the list, its total is the list's ticket sum, and the earlier records are untouched. |
| Ledger.TwoRefuelsScenario | src/App.tsx:82-128 | 150.00 then 80.00 for a new plate, typed as the digits "15000" and "8000" and read as cents: 3 tickets then 1, one record, two refuels, total 4. |
| View.PageCount | src/App.tsx:156 | The page count is the ceiling of `n / 5`: `c * 5 >= n`, and `(c - 1) * 5 < n` when `c > 0`. So an empty ledger has 0 pages. |
| View.SliceBound | src/App.tsx:151-154 | A slice bound is placed in `[0, len]`. A non-negative bound is clamped to `len`, a negative one counts back from the end, and one before the start becomes 0. |
| View.JsSlice | src/App.tsx:151-154 | `slice(start, end)` is at most as long as the list. With `0 <= start <= end` it is `s[start..end]` clamped to the list. With negative bounds that are inside the list, both count back from the end. Otherwise, with each bound placed by `SliceBound`, it is empty when the placed end is not past the placed start, and the part of the list between them when it is. This covers mixed signs such as page 0's `slice(-5, 0)`. |
| View.PageSlice | src/App.tsx:149-154 | Page `p >= 1` shows the records `[(p - 1) * 5, p * 5)` clamped to the ledger, never more than five. Every page up to the page count is non-empty, and page 0 is empty. |
| View.PagesCoverLedger | src/App.tsx:149-156 | Laying pages 1 to the page count end to end gives back the whole ledger in order. |
| View.SevenRecordsExample | src/App.tsx:149-156 | Seven records: two pages, holding records 1-5 and 6-7. Pages 0 and 100 are empty. |
| View.Toggle | src/App.tsx:137-147 | The toggled index changes membership, and every other index keeps its membership. |
| View.ToggleTwice | src/App.tsx:137-147 | Toggling the same index twice restores the set. |
| Component.CadastroAbastecimento.NumeroPaginas | src/App.tsx:156 | The page count holds every record: `numeroPaginas * 5 >= registros.length`. |
| Component.CadastroAbastecimento.RegistrosAtuais | src/App.tsx:149-154 | The table shows at most five records, each of them from the ledger. |
| Component.CadastroAbastecimento.constructor | src/App.tsx:48-54 | The initial state: empty ledger and fields, page 1, no expanded rows; the invariant holds. |
| Component.CadastroAbastecimento.SetNome | src/App.tsx:171 | The name field takes the typed text; nothing else changes. |
| Component.CadastroAbastecimento.SetWhatsapp | src/App.tsx:180 | The contact field takes the typed text; nothing else changes. |
| Component.CadastroAbastecimento.SetPlaca | src/App.tsx:189 | The plate field takes the typed text; nothing else changes. |
| Component.CadastroAbastecimento.ValorChange | src/App.tsx:61-64 | The amount field becomes the digits of the typed text, so it stays digits-only. |
| Component.CadastroAbastecimento.Submit | src/App.tsx:82-135 | The ledger becomes the upsert of a refuel whose amount is the field's digits read as cents and whose tickets follow the rule. The four fields are cleared, the page and expanded rows are unchanged, and unique plates, consistent totals and the ticket rule are preserved. |
| Component.CadastroAbastecimento.ToggleExpand | src/App.tsx:137-147 | The expanded set becomes the toggle of the old one at `index`; nothing else changes. |
| Component.CadastroAbastecimento.Prev | src/App.tsx:275-278 | With or without the disabled guard the page becomes `max(prev - 1, 1)`, so it is never below 1. |
| Component.CadastroAbastecimento.Next | src/App.tsx:284-289 | With or without the disabled guard the page becomes `min(prev + 1, numeroPaginas)`, so it is never above the page count. On an empty ledger that is 0. |
| Component.EmptyLedgerNext | src/App.tsx:149-156 | Next on an empty ledger moves to page 0. A record submitted then is in the ledger but not shown on page 0, and Prev from page 0 shows it on page 1. |

## Left out

- `formatarMoeda` (src/App.tsx:36-41): it delegates to `toLocaleString`, whose locale data is not part of this model. It passes the quoted tags `"'pt-BR'"` and `"'BRL'"`, and neither is well formed: `'pt-BR'` is not a valid language tag, and `'BRL'` is not a three-letter currency code. So by ECMA-402 every call throws a `RangeError`. The model specifies no output for it and no format/parse round trip.
- Because `formatarMoeda` throws, `handleValorBlur` (src/App.tsx:66-71) never rewrites the field. The model's digits-only amount field is therefore what the code does, not only a simplification. Expanding a row also calls `formatarMoeda` while rendering the history (src/App.tsx:259), so the render throws. The model keeps only the expanded-row set and not that failure.
- `parseMoeda` (src/App.tsx:43-45), the `"R$"` branch of `handleSubmit` and `handleValorBlur`: they depend on `formatarMoeda` having produced an `"R$"` text. The blur is left out, so the amount field only ever holds digits, and the `"R$"` branch is never taken. Also, `parseMoeda`'s `.replace("','", "'.'")` looks for a three-character literal that its own regex has already removed, so it never converts a decimal comma.
- `handleValorFocus` (src/App.tsx:73-80): its branch needs a field starting with `"R$"`, which the model's digits-only field never holds. The `setSelectionRange` cursor move is presentation.
- Amount.DigitsValue: it models `Number` only on digit strings, which is all the field holds. `Number`'s handling of other text (NaN, whitespace, exponents, hex) is not modelled.
- Floating-point arithmetic: the model stores the amount of a refuel as integer cents, while the code stores `Number(valor) / 100`, a double in currency units. That double is generally not exact: for the digits "1" it is the double nearest 0.01. Below 2^53 cents, two values are exact: `Number(valor)` on the digits, and the floored ticket count, which equals `cents / 5000`. Beyond 2^53 cents the floating-point results are not modelled.
- The timestamp `new Date().toLocaleString("pt-BR")` is the opaque `data` parameter of `Submit`.
- The `required` attributes of the form (empty fields are not rejected by the model; an empty amount reads as 0 cents), all JSX, the UI components and icons, and React's scheduling of state updates. Each updater is one atomic transition, and `Submit` reads the field values of the current render, as the updater's closure does.
- Ledger.UpsertAllExisting: it uses one name and contact for the whole run of submissions. A run with changing names is covered step by step by `Ledger.UpsertExisting`.
- Ledger.UpsertAllNew: it uses one name and contact for the whole run of submissions, for the same reason.
