# Premium re-rating engine

A Dafny model of the re-quote engine of the insurance back end
(`_get_quote_internal` and `obtener_derecho` in `Backend/CotiCau.py`). Given a
policy row, its tax rows and the emission-fee table, the engine searches for
the applied rate (`tasaAplicada`) whose premium lands within 0.01 of a target
premium. Each pass of the search computes these, in order:

- the tariff premium, from the rate per mille of the insured sum, prorated by days of cover;
- a fixed 15% administrative surcharge;
- the emission fee, by a nearest-below lookup in the fee table;
- the taxable base;
- the tax lines, in two order-sensitive passes: a linking pass, then a cascade on a running total;
- the rounded premium.

It then rounds the last pass and spreads any installment surcharge over the
components and the taxes. It answers with a `QuoteDetails` record.

Modules, one file each:

- `money.dfy` (`Money`): amounts are exact `real`s. Python's `round(x, 2)` is
  `Round2`, the nearest cent with ties going up. `IsCent` marks whole cents.
- `fee_schedule.dfy` (`FeeSchedule`): the fee table and `obtener_derecho` as
  `FeeFor`, with its nearest-below specification.
- `targets.dfy` (`Targets`): the target premium (factor 4.3, 4.8 or 3.0 per
  hundred of `sumaTotal` for policy types F, C and U), the installment
  percentage table, and the effective target the search compares against.
- `tax_cascade.dfy` (`TaxCascade`): the `ImpuestoDetalle` lines and the four
  passes over them. Each pass is a method with the source's loop, proved
  against a specification function:
  - the linking pass, with `base_ori` as a prefix scan;
  - the cascade on the running total;
  - the re-linking pass of the installment surcharge;
  - the flat rebase on the intermediate premium.
- `rate_search.dfy` (`RateSearch`): one pass of the search as a function
  (`Evaluate`) and as a method (`PricePass`), the rate bracket and its
  bisection, and the search loop `Solve`. `Solve` carries a ghost trace of every
  pass it made.
- `quote.dfy` (`Quote`): the final rounding, the installment surcharge, the
  `QuoteDetails` record and the whole handler `GetQuote`, including its error
  outcomes.
- `wrappers.dfy` (`Wrappers`): `Option` and `Result`.

The model follows the code as written, including these behaviours:

- A policy type other than F, C or U keeps the reported premium as the target; it does not fall back to factor 4.3.
- A row is linked when every earlier tax base is 0 or when its base equals the first non-zero base. So a leading run of zero bases is linked, and a zero base after the reference is set is not.
- The financial surcharge is reported but never enters the premium.
- A request without an installment count fails. `effective_target_premio` is never bound, so the first exit test raises and the handler answers 500.
- The exit test compares against the effective target. The bisection direction compares against the undivided target.
- When 100 passes all miss, the handler answers with the values of the last pass and no error. The reported rate is then the midpoint after the last bisection, not the rate that produced those values.

## Model

| member | source | states |
|---|---|---|
| Money.Round2 | Backend/CotiCau.py:563-564 | `round(x, 2)`: the result is a whole number of cents and lies within half a cent of x (above by at most 0.005, below by less) |
| Money.Max | Backend/CotiCau.py:523 | the larger of the two arguments: at least both, and equal to one of them |
| Money.RoundShift | Backend/CotiCau.py:615-619 | adding whole cents before or after rounding gives the same result, so rounding a base that is then added to a cent-valued tax total does not move the premium |
| FeeSchedule.NearestBelowSpec | Backend/CotiCau.py:364-374 | the scan finds no row exactly when every PRIMA exceeds the premium; otherwise it finds the row with the largest PRIMA at most the premium, the first one on ties (as `idxmax` does) |
| FeeSchedule.NearestBelowUnique | Backend/CotiCau.py:372-373 | at most one row satisfies that description, so the fee is well defined |
| FeeSchedule.FeeForNearest | Backend/CotiCau.py:364-374 | `obtener_derecho`: when every PRIMA exceeds the premium, the DERECHO of the first row; otherwise the DERECHO of the nearest-below row |
| FeeSchedule.FeeForMonotone | Backend/CotiCau.py:364-374 | on a table whose PRIMA and DERECHO both ascend, a larger premium never gets a smaller fee |
| Targets.UpperIsLetter | Backend/CotiCau.py:436 | `tipo.upper()` equals a given upper-case letter exactly when `tipo` is that letter in either case |
| Targets.TargetRules | Backend/CotiCau.py:434-442 | without `sumaTotal` the target is `premioinformado`; with it, an empty type or F/f gives 4.3 per hundred, C/c 4.8 and U/u 3.0; any other type keeps `premioinformado` |
| Targets.InstallmentPct | Backend/CotiCau.py:497-511 | the surcharge is non-zero exactly for 3, 6, 9 and 12 installments, and always lies in [0, 100) |
| Targets.AumentoPct | Backend/CotiCau.py:493-511 | the surcharge is always in [0, 100), and it is non-zero exactly when an installment count of 3, 6, 9 or 12 was given; no count means no surcharge |
| Targets.EffectiveTargetPremio | Backend/CotiCau.py:513-520 | bound exactly when an installment count was given, and then it is the premium that the surcharge factor turns into the target |
| Targets.EffectiveBelowTarget | Backend/CotiCau.py:513-520 | with a surcharge and a positive target, the search aims strictly below the target |
| TaxCascade.LinkedIff | Backend/CotiCau.py:557-560 | the `base_ori` rule links a row exactly when all earlier bases are 0 or its base equals the first non-zero base |
| TaxCascade.LinkedWhenNoZeroBases | Backend/CotiCau.py:557-560 | when no base is 0, a row is linked exactly when its base equals the first row's |
| TaxCascade.LinkTaxes | Backend/CotiCau.py:557-578 | the linking loop yields one line per tax row, in order, with its code and rate; linked rows are taxed on `Round2(base_imponible)`, the others get base 0 and amount 0 |
| TaxCascade.LinkRowsClean | Backend/CotiCau.py:557-578 | after the linking pass every amount is in cents and every zero-base line carries no amount |
| TaxCascade.CascadeShape | Backend/CotiCau.py:580-586 | the cascade keeps each line's code and rate, leaves lines with a non-zero base untouched, and taxes each rebased line at its rate on its new base |
| TaxCascade.CascadeRunning | Backend/CotiCau.py:580-586 | each zero-base line is taxed on the starting total plus exactly the amounts of the zero-base lines rebased before it |
| TaxCascade.CascadeCent | Backend/CotiCau.py:580-586 | the cascade keeps every amount in cents |
| TaxCascade.ApplyCascade | Backend/CotiCau.py:580-589 | the in-place loop produces the cascade starting from `Round2(sum of amounts) + base_imponible`, and the total is the rounded sum of the new amounts |
| TaxCascade.SumCent | Backend/CotiCau.py:589 | a sum of cent amounts is in cents, so the final rounding of the tax total changes nothing |
| TaxCascade.SumSplit | Backend/CotiCau.py:646-650 | when only untaxed zero-base lines change, the new sum is the old sum plus the amounts they now carry |
| TaxCascade.RelinkTaxes | Backend/CotiCau.py:632-642 | the re-linking loop applies the `base_ori` rule to the lines' current bases, taxes linked lines on the new subtotal, zeroes the others, and totals the amounts |
| TaxCascade.RelinkedClean | Backend/CotiCau.py:632-642 | after re-linking every amount is in cents and every zero-base line carries no amount |
| TaxCascade.RebaseZeroLines | Backend/CotiCau.py:646-650 | the flat loop taxes every zero-base line on the same amount and adds exactly their new amounts to the running total |
| TaxCascade.FlatRebasedSum | Backend/CotiCau.py:643-650 | after the flat rebase, the total is the re-linked total plus the rebased amounts, and all amounts stay in cents |
| TaxCascade.RelinkFlatShape | Backend/CotiCau.py:632-650 | after re-linking on the subtotal and the flat rebase, a line is taxed on the subtotal if it was linked and the subtotal is not 0, and on the intermediate premium otherwise |
| RateSearch.PricePass | Backend/CotiCau.py:536-592 | the loop body, written step by step with the linking and cascade loops, computes exactly the pass specified by `Evaluate` |
| RateSearch.EvaluateSettled | Backend/CotiCau.py:536-592 | every pass has a 15% surcharge, base = prima − 0 + surcharge + fee, one line per tax row with its code and rate, amounts in cents, a tax total equal to their sum, and premium `Round2(base + taxes)` |
| RateSearch.StartOrdered | Backend/CotiCau.py:522-524 | from a non-negative stored rate, the first bracket has `tasa_min = 0 <= tasa_actual <= tasa_max` |
| RateSearch.BisectNarrows | Backend/CotiCau.py:599-605 | one update keeps the bracket ordered inside the old one and never widens it; `tasa_min` rises exactly when the premium is below the target, otherwise `tasa_max` falls; the new rate is the midpoint; from a midpoint the width halves |
| RateSearch.OvershootKeepsRising | Backend/CotiCau.py:595-602 | a premium above the window around the effective target but below the undivided target misses, and the rate still rises |
| RateSearch.ChainNarrows | Backend/CotiCau.py:599-605 | along the passes every bracket stays ordered inside the first; after n ≥ 1 updates the rate is the midpoint and the width is at most the first width / 2^(n−1) |
| RateSearch.TraceBounds | Backend/CotiCau.py:522-605 | from a non-negative stored rate, the last bracket and the update after it stay ordered within [0, the starting `tasa_max`] and hold the last pass's rate |
| RateSearch.Solve | Backend/CotiCau.py:522-607 | the loop makes at most 100 passes, each priced by the loop body, and each miss bisects on the undivided target; it stops early exactly when the premium is within 0.01 of the effective target, without counting that pass; it returns the last pass's values and the bracket it leaves, which is that pass's own bracket on convergence and the next bisection after 100 misses |
| Quote.SpreadInstallment | Backend/CotiCau.py:624-652 | the surcharge block: prima, administrative surcharge and fee scaled and rounded; a subtotal that is their sum; the lines re-linked on their current bases and then flat-rebased on the intermediate premium; the premium is exactly the subtotal plus the taxes |
| Quote.ApplyInstallment | Backend/CotiCau.py:609-652 | with no surcharge the final values are the last pass's, with the base rounded and the same premium; with one, they are the surcharge block applied to the last pass; in both cases the premium is subtotal + taxes |
| Quote.Assemble | Backend/CotiCau.py:609-677 | the record has bonus 0, administrative percentage 15, the row's financial surcharge (rounded) outside the premium, the row's notary costs, one tax line per tax row, and premium = subtotal + taxes; its amounts follow the last pass as `ApplyInstallment` says |
| Quote.Answer | Backend/CotiCau.py:522-677 | the search from the stored rate followed by the assembly, reporting the rate the search leaves behind |
| Quote.GetQuote | Backend/CotiCau.py:403-680 | a missing policy row fails (404 turned into 500); then an empty fee table fails; then a missing installment count fails; otherwise the handler answers with a record priced as above from the search's last pass, with `sumaTotal` as the insured sum when given; without a surcharge, a converged search answers with a premium within 0.01 of the target |

## Left out

- The FastAPI application, its routes and middleware, and the `.env` loading. These are I/O plumbing.
- The SQL queries over pyodbc. The policy row and the tax rows are parameters of `GetQuote`, and a missing row is `None`.
- Loading the fee table from `deremi.xlsx` through pandas. The table is a parameter.
- The sample policyholders and quotes dictionaries. They are fixtures.
- The legacy `/recotizar/` handler. `_get_quote_internal` supersedes it.
- The unused values `subtotal_orig` and `subtotal_base`, and the `print` logging.
- The HTTP status codes. All failures are `QuoteError` values, each of which reaches the caller as status 500.
- NULL columns and failed numeric conversions of database values are not modelled: every column is a number.
- The fallback at lines 495-498, where a failed `int(cuotas)` leaves no surcharge and still binds the effective target, is not modelled. The installment count is an `Option<int>`, and the web layer has already validated it as an integer, so no request reaches that branch.
- `tipo` upper-casing is modelled on ASCII letters only. Only the letters F, C and U decide anything.
- IEEE-754 floating point. Amounts are exact reals, and `round(x, 2)` rounds ties up instead of using the float's binary value. Equality tests on bases (`Sol2Base == base_ori`, `imp.base == 0`) are exact.
- In-place mutation of the `ImpuestoDetalle` objects is modelled as updates of a sequence of values. No line object is shared outside its list, so aliasing does not arise.
- Quote.GetQuote: with an installment surcharge it states how the premium is built, not that it equals the target. The comment at lines 513-516 expects that, but the rounding of each scaled component and the flat rebase of the zero-base lines keep the premium from being the surcharge applied to the pre-surcharge premium.
- RateSearch.Solve: the bracket bounds are stated only for a non-negative stored rate. With a negative rate the starting bracket is not ordered, and the source makes no promise about it.
- FeeSchedule.FeeForMonotone: holds only for a table whose thresholds and fees both ascend. The lookup itself assumes nothing about the order.
