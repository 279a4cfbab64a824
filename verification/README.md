# Accounting-firm website: calculator engine and blog selection

This project models, in Dafny, the only computational logic of the website of an
Armenian accounting and tax-advisory firm:

- the **calculator engine** of the Calculators section: income tax, salary
  deductions, VAT, profit margin and currency conversion. Each is the arithmetic
  inside a click handler, here with the React state plumbing removed. The
  converter's two-select state and its swap button are modelled as well.
- the **blog post selection** of the Blog section: posts filtered by the active
  category (all of them for `'all'`), then cut to the first `limit` posts when
  `limit` is truthy.

Amounts are exact `real`s. This deliberately abstracts JavaScript doubles: every
exact equality below (`tax + net == income`, the VAT and conversion round trips)
holds in this model, not necessarily to the last bit in the browser.

Files and modules:

- `input.dfy` — `Input`: the `parseFloat(text) || 0` default. A text field is an
  `Option<real>`: `None` is text the parser rejects (NaN). `OrZero` maps it to 0.
- `calculators.dfy` — `Calculators`: `Tax`, `Salary` (with the tiered
  `SocialPayment`), `Vat` and `Profit`. Each has a `…Handler` wrapper that applies
  the input default first.
- `currency.dfy` — `Currency`: the rate table, `Convert` via the AMD pivot, the
  symbol lookup, and the converter state (`ConvertButton`, `Swap`, the two selects).
- `blog.dfy` — `Blog`: `FilterCategory`, `Filtered`, `SliceTo` (JavaScript's
  `slice(0, end)`), `Displayed`, `Selection`, and the sample posts. A
  reference `CountOf` and an order-preserving `IsSubsequence` relation serve as
  partners for the filter.

Two points where the code behaves differently than one might assume:

- `Blog` declares `limit = 3` as a default parameter (`Blog.jsx:7`). So a caller
  that passes no limit, such as the home page, sees at most three posts. Only an
  explicit falsy limit (0, `null`) shows the whole filtered list. In the model,
  `EffectiveLimit(None) == 3` and the falsy limit is 0. The home page passes no
  limit, so it shows exactly min(3, posts of the active category).
- The income-tax identity `taxAmount + netIncome == monthlyIncome` holds for every
  income, negative ones included, not only for non-negative incomes.

## Model

| member | source | states |
|---|---|---|
| `Input.OrZero` | src/components/sections/Calculators.jsx:85 | The handlers' zero default for text fields: text the parser rejects counts as 0, and a parsed number is used as it is. The same default applies at lines 157, 249, 337-338 and 434. |
| `Calculators.Tax` | src/components/sections/Calculators.jsx:84-96 | Tax plus net income is exactly the income, for every income including negative ones. Tax is one fifth of it. The effective rate is exactly 20 for a positive income and 0 otherwise, so it never divides by zero. |
| `Calculators.TaxHandler` | src/components/sections/Calculators.jsx:85-89 | On unreadable text the result is all zeros. On a number v the result is `Tax(v)`'s: tax is v/5, tax plus net is v, and the effective rate is 20 for positive v and 0 otherwise. |
| `Calculators.TaxBounded` | src/components/sections/Calculators.jsx:87-88 | For non-negative income, tax lies between 0 and the income. For non-positive income, tax is non-positive. Net income is four times the tax. |
| `Calculators.SocialPayment` | src/components/sections/Calculators.jsx:163-168 | Up to and including 500000, the social payment is 4.5% of the gross. Above that it is 22500 plus 10% of the excess over 500000. |
| `Calculators.Salary` | src/components/sections/Calculators.jsx:156-181 | Net, income tax, social payment and stamp duty add back up to the gross. Stamp duty is 1000 for every gross. Income tax is 20% of the gross. The social payment follows the tier rule. |
| `Calculators.SalaryHandler` | src/components/sections/Calculators.jsx:157-173 | On unreadable text the breakdown is that of a zero gross, so net is -1000 after the stamp duty. On a number v, the stamp duty is 1000, the income tax is v/5, the social payment follows the tier rule on v, and the four parts sum to v. |
| `Calculators.SocialPaymentContinuous` | src/components/sections/Calculators.jsx:164-168 | The tiered payment is 22500 at 500000, the value the upper-tier formula starts from. A gross of 500001 pays 22500.1. |
| `Calculators.SocialPaymentNoJump` | src/components/sections/Calculators.jsx:164-168 | Just above the boundary, the payment exceeds its boundary value by less than any epsilon once the gross is within 10·epsilon of 500000. The tiers therefore have no jump. |
| `Calculators.SocialPaymentMonotonic` | src/components/sections/Calculators.jsx:163-168 | A larger gross never pays a smaller social payment. This holds within each tier and across the boundary. |
| `Calculators.SocialPaymentBetweenRates` | src/components/sections/Calculators.jsx:163-168 | For a non-negative gross, the payment lies between 4.5% and 10% of the gross. |
| `Calculators.Vat` | src/components/sections/Calculators.jsx:248-265 | In both modes net plus VAT is the gross, and VAT is 20% of net. The entered amount is the gross when it includes VAT, and the net otherwise. |
| `Calculators.VatHandler` | src/components/sections/Calculators.jsx:249-262 | On unreadable text the breakdown is all zeros. On a number v, net plus VAT is the gross and VAT is 20% of net. v is the gross when the checkbox is ticked and the net otherwise. |
| `Calculators.VatDeterminedByNet` | src/components/sections/Calculators.jsx:254-262 | Two breakdowns with the same net amount are identical, whichever mode produced them. |
| `Calculators.VatExclusiveThenInclusive` | src/components/sections/Calculators.jsx:254-262 | Adding VAT to x, then extracting VAT from the resulting gross, gives the same breakdown: net x and the same VAT. |
| `Calculators.VatInclusiveThenExclusive` | src/components/sections/Calculators.jsx:254-262 | Extracting VAT from a gross, then adding VAT back to the net, gives the same breakdown and the original gross. |
| `Calculators.Profit` | src/components/sections/Calculators.jsx:336-343 | Profit plus cost is the revenue. The margin is 0 whenever revenue is not positive. Otherwise margin × revenue = profit × 100. |
| `Calculators.ProfitHandler` | src/components/sections/Calculators.jsx:337-340 | Profit is the parsed revenue minus the parsed cost, each defaulting to 0. The margin is 0 when that revenue is not positive; otherwise margin × revenue = profit × 100. |
| `Calculators.MarginSignFollowsProfit` | src/components/sections/Calculators.jsx:339-340 | With positive revenue, the margin is negative exactly when the profit is negative, and zero exactly when the profit is zero. |
| `Calculators.MarginAtMostHundred` | src/components/sections/Calculators.jsx:339-340 | With positive revenue and non-negative cost, the margin is at most 100. It equals 100 exactly when the cost is 0. |
| `Calculators.CalculatorExamples` | src/components/sections/Calculators.jsx:84-343 | The worked cases. Tax on 500000 is 100000, leaving 400000 at 20%. Salary of 500000 nets 376500. VAT on 100000 is 20000 in both directions. Revenue 1000000 with cost 700000 gives a 30% margin. Revenue 0 gives margin 0. |
| `Currency.RatesWellFormed` | src/components/sections/Calculators.jsx:412-423 | Every table rate is positive. The AMD pivot has rate 1. The initial AMD-to-USD selection uses table codes. |
| `Currency.CurrenciesMatchRates` | src/components/sections/Calculators.jsx:417-431 | A code has a rate exactly when the listed currencies offer it, that is, exactly when its symbol is found. |
| `Currency.Convert` | src/components/sections/Calculators.jsx:433-437 | The converted amount times the source rate equals the amount times the target rate. |
| `Currency.FindSymbol` | src/components/sections/Calculators.jsx:440 | A symbol is found exactly when some listed currency has the code. The symbol found belongs to the first such currency: no earlier entry has the code. |
| `Currency.ConvertWithSymbol` | src/components/sections/Calculators.jsx:433-442 | For table codes, the shown value is the amount scaled by the ratio of the target rate to the source rate. The symbol is the one listed for the target currency. |
| `Currency.ConvertIdentity` | src/components/sections/Calculators.jsx:436-437 | Converting a currency to itself returns the amount unchanged. |
| `Currency.ConvertRoundTrip` | src/components/sections/Calculators.jsx:436-437 | Converting A to B and then B to A returns the original amount. |
| `Currency.ConvertCompose` | src/components/sections/Calculators.jsx:435-437 | Converting A to B and then B to C equals converting A to C directly, so the AMD pivot distorts no pair. |
| `Currency.ConvertLinear` | src/components/sections/Calculators.jsx:436-437 | Conversion preserves sums and scalar multiples of amounts. |
| `Currency.ConvertExample` | src/components/sections/Calculators.jsx:417-442 | 100000 AMD converts to 260 USD, shown with the `$` symbol. |
| `Currency.ConvertButton` | src/components/sections/Calculators.jsx:433-442 | The button leaves the field and both codes as they were. The shown value is the field's value (0 if unreadable) scaled by the ratio of the target rate to the source rate. The shown symbol is the target currency's. |
| `Currency.Swap` | src/components/sections/Calculators.jsx:444-448 | Swap exchanges source and target, keeps the amount, and clears the result. Both codes stay in the table exactly when they were. |
| `Currency.SelectFrom` | src/components/sections/Calculators.jsx:474-484 | Picking a source currency from the list changes only the source. The amount, the target and any shown (now stale) result are kept, and the codes stay in the table. |
| `Currency.SelectTo` | src/components/sections/Calculators.jsx:498-508 | Picking a target currency from the list changes only the target. The amount, the source and any shown (now stale) result are kept, and the codes stay in the table. |
| `Currency.SwapTwice` | src/components/sections/Calculators.jsx:444-448 | Swapping twice restores both codes and the amount. Only the result stays cleared. |
| `Currency.ConvertSwapConvert` | src/components/sections/Calculators.jsx:433-448 | Convert, swap, enter the unrounded result and convert again: the original amount is shown. |
| `Blog.FilterCategory` | src/components/sections/Blog.jsx:51 | Every post kept has the requested category. The filtered list is never longer than the input. |
| `Blog.FilterIsSubsequence` | src/components/sections/Blog.jsx:51 | The filtered list is an order-preserving subsequence of the posts. |
| `Blog.FilterCount` | src/components/sections/Blog.jsx:51 | The filtered list's length is the number of posts of that category. |
| `Blog.FilterMembership` | src/components/sections/Blog.jsx:51 | A post is in the filtered list exactly when it is one of the posts and has that category. |
| `Blog.FilterUnmatched` | src/components/sections/Blog.jsx:51 | A category that no post carries selects the empty list. |
| `Blog.FilterAllMatch` | src/components/sections/Blog.jsx:51 | If every post has the category, the filter returns the list unchanged. |
| `Blog.FilterIdempotent` | src/components/sections/Blog.jsx:51 | Filtering twice by the same category gives the same result as filtering once. |
| `Blog.Filtered` | src/components/sections/Blog.jsx:49-51 | For `'all'` the posts are kept as they are. Any other category keeps only posts of that category. The selection is never longer than the posts. |
| `Blog.FilteredSelects` | src/components/sections/Blog.jsx:49-51 | The selection is always an order-preserving subsequence of the posts. For a real category it holds exactly that category's posts, and its length is their count. |
| `Blog.EffectiveLimit` | src/components/sections/Blog.jsx:7 | The `limit` property defaults to 3 when the caller passes none. A passed value is used as it is, including a falsy 0. |
| `Blog.SliceTo` | src/components/sections/Blog.jsx:53 | `slice(0, end)` returns a prefix. For end ≥ 0 its length is min(end, length). For negative end it is max(length + end, 0). |
| `Blog.Displayed` | src/components/sections/Blog.jsx:53 | The shown list is a prefix of the filtered list. Limit 0 shows it all. A positive limit shows min(limit, length) posts. |
| `Blog.Selection` | src/components/sections/Blog.jsx:7-53 | What is shown is a prefix of the category's selection. A limit of 0 shows the whole selection. A positive limit shows exactly min(limit, selection length) posts. |
| `Blog.SelectionSound` | src/components/sections/Blog.jsx:7-53 | Shown posts come from the posts in order, all of the active category unless it is `'all'`. There are never more than a positive limit. When no limit is passed, exactly min(3, selection length) are shown. |
| `Blog.SampleSelections` | src/components/sections/Blog.jsx:11-53 | The sample posts as shown. `'all'` shows all three. `'tax'` shows posts 1 and 3. `'regulations'` shows post 2. `'business'` shows none. Limit 2 or -1 shows the first two; limit 0 shows all. Every post's category has a button. |

## Left out

- Rendering: the JSX, the Tailwind classes and the framer-motion animation, and the calculator tab switching. They are presentation with no computable contract.
- Result formatting (`toLocaleString`, `toFixed`): it depends on the locale and on float-to-string conversion.
- IEEE-754 rounding. The model computes in exact reals, so its round trips are exact. In doubles they hold only approximately: converting 0.1 AMD to USD and back gives 0.09999999999999999.
- The displayed rounding of the converted amount, to at most two fraction digits (`Calculators.jsx:524`). `ConvertSwapConvert` round-trips the unrounded value. Retyping the rounded figure on screen need not give the amount back: 1 AMD shows as `$0`.
- `parseFloat` itself: a text field is modelled as already parsed (`Option<real>`). Only the `|| 0` default is modelled.
- Unknown currency codes. The page would compute NaN, but both `<select>` lists offer only table codes. The model takes "code is in the table" as a precondition.
- The blog posts' localised title, excerpt, date and image URL are omitted. They do not affect the selection.
- The "View All Articles" link shown under a truthy limit is omitted. It is display only.
- A non-integer or non-numeric `limit` is not modelled; the limit is an integer. A negative limit follows `slice`.
- Everything else on the site: the contact form's simulated submission, the language switcher, the animated counters, the canvas background, and routing. None of these is part of the calculator engine or the blog selection.
