# Fee calculator model

A verified model of the `FeeCalculator` widget in `src/Calc.jsx`. The widget is a client-side
form. It computes the commission on a sale price, with two discount switches: a 10% "buff" and a
30% "voucher". It shows the fee and the net amount the seller receives, and it has a light/dark
theme switch.

- `wrappers.dfy` holds `Option`, which stands for a possibly empty price field.
- `fee_engine.dfy` (module `FeeEngine`) has the commission arithmetic as pure functions over exact
  decimals (`real`).
  - `CalculateFee` is a tenth of the price times `DiscountMultiplier`.
  - `DiscountMultiplier` is 0.6, 0.9, 0.7 or 1, tested in the source's priority order.
  - `NetAmount` is the price less the fee.
  - `CommissionPercent` is an independent reference table of the effective rate in whole percent.
- `widget.dfy` (module `Widget`) has the widget state.
  - As values: `State`, `Event`, one-step `Step` and `Replay` over a sequence of events.
  - As the class `FeeCalculator`: the four fields `originalPrice`, `discount10`, `discount30` and
    `isDarkMode`, with one method per event handler. Each method states the field it changes and
    that the other three are unchanged, and ties the new state to `Step`.

`Price` is `Empty | Amount(n)`. `Empty` stands for both the initial empty array and the empty
string stored when the field is cleared. JavaScript coerces both to 0 in `*` and `-`, so
`PriceValue(Empty) == 0`, and an empty price shows a fee and a net amount of 0
(`EmptyPriceShowsZero`). An empty price does not display NaN: the fee and the net amount both
show 0.

## Model

| member | source | states |
|---|---|---|
| FeeEngine.PriceValue | src/Calc.jsx:147 | the coercion rule for the stored price in `*` and `-` (also at lines 141, 163 and 220): an amount reads as itself and the empty marker reads as 0; its two ensures define the rule and prove nothing beyond it |
| FeeEngine.DiscountMultiplier | src/Calc.jsx:150-156 | the multiplier lies in [0.6, 1]; it is 1 exactly when neither discount is on and 0.6 exactly when both are |
| FeeEngine.CalculateFee | src/Calc.jsx:146-159 | for a price p >= 0, 0.06·p <= fee <= p/10 (mirrored for p <= 0); the fee is 0 exactly when the price reads as 0 |
| FeeEngine.NetAmount | src/Calc.jsx:220 | net + fee = price; for p >= 0, 0.9·p <= net <= p |
| FeeEngine.FeeIsCommissionPercent | src/Calc.jsx:147-158 | fee = price × effective percent / 100, against the reference table 10/9/7/6 % |
| FeeEngine.MultiplierTable | src/Calc.jsx:150-156 | the policy table: both 0.6, 10%-only 0.9, 30%-only 0.7, neither 1 |
| FeeEngine.CombinedDiscountDoesNotStack | src/Calc.jsx:150-151 | with both flags on, a non-zero price's fee differs from the stacked 0.9 × 0.7 fee |
| FeeEngine.ExamplesAtThousand | src/Calc.jsx:146-159 | price 1000 gives fees 100, 90, 70, 60 and nets 900, 910, 930, 940 |
| FeeEngine.DiscountsAreOrdered | src/Calc.jsx:150-156 | for price >= 0: fee(both) <= fee(30 only) <= fee(10 only) <= fee(none), strictly for price > 0 |
| FeeEngine.EmptyPriceShowsZero | src/Calc.jsx:141-147 | with no price entered, fee and net are both 0 whatever the flags |
| Widget.StoredPrice | src/Calc.jsx:161-165 | empty input stores the empty marker; a number v stores an integer n with n <= v < n + 1 |
| Widget.ThemeFor | src/Calc.jsx:180 | the theme is dark exactly when dark mode is on, light otherwise |
| Widget.Step | src/Calc.jsx:161-177 | the four handlers as one transition on state values; each event changes exactly its own field: the price handler stores the new price, each toggle negates its flag, everything else is kept |
| Widget.Fee | src/Calc.jsx:193 | the displayed fee, for any state, is the effective commission percentage (10/9/7/6) of the price, over 100 |
| Widget.Net | src/Calc.jsx:220 | the displayed net amount, for any state, is (100 − effective percentage) percent of the price |
| Widget.ToggleTwiceRestores | src/Calc.jsx:167-177 | applying the same toggle twice gives back the original state |
| Widget.InputChangeIdempotent | src/Calc.jsx:161-165 | entering the same input twice equals entering it once |
| Widget.DarkModeKeepsFee | src/Calc.jsx:175-177 | toggling dark mode keeps fee and net and switches the theme |
| Widget.ThemeNeverFeedsFee | src/Calc.jsx:146-159 | states that differ only in the theme flag keep the same price, flags, fee and net after any sequence of events |
| Widget.ToggleParity | src/Calc.jsx:167-177 | after any event sequence a flag is flipped exactly when its toggle occurred an odd number of times |
| Widget.FeeCalculator.constructor | src/Calc.jsx:141-144 | initial state: no price, both discounts off, light mode; fee and net shown as 0 |
| Widget.FeeCalculator.HandleInputChange | src/Calc.jsx:161-165 | stores StoredPrice(input) and leaves the three flags unchanged |
| Widget.FeeCalculator.HandleDiscount10Toggle | src/Calc.jsx:167-169 | negates discount10 and leaves price, discount30 and dark mode unchanged |
| Widget.FeeCalculator.HandleDiscount30Toggle | src/Calc.jsx:171-173 | negates discount30 and leaves price, discount10 and dark mode unchanged |
| Widget.FeeCalculator.ToggleDarkMode | src/Calc.jsx:175-177 | negates isDarkMode and leaves the other fields unchanged; the displayed fee and net are unchanged and the theme changes |

## Left out

- Styling: the styled components and the two colour tables (src/Calc.jsx:4-138). They carry no behaviour beyond the boolean theme choice, which `ThemeFor` models.
- Rendering: the JSX tree, the theme button's label, the static contact card, and React's re-render and state-batching mechanics. The state is plain class fields, and each handler applies to the state it is called on.
- Parsing: `parseFloat` is a library call. Handlers take the already parsed number (`Some(v)`), or `None` for an empty field. Only the `Math.floor` is modelled.
- Floating point: IEEE-754 rounding of 0.1, 0.9, 0.7 and 0.6 is not modelled. The rates are exact decimals. NaN and infinite parsed values are not modelled either.
- JavaScript coercion in general: only the one case the widget hits is modelled. That case is the empty price reading as 0.
