# TipTally bill-split engine in Dafny

This project models the core of TipTally, a single-page tip calculator:

- the bill and custom-tip input fields, which keep only digits and dots on every edit;
- the `parseFloat(x) || 0` rule that turns the stored text into an amount;
- the five state cells of the calculator (`bill`, `tipPercent`, `customTip`, `people`, `activeTip`) and the handlers that change them;
- the figures derived from that state (tip, total, tip per person, total per person);
- the currency formatter's NaN/Infinity guard and the condition that enables the Reset button;
- the theme toggle's choice of the next theme and its aria-label.

Files and modules:

- `amount_input.dfy`, module `AmountInput`:
  - `Filter` models `replace(/[^0-9.]/g, '')`.
  - `ParseFloat` models `parseFloat` on text made only of digits and dots. It reads the longest `digits[.digits]` prefix and gives `NaN` when that prefix holds no digit.
  - `ParseAmount` models `parseFloat(x) || 0`.
  - `Num` is a JavaScript number: `NaN`, `Inf` or `Finite(r)`, with `r` an exact real.
- `tip_math.dfy`, module `TipMath`: `TipAmount`, `TotalAmount` and `PerPerson` are the `useMemo` chain, and `Figures` combines them from the two parsed amounts. It also holds `FormatCurrency` and `ResetEnabled`.
- `tip_calculator.dfy`, module `TipCalculator`:
  - class `Session` holds the five state cells. One method per handler. `Results()` feeds the parsed cells through `TipMath.Figures`.
  - `Valid()` is the invariant every handler keeps: both text fields are clean, `people >= 1`, and `tipPercent` agrees with `activeTip` (a preset implies its percentage, custom implies 0).
  - Three client methods replay concrete sessions.
- `theme_toggle.dfy`, module `ThemeToggle`: `NextTheme` and `AriaTarget`.

The code has no tax mode, treats a custom tip as dollars, and never refuses an edit:

- There is no tax mode. The total is always bill plus tip (`src/components/tip-calculator.tsx:31-33`). Reset therefore has no sticky preference to preserve.
- A custom tip is always a dollar amount, never a percentage (`src/components/tip-calculator.tsx:19-22`).
- The filter never refuses an edit. A second dot is kept: `"12.3.4"` is stored and read as 12.3 (`SecondDotKept`, `SecondDotIgnored`).

## Model

| member | source | states |
|---|---|---|
| AmountInput.Filter | src/components/tip-calculator.tsx:52 | the stored text holds only digits and dots and is no longer than what was typed |
| AmountInput.FilterContents | src/components/tip-calculator.tsx:59 | every digit and dot of the input is kept as often as it occurs; no other character survives |
| AmountInput.FilterFixesClean | src/components/tip-calculator.tsx:59 | the filter leaves a text unchanged exactly when the text is already made of digits and dots |
| AmountInput.FilterIdempotent | src/components/tip-calculator.tsx:52 | filtering twice gives the same text as filtering once |
| AmountInput.FilterConcat | src/components/tip-calculator.tsx:52 | the filter works character by character and keeps the order of what it keeps |
| AmountInput.DigitRun | src/components/tip-calculator.tsx:17 | the scanned digit run is all digits and stops at the first non-digit or at the end |
| AmountInput.ParseFloat | src/components/tip-calculator.tsx:17 | parsing never gives Infinity or a negative value; it gives NaN exactly for the empty text or a text starting with a dot not followed by a digit |
| AmountInput.ParseAmount | src/components/tip-calculator.tsx:21 | the amount is never negative, and it is 0 for an unparsable text, the empty text and `"."` |
| AmountInput.DigitsParse | src/components/tip-calculator.tsx:17 | a text of digits alone is read as the whole number it spells |
| AmountInput.AppendDigit | src/components/tip-calculator.tsx:17 | typing a digit after a whole number gives ten times the number plus that digit |
| AmountInput.DecimalParse | src/components/tip-calculator.tsx:21 | `whole.frac` is read as whole plus frac over the matching power of ten, and anything from a second dot on is ignored |
| AmountInput.DigitsValueZero | src/components/tip-calculator.tsx:17 | a string of digits denotes zero exactly when it has no digit 1 to 9 |
| AmountInput.ParseAmountZero | src/components/tip-calculator.tsx:17 | a stored text reads as 0 exactly when the prefix `parseFloat` reads holds no digit 1 to 9 |
| AmountInput.SecondDotIgnored | src/components/tip-calculator.tsx:59 | `"12.3.4"` passes the filter unchanged and is read as 12.3 |
| TipMath.PresetPercent | src/components/tip-calculator.tsx:107-109 | the three preset buttons stand for 10, 15 and 20 per cent |
| TipMath.TipAmount | src/components/tip-calculator.tsx:24-29 | with custom active the tip is the custom amount; otherwise 100 times the tip equals the bill times the percentage; non-negative inputs give a non-negative tip |
| TipMath.TotalAmount | src/components/tip-calculator.tsx:31-33 | the total less the tip is the bill, and a non-negative tip never brings the total below the bill |
| TipMath.PerPerson | src/components/tip-calculator.tsx:35-43 | fewer than one person gives 0 and no division; otherwise the share times the number of people is the amount, and a non-negative share is at most the amount |
| TipMath.Figures | src/components/tip-calculator.tsx:24-43 | with custom active the tip is the custom amount; the total less the tip is the bill; fewer than one person gives zero shares; its other properties are stated by FiguresNonNegative, SharesAddUp and CustomTipIgnoresBill |
| TipMath.FiguresNonNegative | src/components/tip-calculator.tsx:24-43 | non-negative amounts give four non-negative figures and a total at least the bill |
| TipMath.SharesAddUp | src/components/tip-calculator.tsx:35-43 | the shown shares times the number of people give back the tip and the total |
| TipMath.CustomTipIgnoresBill | src/components/tip-calculator.tsx:19-29 | with custom active, two different bills give the same tip: the custom amount |
| TipMath.FormatCurrency | src/components/tip-calculator.tsx:71-79 | NaN and infinite values are shown as `$0.00`; only finite values reach the locale formatter |
| TipMath.ResetEnabled | src/components/tip-calculator.tsx:166 | Reset is enabled exactly when the prefix `parseFloat` reads from the bill holds a digit 1 to 9, i.e. exactly when the parsed bill is non-zero |
| TipMath.ResetExamples | src/components/tip-calculator.tsx:166 | bills "0", "0.00", ".." and "0.0.5" keep Reset disabled; "0.5" enables it |
| TipCalculator.Session.Results | src/components/tip-calculator.tsx:17-43 | in every valid state the shown figures are non-negative, the total is at least the parsed bill, and the shares times the number of people give back the tip and the total |
| TipCalculator.Session.constructor | src/components/tip-calculator.tsx:11-15 | the initial state is empty bill, 15% preset, empty custom tip, one person; it satisfies the invariant and Reset is disabled |
| TipCalculator.Session.SelectTip | src/components/tip-calculator.tsx:45-49 | a preset sets its percentage and clears the custom text; bill and people are unchanged; the invariant is kept; the tip becomes that percentage of the bill |
| TipCalculator.Session.CustomTipChange | src/components/tip-calculator.tsx:51-56 | the filtered text is stored, custom becomes active with percentage 0; bill and people are unchanged; the tip becomes the parsed custom amount |
| TipCalculator.Session.BillChange | src/components/tip-calculator.tsx:58-61 | the bill becomes the filtered text and no other cell changes; the invariant is kept |
| TipCalculator.Session.ResetAll | src/components/tip-calculator.tsx:63-69 | every cell returns to its initial value, the invariant holds and Reset is disabled afterwards |
| TipCalculator.Session.DecrementPeople | src/components/tip-calculator.tsx:127 | the count becomes `max(1, p - 1)`: it stays at 1 from 1 and drops by one above 1; people stays at least 1 |
| TipCalculator.Session.IncrementPeople | src/components/tip-calculator.tsx:134 | the count grows by exactly one, with no upper bound |
| TipCalculator.HundredSplitTwo | src/components/tip-calculator.tsx:24-43 | bill "100", 15% preset, two people: tip 15, total 115, 7.5 and 57.5 per person, and Reset enabled |
| TipCalculator.CustomDollarTip | src/components/tip-calculator.tsx:19-33 | bill "$80" (stored as "80") with custom tip "20" for one person: tip 20 and total 100 |
| TipCalculator.SecondDotKept | src/components/tip-calculator.tsx:58-61 | typing "12.3.4" after "12.3" stores "12.3.4", and the bill is read as 12.3 |
| ThemeToggle.NextTheme | src/components/theme-toggle.tsx:10-17 | a click sets "light" or "dark", never "system"; "light" goes to "dark"; any other explicit setting goes to "light"; from "system" it sets "light" exactly when the resolved theme is "dark" |
| ThemeToggle.AriaTarget | src/components/theme-toggle.tsx:25 | the label offers "light" exactly when the resolved theme is "dark", and "dark" otherwise |
| ThemeToggle.SystemToggleMatchesLabel | src/components/theme-toggle.tsx:12-13 | while the setting is "system", a click sets exactly the mode the label offers |
| ThemeToggle.ToggleTwiceRestores | src/components/theme-toggle.tsx:15 | from "light" or "dark" a click changes the setting, and a second click restores it |
| ThemeToggle.LabelAgreesAfterClick | src/components/theme-toggle.tsx:10-25 | after a click, once the explicit setting is also the resolved theme, the label names the theme the next click sets |

## Left out

- JSX, CSS classes, icons and the Button, Input, Label and Card components are presentation only.
- TipMath.FormatCurrency: the finite branch, `Intl.NumberFormat('en-US', USD)`, is a locale library. The model passes it in as the parameter `intl`, so the two-fraction-digit rendering is not stated.
- IEEE-754 arithmetic is not modelled. Amounts are exact reals, so rounding in `tipPercent / 100` and in the divisions is not captured. A very long digit string that `parseFloat` would turn into Infinity is read as a large finite value.
- AmountInput.ParseFloat: it requires text made only of digits and dots. Leading whitespace, signs, exponents and `"Infinity"` are not modelled. The handlers only ever store filtered text, and `Session.Valid()` states that.
- React batches the `setState` calls of one handler into one update. Each handler is modelled as one method that writes its cells in order. The final state is the same.
- The `people < 1` guard is modelled in `TipMath.PerPerson`, but `Session.Valid()` shows that no handler reaches it.
- The theme provider (`useTheme`), its storage and its system-theme detection are not shown. `theme` and `resolvedTheme` are inputs, and an undefined value behaves like any string other than "system", "light" or "dark".
- `functions/src/index.ts` is a separate HTTP text-sanitising endpoint built on DOMPurify and JSDOM. It shares no state with the calculator.
- `src/app/layout.tsx` and `src/app/page.tsx` hold only page metadata and layout.
