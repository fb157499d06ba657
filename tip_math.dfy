/**
  The figures the calculator derives from its state on every change (the
  `useMemo` chain of the tip calculator), the currency formatter's guard, and
  the condition that enables the Reset button.
 */
module TipMath {
  import opened AmountInput

  /** Which tip button is active: one of the three presets or the custom field. */
  datatype ActiveTip = Tip10 | Tip15 | Tip20 | Custom

  /** The percentage a preset button stands for. */
  function PresetPercent(a: ActiveTip): (p: int)
    requires !a.Custom?
    ensures p in {10, 15, 20}
  {
    match a
    case Tip10 => 10
    case Tip15 => 15
    case Tip20 => 20
  }

  /** The selection invariant: `tipPercent` agrees with the active button. */
  predicate SelectionAgrees(activeTip: ActiveTip, tipPercent: int) {
    if activeTip.Custom? then tipPercent == 0 else tipPercent == PresetPercent(activeTip)
  }

  /** The four figures the result panel shows. */
  datatype Breakdown = Breakdown(tipAmount: real, totalAmount: real, tipPerPerson: real, totalPerPerson: real)

  /**
    `tipAmount`: a custom tip is a dollar amount taken as it is, whatever the
    bill; otherwise the tip is `tipPercent` per cent of the bill.
   */
  function TipAmount(billAmount: real, tipPercent: int, customTipValue: real, activeTip: ActiveTip): (r: real)
    ensures activeTip.Custom? ==> r == customTipValue
    ensures !activeTip.Custom? ==> r * 100.0 == billAmount * tipPercent as real
    ensures billAmount >= 0.0 && tipPercent >= 0 && customTipValue >= 0.0 ==> r >= 0.0
  {
    if activeTip.Custom? then customTipValue
    else billAmount * (tipPercent as real / 100.0)
  }

  /** `totalAmount`: the bill plus the tip; there is no separate tax amount. */
  function TotalAmount(billAmount: real, tipAmount: real): (r: real)
    ensures r - tipAmount == billAmount
    ensures tipAmount >= 0.0 ==> r >= billAmount
  {
    billAmount + tipAmount
  }

  /**
    `tipPerPerson` and `totalPerPerson`: an amount split evenly among `people`,
    zero when fewer than one person is recorded, so never a division by zero.
   */
  function PerPerson(amount: real, people: int): (r: real)
    ensures people < 1 ==> r == 0.0
    ensures people >= 1 ==> r * people as real == amount
    ensures people >= 1 && amount >= 0.0 ==> 0.0 <= r <= amount
  {
    if people < 1 then 0.0 else amount / people as real
  }

  /** The `useMemo` chain from the two parsed amounts and the other three cells to the four figures. */
  function Figures(billAmount: real, tipPercent: int, customTipValue: real, people: int, activeTip: ActiveTip): (b: Breakdown)
    ensures activeTip.Custom? ==> b.tipAmount == customTipValue
    ensures b.totalAmount - b.tipAmount == billAmount
    ensures people < 1 ==> b.tipPerPerson == 0.0 && b.totalPerPerson == 0.0
  {
    var tip := TipAmount(billAmount, tipPercent, customTipValue, activeTip);
    var total := TotalAmount(billAmount, tip);
    Breakdown(tip, total, PerPerson(tip, people), PerPerson(total, people))
  }

  /** From non-negative inputs every figure is non-negative and the total never falls below the bill. */
  lemma FiguresNonNegative(billAmount: real, tipPercent: int, customTipValue: real, people: int, activeTip: ActiveTip)
    requires billAmount >= 0.0 && tipPercent >= 0 && customTipValue >= 0.0
    ensures var b := Figures(billAmount, tipPercent, customTipValue, people, activeTip);
      && b.tipAmount >= 0.0
      && b.totalAmount >= billAmount
      && b.tipPerPerson >= 0.0 && b.totalPerPerson >= 0.0
  {
  }

  /** The shares of all `people` add back up to the tip and the total. */
  predicate SplitsExactly(b: Breakdown, people: int) {
    b.tipPerPerson * people as real == b.tipAmount && b.totalPerPerson * people as real == b.totalAmount
  }

  /** Splitting is exact: the shares of all people add back up to the tip and the total. */
  lemma SharesAddUp(billAmount: real, tipPercent: int, customTipValue: real, people: int, activeTip: ActiveTip)
    requires people >= 1
    ensures SplitsExactly(Figures(billAmount, tipPercent, customTipValue, people, activeTip), people)
  {
  }

  /** With the custom field active, the bill has no effect on the tip. */
  lemma CustomTipIgnoresBill(bill1: real, bill2: real, customTipValue: real, people: int)
    ensures Figures(bill1, 0, customTipValue, people, Custom).tipAmount
         == Figures(bill2, 0, customTipValue, people, Custom).tipAmount
         == customTipValue
  {
  }

  /**
    `formatCurrency`: NaN and infinite values are shown as `$0.00`; a finite
    value is handed to the locale formatter `intl`.
   */
  function FormatCurrency(value: Num, intl: real -> string): (s: string)
    ensures !value.Finite? ==> s == "$0.00"
    ensures value.Finite? ==> s == intl(value.value)
  {
    if value.NaN? || value.Inf? then "$0.00" else intl(value.value)
  }

  /**
    `disabled={billAmount === 0}`, negated: Reset is enabled exactly when the
    prefix `parseFloat` reads from the bill holds a digit 1 to 9, so `""`, `"."`,
    `"0"` and `"0.00"` all keep it disabled.
   */
  function ResetEnabled(bill: string): (enabled: bool)
    requires IsClean(bill)
    ensures enabled <==> HasNonZeroDigit(bill[..NumberLength(bill)])
  {
    ParseAmountZero(bill);
    ParseAmount(bill) != 0.0
  }

  /** Bills that read as zero keep Reset disabled; any non-zero digit in the read prefix enables it. */
  lemma ResetExamples()
    ensures !ResetEnabled("0") && !ResetEnabled("0.00") && !ResetEnabled("..")
    ensures ResetEnabled("0.5") && !ResetEnabled("0.0.5")
  {
    DigitRunIs("0", 1);
    DigitRunIs("0.00", 1);
    DigitRunIs("00", 2);
    DigitRunIs("..", 0);
    DigitRunIs(".", 0);
    DigitRunIs("0.5", 1);
    DigitRunIs("5", 1);
    DigitRunIs("0.0.5", 1);
    assert "0.5"[..3][2] == '5';
    assert "0.0.5"[..3] == "0.0";
  }
}
