/**
  The tip calculator's session: the five state cells of the component and the
  event handlers that change them. The figures are recomputed from the cells
  (`Session.Results`) whenever they are read.
 */
module TipCalculator {
  import opened AmountInput
  import opened TipMath

  class Session {
    var bill: string
    var tipPercent: int
    var customTip: string
    var people: int
    var activeTip: ActiveTip

    /**
      What every handler keeps: both text fields hold only digits and dots, at
      least one person shares the bill, and `tipPercent` agrees with the active
      tip button.
     */
    ghost predicate Valid()
      reads this
    {
      IsClean(bill) && IsClean(customTip) && people >= 1 && SelectionAgrees(activeTip, tipPercent)
    }

    /**
      The figures shown for the current state: the parsed bill and custom tip
      fed through the `useMemo` chain. In every valid state they are
      non-negative, the total is at least the bill, and, since at least one
      person is recorded, the shares add back up to the tip and the total.
     */
    function Results(): (b: Breakdown)
      reads this
      requires Valid()
      ensures b.tipAmount >= 0.0 && b.totalAmount >= ParseAmount(bill)
      ensures b.tipPerPerson >= 0.0 && b.totalPerPerson >= 0.0
      ensures SplitsExactly(b, people)
    {
      var billAmount, customTipValue := ParseAmount(bill), ParseAmount(customTip);
      FiguresNonNegative(billAmount, tipPercent, customTipValue, people, activeTip);
      SharesAddUp(billAmount, tipPercent, customTipValue, people, activeTip);
      Figures(billAmount, tipPercent, customTipValue, people, activeTip)
    }

    /** The initial `useState` values: empty bill, 15% preset, one person. */
    constructor ()
      ensures Valid()
      ensures bill == "" && tipPercent == 15 && customTip == "" && people == 1 && activeTip == Tip15
      ensures !ResetEnabled(bill)
    {
      bill, tipPercent, customTip, people, activeTip := "", 15, "", 1, Tip15;
    }

    /** `handleTipSelect`: the preset becomes active and the custom field is cleared. */
    method SelectTip(percent: int, kind: ActiveTip)
      requires Valid()
      requires !kind.Custom? && percent == PresetPercent(kind)
      modifies this
      ensures Valid()
      ensures tipPercent == percent && activeTip == kind && customTip == ""
      ensures bill == old(bill) && people == old(people)
      ensures Results().tipAmount * 100.0 == ParseAmount(bill) * percent as real
    {
      tipPercent := percent;
      activeTip := kind;
      customTip := "";
    }

    /**
      `handleCustomTipChange`: the filtered text is stored, the custom field
      becomes active and the preset percentage drops to zero.
     */
    method CustomTipChange(input: string)
      requires Valid()
      modifies this
      ensures Valid()
      ensures customTip == Filter(input) && tipPercent == 0 && activeTip == Custom
      ensures bill == old(bill) && people == old(people)
      ensures Results().tipAmount == ParseAmount(Filter(input))
    {
      customTip := Filter(input);
      tipPercent := 0;
      activeTip := Custom;
    }

    /** `handleBillChange`: the filtered text becomes the bill. */
    method BillChange(input: string)
      requires Valid()
      modifies this
      ensures Valid()
      ensures bill == Filter(input)
      ensures tipPercent == old(tipPercent) && customTip == old(customTip)
      ensures people == old(people) && activeTip == old(activeTip)
    {
      bill := Filter(input);
    }

    /** `resetAll`: every cell goes back to its initial value. */
    method ResetAll()
      requires Valid()
      modifies this
      ensures Valid()
      ensures bill == "" && tipPercent == 15 && customTip == "" && people == 1 && activeTip == Tip15
      ensures !ResetEnabled(bill)
    {
      bill := "";
      tipPercent := 15;
      customTip := "";
      people := 1;
      activeTip := Tip15;
    }

    /** The minus button: `Math.max(1, p - 1)`, so it stays at one person. */
    method DecrementPeople()
      requires Valid()
      modifies this`people
      ensures Valid()
      ensures people == if old(people) - 1 > 1 then old(people) - 1 else 1
      ensures old(people) == 1 ==> people == 1
      ensures old(people) > 1 ==> people < old(people)
    {
      people := if people - 1 > 1 then people - 1 else 1;
    }

    /** The plus button: one more person, without an upper bound. */
    method IncrementPeople()
      requires Valid()
      modifies this`people
      ensures Valid()
      ensures people == old(people) + 1
    {
      people := people + 1;
    }
  }

  /** A $100 bill with the 15% preset split between two people. */
  method HundredSplitTwo() returns (shown: Breakdown, canReset: bool)
    ensures shown == Breakdown(15.0, 115.0, 7.5, 57.5)
    ensures canReset
  {
    var s := new Session();
    s.BillChange("100");
    s.SelectTip(15, Tip15);
    s.IncrementPeople();
    HundredParses();
    shown := s.Results();
    canReset := ResetEnabled(s.bill);
  }

  /** An $80 bill with a $20 custom tip for one person: the tip is taken in dollars. */
  method CustomDollarTip() returns (shown: Breakdown)
    ensures shown == Breakdown(20.0, 100.0, 20.0, 100.0)
  {
    var s := new Session();
    s.BillChange("$80");
    s.CustomTipChange("20");
    EightyTwentyParse();
    shown := s.Results();
  }

  /** Typing a second dot is not refused: the text is kept and only `12.3` is read from it. */
  method SecondDotKept() returns (stored: string, amount: real)
    ensures stored == "12.3.4" && amount == 12.3
  {
    var s := new Session();
    s.BillChange("12.3");
    s.BillChange("12.3.4");
    FilterFixesClean("12.3.4");
    SecondDotIgnored();
    stored := s.bill;
    amount := ParseAmount(s.bill);
  }

  lemma HundredParses()
    ensures IsClean("100") && Filter("100") == "100" && ParseAmount("100") == 100.0
  {
    FilterFixesClean("100");
    DigitsParse("100");
    assert "100"[..2] == "10" && "10"[..1] == "1";
  }

  lemma EightyTwentyParse()
    ensures Filter("$80") == "80" && Filter("20") == "20"
    ensures ParseAmount("80") == 80.0 && ParseAmount("20") == 20.0
  {
    assert "$80"[1..] == "80";
    FilterFixesClean("80");
    FilterFixesClean("20");
    DigitsParse("80");
    DigitsParse("20");
    assert "80"[..1] == "8" && "20"[..1] == "2";
  }
}
