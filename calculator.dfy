// The two pure calculations of the tip calculator: the tip on a bill and the
// share each person pays. Amounts are exact reals; the source's Double
// rounding is not modelled.
module Calculator {

  /** calculateTip: `tipPercentage` percent of `bill`. Neither argument is
      range-checked; a zero percentage or a zero bill gives no tip, and a
      percentage in 0..100 on a non-negative bill never tips more than the bill. */
  function CalculateTip(bill: real, tipPercentage: int): (tip: real)
    ensures tipPercentage == 0 || bill == 0.0 ==> tip == 0.0
    ensures tipPercentage == 100 ==> tip == bill
    ensures 0.0 <= bill && 0 <= tipPercentage <= 100 ==> 0.0 <= tip <= bill
  {
    (bill * tipPercentage as real) / 100.0
  }

  /** calculateTotalPerPerson: the bill plus its tip, shared equally by
      `persons`. A party size of zero is excluded (the source divides by it). */
  function CalculateTotalPerPerson(bill: real, persons: int, tipPercentage: int): (share: real)
    requires persons != 0
    ensures 0.0 <= bill && 0 <= tipPercentage && 1 <= persons ==>
              0.0 <= share <= bill + CalculateTip(bill, tipPercentage)
  {
    (bill + CalculateTip(bill, tipPercentage)) / persons as real
  }

  /** A 0% tip is no tip, whatever the bill. */
  lemma ZeroPercentIsNoTip(bill: real)
    ensures CalculateTip(bill, 0) == 0.0
  {
  }

  /** The tip scales with the bill. */
  lemma TipIsLinearInBill(k: real, bill: real, tipPercentage: int)
    ensures CalculateTip(k * bill, tipPercentage) == k * CalculateTip(bill, tipPercentage)
  {
  }

  /** The tip on two bills together is the sum of their tips. */
  lemma TipIsAdditiveInBill(bill1: real, bill2: real, tipPercentage: int)
    ensures CalculateTip(bill1 + bill2, tipPercentage)
         == CalculateTip(bill1, tipPercentage) + CalculateTip(bill2, tipPercentage)
  {
  }

  /** Percentages add up: the tip at p1 + p2 is the tip at p1 plus the tip at p2. */
  lemma TipIsAdditiveInPercentage(bill: real, p1: int, p2: int)
    ensures CalculateTip(bill, p1 + p2) == CalculateTip(bill, p1) + CalculateTip(bill, p2)
  {
  }

  /** On a non-negative bill a larger percentage never gives a smaller tip,
      and on a positive bill it gives a strictly larger one. */
  lemma TipIsMonotoneInPercentage(bill: real, p1: int, p2: int)
    requires 0.0 <= bill && p1 <= p2
    ensures CalculateTip(bill, p1) <= CalculateTip(bill, p2)
    ensures 0.0 < bill && p1 < p2 ==> CalculateTip(bill, p1) < CalculateTip(bill, p2)
  {
    TipIsAdditiveInPercentage(bill, p1, p2 - p1);
  }

  /** With one person there is no split: the share is the whole bill plus tip. */
  lemma NoSplitForOnePerson(bill: real, tipPercentage: int)
    ensures CalculateTotalPerPerson(bill, 1, tipPercentage) == bill + CalculateTip(bill, tipPercentage)
  {
  }

  /** The shares of all persons add up exactly to the bill plus its tip. */
  lemma SharesAddUpToTotal(bill: real, persons: int, tipPercentage: int)
    requires persons != 0
    ensures CalculateTotalPerPerson(bill, persons, tipPercentage) * persons as real
         == bill + CalculateTip(bill, tipPercentage)
  {
  }

  /** With the bill and the party fixed, a larger percentage never lowers
      the share, and on a positive bill it raises it. */
  lemma ShareIsMonotoneInPercentage(bill: real, persons: int, p1: int, p2: int)
    requires 0.0 <= bill && 1 <= persons && p1 <= p2
    ensures CalculateTotalPerPerson(bill, persons, p1) <= CalculateTotalPerPerson(bill, persons, p2)
    ensures 0.0 < bill && p1 < p2 ==>
              CalculateTotalPerPerson(bill, persons, p1) < CalculateTotalPerPerson(bill, persons, p2)
  {
    TipIsMonotoneInPercentage(bill, p1, p2);
    var n := persons as real;
    var t1 := bill + CalculateTip(bill, p1);
    var t2 := bill + CalculateTip(bill, p2);
    assert t2 / n - t1 / n == (t2 - t1) / n;
  }

  /** With a non-negative bill and percentage, a larger party never pays a
      larger share each. */
  lemma ShareShrinksWithLargerParty(bill: real, n1: int, n2: int, tipPercentage: int)
    requires 0.0 <= bill && 0 <= tipPercentage && 1 <= n1 <= n2
    ensures CalculateTotalPerPerson(bill, n2, tipPercentage) <= CalculateTotalPerPerson(bill, n1, tipPercentage)
  {
    var total := bill + CalculateTip(bill, tipPercentage);
    assert 0.0 <= total;
    assert total / n2 as real <= total / n1 as real by {
      assert total / n1 as real - total / n2 as real
          == total * (n2 - n1) as real / (n1 as real * n2 as real);
    }
  }

  /** The worked examples: 100 at 10% for one, 150 at 20% for three, 0 at 50% for two. */
  lemma WorkedExamples()
    ensures CalculateTip(100.0, 10) == 10.0 && CalculateTotalPerPerson(100.0, 1, 10) == 110.0
    ensures CalculateTip(150.0, 20) == 30.0 && CalculateTotalPerPerson(150.0, 3, 20) == 60.0
    ensures CalculateTip(0.0, 50) == 0.0 && CalculateTotalPerPerson(0.0, 2, 50) == 0.0
  {
  }
}
