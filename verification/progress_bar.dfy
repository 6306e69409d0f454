/** The spending bar shown under each budget item: how full it is and its colour. */
module ProgressBar {

  /** The fill percentage: the share of `total` that `current` reaches, capped at 100,
      and 0 when there is no positive total to measure against. */
  function Percentage(current: real, total: real): (p: real)
    ensures total <= 0.0 ==> p == 0.0
    ensures p <= 100.0
    ensures total > 0.0 ==> p <= current / total * 100.0
    ensures total > 0.0 ==> (p == 100.0 || p == current / total * 100.0)
    ensures current >= 0.0 ==> p >= 0.0
  {
    if total > 0.0 then Min(current / total * 100.0, 100.0) else 0.0
  }

  function Min(a: real, b: real): real
  {
    if a <= b then a else b
  }

  /** The bar is full exactly when the spending has reached the budget. */
  lemma FullBarMeansBudgetReached(current: real, total: real)
    requires total > 0.0
    ensures Percentage(current, total) == 100.0 <==> current >= total
  {
    if current >= total {
      assert current / total >= 1.0;
    } else {
      assert current / total < 1.0;
    }
  }

  /** `isWarning`: more than 80 percent full while not over budget (an absent flag counts
      as not over budget). */
  predicate IsWarning(percentage: real, overBudget: bool)
  {
    percentage > 80.0 && !overBudget
  }

  datatype Colour = Red | Yellow | Green

  /** The bar's colour: red when over budget whatever the percentage, then yellow for a
      warning, otherwise green. */
  function BarColour(current: real, total: real, overBudget: bool): (c: Colour)
    ensures c == Red <==> overBudget
    ensures c == Yellow <==> !overBudget && Percentage(current, total) > 80.0
    ensures c == Green <==> !overBudget && Percentage(current, total) <= 80.0
  {
    if overBudget then Red
    else if IsWarning(Percentage(current, total), overBudget) then Yellow
    else Green
  }

  /** A yellow bar means more than four fifths of a positive budget is spent, and a green
      bar (not over budget) means at most four fifths is. */
  lemma {:induction false} ColourTracksSpending(current: real, total: real, overBudget: bool)
    ensures BarColour(current, total, overBudget) == Yellow ==> total > 0.0 && current * 5.0 > total * 4.0
    ensures BarColour(current, total, overBudget) == Green && total > 0.0 ==> current * 5.0 <= total * 4.0
  {
    if total > 0.0 {
      var ratio := current / total;
      assert current == ratio * total;
      if Percentage(current, total) > 80.0 {
        assert ratio * 100.0 > 80.0;
        assert ratio * total * 5.0 > total * 4.0;
      }
    }
  }
}
