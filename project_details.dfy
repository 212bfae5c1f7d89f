/** The goal page of src/pages/ProjectDetailsPage.tsx: the rounded
    percentage in the header, the unrounded value handed to the progress
    bar, the amount still missing, and the confirmed delete. The same
    percentage formula appears on the dashboard; it is modelled once,
    here. */
module ProjectDetails {
  import opened Numbers
  import opened Domain
  import ProgressBar

  /** `(currentAmount / targetAmount) * 100`, the value the bar receives. */
  function Ratio(p: Project): Number {
    Scale(Divide(p.currentAmount, p.targetAmount), 100.0)
  }

  /** `Math.round(...)`, the percentage shown as text. */
  function Percent(p: Project): Number {
    Round(Ratio(p))
  }

  /** `targetAmount - currentAmount`, shown as what is still missing. */
  function Remaining(p: Project): real {
    p.targetAmount - p.currentAmount
  }

  /** For a non-zero target the percentage is the integer nearest to
      `current / target * 100`, halves rounded up. */
  lemma PercentRoundsHalfUp(p: Project)
    requires p.targetAmount != 0.0
    ensures Percent(p).Finite?
    ensures var exact := p.currentAmount / p.targetAmount * 100.0;
      Percent(p).value == Floor(exact + 0.5) as real
      && Percent(p).value - 0.5 <= exact < Percent(p).value + 0.5
  {
  }

  /** The first sample goal, 14500 saved of 20000, shows 73%. */
  lemma SampleGoalPercent()
    ensures Percent(Project("1", "Reserva Emergência", 20000.0, 14500.0, "\U{1F6E1}\U{FE0F}")) == Finite(73.0)
  {
    assert 14500.0 / 20000.0 * 100.0 + 0.5 == 73.0;
  }

  /** With a positive target, saving more never lowers the percentage. */
  lemma PercentMonotone(p: Project, more: real)
    requires p.targetAmount > 0.0 && more >= p.currentAmount
    ensures Percent(p).value <= Percent(p.(currentAmount := more)).value
  {
    var q := p.(currentAmount := more);
    var a := p.currentAmount / p.targetAmount * 100.0;
    var b := more / p.targetAmount * 100.0;
    assert a <= b by {
      assert p.currentAmount / p.targetAmount <= more / p.targetAmount;
    }
    assert Floor(a + 0.5) <= Floor(b + 0.5);
  }

  /** A zero target divides by zero: NaN with nothing saved, Infinity with
      something saved, and the bar is then full. */
  lemma ZeroTarget(p: Project)
    requires p.targetAmount == 0.0
    ensures p.currentAmount == 0.0 ==> Percent(p) == NaN
    ensures p.currentAmount > 0.0 ==> Percent(p) == Infinity && ProgressBar.Width(Ratio(p)) == Finite(100.0)
  {
  }

  /** The bar gets the unrounded ratio, so bar and text can disagree by
      up to half a point. */
  lemma BarGetsUnroundedRatio(p: Project)
    requires p.targetAmount != 0.0
    ensures Ratio(p) == Finite(p.currentAmount / p.targetAmount * 100.0)
    ensures -0.5 <= Percent(p).value - Ratio(p).value <= 0.5
  {
  }

  /** What is missing goes negative exactly when the goal is over-funded,
      and is zero exactly when it is met. */
  lemma RemainingSign(p: Project)
    ensures Remaining(p) < 0.0 <==> p.currentAmount > p.targetAmount
    ensures Remaining(p) == 0.0 <==> p.currentAmount == p.targetAmount
    ensures p.currentAmount + Remaining(p) == p.targetAmount
  {
  }

  datatype Effect = DeleteProject(id: string) | GoBack

  /** The delete button: only after `confirm` answers yes, delete this
      project and then go back. */
  function DeleteClick(p: Project, confirmed: bool): seq<Effect> {
    if confirmed then [DeleteProject(p.id), GoBack] else []
  }

  /** Nothing happens without confirmation; with it, exactly this project
      is deleted and going back follows the delete. */
  lemma DeleteOnlyAfterConfirm(p: Project, confirmed: bool)
    ensures !confirmed ==> DeleteClick(p, confirmed) == []
    ensures DeleteClick(p, confirmed) != [] ==> confirmed
    ensures forall i :: 0 <= i < |DeleteClick(p, confirmed)| && DeleteClick(p, confirmed)[i].DeleteProject? ==>
      DeleteClick(p, confirmed)[i].id == p.id && i + 1 < |DeleteClick(p, confirmed)| && DeleteClick(p, confirmed)[i + 1] == GoBack
    ensures confirmed ==> |DeleteClick(p, confirmed)| == 2 && DeleteClick(p, confirmed)[0].DeleteProject?
  {
  }
}
