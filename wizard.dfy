/**
  The page arithmetic shared by the two application wizards: four pages, "Next" moves
  forward but never past the last page, "Previous" moves back but never before the first.
*/
module Wizard {

  const FirstStep := 1
  const TotalSteps := 4

  predicate IsStep(step: int) {
    FirstStep <= step <= TotalSteps
  }

  /** `Math.min(step + 1, totalSteps)` */
  function Advance(step: int): int {
    if step + 1 < TotalSteps then step + 1 else TotalSteps
  }

  /** `Math.max(step - 1, 1)` */
  function Retreat(step: int): int {
    if step - 1 > FirstStep then step - 1 else FirstStep
  }

  /** Moving either way keeps the wizard on one of its pages. */
  lemma MovesStayOnPages(step: int)
    requires IsStep(step)
    ensures IsStep(Advance(step)) && IsStep(Retreat(step))
  {
  }

  /** Away from the ends the two moves undo each other; at the ends they stay put. */
  lemma MovesUndoEachOther(step: int)
    requires IsStep(step)
    ensures step < TotalSteps ==> Advance(step) == step + 1 && Retreat(Advance(step)) == step
    ensures step > FirstStep ==> Retreat(step) == step - 1 && Advance(Retreat(step)) == step
    ensures step == TotalSteps ==> Advance(step) == step
    ensures step == FirstStep ==> Retreat(step) == step
  {
  }
}
