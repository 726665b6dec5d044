/**
 * The checkout stepper: one counter, `activeStep`, over the three steps
 * Shipping, Payment and Review, with a finished screen at 3. The handlers
 * do not check the counter; the screen does, by offering only some
 * buttons, and that is what keeps the counter in 0..3.
 */
module Checkout {
  import opened Common

  const Steps: seq<string> := ["Shipping", "Payment", "Review"]

  /** The buttons of the stepper. */
  datatype Action = Next | Back | Reset

  /**
   * The buttons the screen for a step shows: the finished screen only
   * Reset, any other screen Next, and Back as well unless at the first step.
   */
  predicate Offered(step: int, a: Action) {
    if step == |Steps| then a == Reset
    else a == Next || (a == Back && step != 0)
  }

  /** What a click does to the counter. */
  function Apply(step: int, a: Action): (r: int)
    ensures a == Next ==> r == step + 1
    ensures a == Back ==> r == step - 1
    ensures a == Reset ==> r == 0
  {
    match a
    case Next => step + 1
    case Back => step - 1
    case Reset => 0
  }

  /** The counter after a run of clicks, each on a button the screen shows at that point; None at the first one it does not. */
  function Run(step: int, clicks: seq<Action>): (r: Option<int>)
    decreases |clicks|
  {
    if clicks == [] then Some(step)
    else if !Offered(step, clicks[0]) then None
    else Run(Apply(step, clicks[0]), clicks[1..])
  }

  /** A click on a shown button keeps the counter in 0..3. */
  lemma OfferedStaysInRange(step: int, a: Action)
    requires 0 <= step <= |Steps| && Offered(step, a)
    ensures 0 <= Apply(step, a) <= |Steps|
  {
  }

  /** From any step in range, however many shown buttons are clicked, the counter stays in 0..3. */
  lemma {:induction false} RunStaysInRange(step: int, clicks: seq<Action>)
    requires 0 <= step <= |Steps|
    ensures Run(step, clicks).Some? ==> 0 <= Run(step, clicks).value <= |Steps|
    decreases |clicks|
  {
    if clicks != [] && Offered(step, clicks[0]) {
      OfferedStaysInRange(step, clicks[0]);
      RunStaysInRange(Apply(step, clicks[0]), clicks[1..]);
    }
  }

  /**
   * Next then Back restores the step. Back is shown after Next except from
   * the last step, whose Next ends on the finished screen, where only Reset is.
   */
  lemma NextThenBack(step: int)
    requires 0 <= step < |Steps|
    ensures Apply(Apply(step, Next), Back) == step
    ensures Run(step, [Next, Back]) == if step < |Steps| - 1 then Some(step) else None
  {
    assert [Next, Back][1..] == [Back];
    assert [Back][1..] == [];
  }

  /** On the finished screen only Reset is shown, and it goes back to the first step. */
  lemma FinishedOffersOnlyReset(a: Action)
    ensures Offered(|Steps|, a) <==> a == Reset
    ensures Run(|Steps|, [Reset]) == Some(0)
  {
    assert [Reset][1..] == [];
  }

  /** `getStepContent(step)`. */
  function StepContent(step: int): (s: string)
    ensures s == "Unknown step" <==> !(0 <= step < |Steps|)
  {
    if step == 0 then "Shipping information form will go here"
    else if step == 1 then "Payment information form will go here"
    else if step == 2 then "Order review will go here"
    else "Unknown step"
  }

  /** The label of the primary button. */
  function PrimaryLabel(step: int): (s: string)
    ensures s == "Place Order" <==> step == |Steps| - 1
    ensures s != "Place Order" ==> s == "Next"
  {
    if step == |Steps| - 1 then "Place Order" else "Next"
  }

  /** What the stepper renders below the step labels. */
  datatype Screen =
    | Finished
    | StepScreen(content: string, showsBack: bool, primary: string)

  function ScreenOf(step: int): (s: Screen)
    ensures s.Finished? <==> step == |Steps|
    ensures s.StepScreen? ==>
      s.content == StepContent(step) && (s.showsBack <==> Offered(step, Back)) && s.primary == PrimaryLabel(step)
  {
    if step == |Steps| then Finished
    else StepScreen(StepContent(step), step != 0, PrimaryLabel(step))
  }

  class CheckoutStepper {
    var activeStep: int

    constructor()
      ensures activeStep == 0
    {
      activeStep := 0;
    }

    method HandleNext()
      modifies this
      ensures activeStep == old(activeStep) + 1
    {
      activeStep := activeStep + 1;
    }

    method HandleBack()
      modifies this
      ensures activeStep == old(activeStep) - 1
    {
      activeStep := activeStep - 1;
    }

    /** The Reset button of the finished screen. */
    method Reset()
      modifies this
      ensures activeStep == 0
    {
      activeStep := 0;
    }

    /** A click on a button the current screen shows; the counter stays in range. */
    method Click(a: Action)
      requires 0 <= activeStep <= |Steps| && Offered(activeStep, a)
      modifies this
      ensures activeStep == Apply(old(activeStep), a)
      ensures 0 <= activeStep <= |Steps|
    {
      match a {
        case Next => HandleNext();
        case Back => HandleBack();
        case Reset => Reset();
      }
    }
  }
}
