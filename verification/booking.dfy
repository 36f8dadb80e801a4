/** The booking wizard's own state in the page component: the current step,
    the selected skip and the booking record, with the handlers that change
    them. */
module Booking {
  import opened Wrappers

  /** The six steps: Postcode, Waste Type, Select Skip, Permit Check,
      Choose Date, Payment (ids 0 to 5). */
  const StepCount: int := 6
  const SelectSkipStep: int := 2

  datatype BookingData = BookingData(
    postcode: string,
    wasteType: string,
    skipId: Option<int>,
    permitNeeded: bool,
    selectedDate: string)

  datatype Wizard = Wizard(currentStep: int, selectedSkip: Option<int>, booking: BookingData)

  /** The page opens on "Select Skip" with nothing chosen. */
  function InitialWizard(): (w: Wizard)
    ensures w.currentStep == SelectSkipStep && w.selectedSkip.None? && w.booking.skipId.None?
    ensures w.booking.postcode == "NR32"
  {
    Wizard(SelectSkipStep, None, BookingData("NR32", "", None, false, ""))
  }

  /** `handleSkipSelection(skipId)`. */
  function SelectSkip(w: Wizard, skipId: int): (r: Wizard)
    ensures r.selectedSkip == Some(skipId) && r.booking.skipId == Some(skipId)
    ensures r.booking.postcode == w.booking.postcode
    ensures r.booking.wasteType == w.booking.wasteType
    ensures r.booking.permitNeeded == w.booking.permitNeeded
    ensures r.booking.selectedDate == w.booking.selectedDate
    ensures r.currentStep == w.currentStep
  {
    w.(selectedSkip := Some(skipId), booking := w.booking.(skipId := Some(skipId)))
  }

  /** The "Back" button: clears the selection only. */
  function Back(w: Wizard): (r: Wizard)
    ensures r.selectedSkip.None? && r.booking == w.booking && r.currentStep == w.currentStep
  {
    w.(selectedSkip := None)
  }

  /** The "Continue" button: `setCurrentStep(currentStep + 1)`, no upper bound. */
  function Continue(w: Wizard): (r: Wizard)
    ensures r.currentStep == w.currentStep + 1
    ensures r.selectedSkip == w.selectedSkip && r.booking == w.booking
  {
    w.(currentStep := w.currentStep + 1)
  }

  /** Clicking the progress circle of step `index`. */
  function GoToStep(w: Wizard, index: int): (r: Wizard)
    ensures r.currentStep == index
    ensures r.selectedSkip == w.selectedSkip && r.booking == w.booking
  {
    w.(currentStep := index)
  }

  /** The displayed selection and the booking record agree whenever a skip is
      selected. */
  ghost predicate SelectionConsistent(w: Wizard) {
    w.selectedSkip.Some? ==> w.booking.skipId == w.selectedSkip
  }

  /** Every handler keeps the selection consistent with the booking record. */
  lemma HandlersKeepSelectionConsistent(w: Wizard, skipId: int, index: int)
    requires SelectionConsistent(w)
    ensures SelectionConsistent(SelectSkip(w, skipId))
    ensures SelectionConsistent(Back(w))
    ensures SelectionConsistent(Continue(w))
    ensures SelectionConsistent(GoToStep(w, index))
  {
  }

  /** Selecting again overrides the earlier choice: only the last one counts. */
  lemma LastSelectionWins(w: Wizard, first: int, second: int)
    ensures SelectSkip(SelectSkip(w, first), second) == SelectSkip(w, second)
  {
  }

  /** "Back" hides the selection but the booking record keeps the last id. */
  lemma BackKeepsBookedId(w: Wizard, skipId: int)
    ensures Back(SelectSkip(w, skipId)).selectedSkip.None?
    ensures Back(SelectSkip(w, skipId)).booking.skipId == Some(skipId)
  {
  }

  /** `k` presses of "Continue". */
  function ContinueTimes(w: Wizard, k: nat): Wizard
    decreases k
  {
    if k == 0 then w else ContinueTimes(Continue(w), k - 1)
  }

  /** Each press advances exactly one step, past the last step if pressed
      often enough: from "Select Skip", four presses leave the step range. */
  lemma {:induction false} ContinueAdvances(w: Wizard, k: nat)
    ensures ContinueTimes(w, k).currentStep == w.currentStep + k
    ensures ContinueTimes(w, k).booking == w.booking
    decreases k
  {
    if k > 0 {
      ContinueAdvances(Continue(w), k - 1);
    }
  }

  lemma ContinuePassesLastStep()
    ensures ContinueTimes(InitialWizard(), 4).currentStep == StepCount
  {
    ContinueAdvances(InitialWizard(), 4);
  }
}
