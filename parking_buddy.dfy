/** The parking-buddy request form: a chosen assistance type, optional details,
    a submit step that validates the choice and a completion step, one second
    later, that confirms and clears the form. */
module ParkingBuddy {
  import opened Toasts

  datatype AssistanceType = AssistanceType(id: string, name: string)

  const AssistanceTypes: seq<AssistanceType> := [
    AssistanceType("find-car", "Help finding my car"),
    AssistanceType("loading", "Help loading items"),
    AssistanceType("navigation", "Guide me to accessible entrance"),
    AssistanceType("other", "Other assistance")
  ]

  function OfferedIds(types: seq<AssistanceType>): (r: seq<string>)
    ensures |r| == |types|
    ensures forall i :: 0 <= i < |types| ==> r[i] == types[i].id
  {
    if types == [] then [] else [types[0].id] + OfferedIds(types[1..])
  }

  /** The offered ids are exactly find-car, loading, navigation and other, each
      once and none empty. */
  lemma OfferedIdsExact()
    ensures OfferedIds(AssistanceTypes) == ["find-car", "loading", "navigation", "other"]
    ensures forall i, j :: 0 <= i < j < |AssistanceTypes| ==> AssistanceTypes[i].id != AssistanceTypes[j].id
    ensures forall i :: 0 <= i < |AssistanceTypes| ==> AssistanceTypes[i].id != ""
  {
  }

  const MissingTypeNotice := Toast(Error, "Please select the type of assistance needed")
  const SentNotice := Toast(Success, "Help request sent!")

  class ParkingBuddyForm {
    var requestType: string
    var details: string
    var isSubmitting: bool
    /** Completion timers scheduled and not yet fired. */
    var pendingCompletions: nat
    var toasts: seq<Toast>

    /** The form is submitting exactly while one completion is pending. */
    predicate Valid()
      reads this
    {
      (isSubmitting <==> pendingCompletions > 0) && pendingCompletions <= 1
    }

    constructor ()
      ensures Valid()
      ensures requestType == "" && details == "" && !isSubmitting && pendingCompletions == 0
      ensures toasts == []
    {
      requestType := "";
      details := "";
      isSubmitting := false;
      pendingCompletions := 0;
      toasts := [];
    }

    /** The button is disabled without a chosen type or while submitting. */
    predicate SubmitDisabled()
      reads this
    {
      requestType == "" || isSubmitting
    }

    /** The radio group's `onValueChange`. */
    method ChooseType(id: string)
      modifies this`requestType
      ensures requestType == id
    {
      requestType := id;
    }

    /** The details box's `onChange`. */
    method SetDetails(text: string)
      modifies this`details
      ensures details == text
    {
      details := text;
    }

    /** `handleSubmit`. Without a type it only reports the problem; with one it
        enters the submitting state and schedules the completion. Started from
        an enabled button, it keeps the form valid. */
    method HandleSubmit()
      modifies this`isSubmitting, this`pendingCompletions, this`toasts
      ensures old(requestType) == "" ==>
                toasts == old(toasts) + [MissingTypeNotice]
                && isSubmitting == old(isSubmitting) && pendingCompletions == old(pendingCompletions)
      ensures old(requestType) != "" ==>
                isSubmitting && pendingCompletions == old(pendingCompletions) + 1 && toasts == old(toasts)
      ensures old(Valid()) && !old(SubmitDisabled()) ==> Valid() && SubmitDisabled()
    {
      if requestType == "" {
        toasts := toasts + [MissingTypeNotice];
        return;
      }
      isSubmitting := true;
      pendingCompletions := pendingCompletions + 1;
    }

    /** A completion timer fires: confirmation, and the form is cleared. */
    method Complete()
      requires pendingCompletions > 0
      modifies this
      ensures requestType == "" && details == "" && !isSubmitting
      ensures pendingCompletions == old(pendingCompletions) - 1
      ensures toasts == old(toasts) + [SentNotice]
      ensures old(Valid()) ==> Valid() && SubmitDisabled()
    {
      toasts := toasts + [SentNotice];
      requestType := "";
      details := "";
      isSubmitting := false;
      pendingCompletions := pendingCompletions - 1;
    }
  }

  /** Choosing any offered type on an idle form enables the button, and a submit
      then disables it until the completion has fired. */
  method ChooseAndSubmit(form: ParkingBuddyForm, k: nat)
    requires k < |AssistanceTypes| && form.Valid() && !form.isSubmitting
    modifies form
    ensures form.Valid() && form.isSubmitting && form.SubmitDisabled()
    ensures form.requestType == AssistanceTypes[k].id
    ensures form.toasts == old(form.toasts)
  {
    OfferedIdsExact();
    form.ChooseType(AssistanceTypes[k].id);
    assert !form.SubmitDisabled();
    form.HandleSubmit();
  }
}
