/**
 * The four-step onboarding form: one record per step, the step shown, the
 * error message, the check that enables "next" on each step, the merges that
 * each step's inputs apply to their own record, the household choice that
 * clears the spouse and children answers it rules out, and the planned-event
 * check boxes.
 */
module OnboardingContainer {
  import opened Common
  import OnboardingRoute
  import ChildrenInput

  const TotalSteps: int := 4
  const SingleHousehold: string := "SINGLE"
  const CoupleHousehold: string := "COUPLE"
  const NoEvent: string := "NONE"

  datatype Step1 = Step1(age: Option<int>, employmentType: Option<string>)
  datatype Step2 = Step2(residenceType: Option<string>, region: Option<string>)
  datatype Step3 = Step3(householdType: Option<string>, hasSpouse: Option<bool>, children: seq<ChildrenInput.Child>)
  datatype Step4 = Step4(plannedEvents: seq<string>, email: string, emailNotificationEnabled: bool)

  /** `OnboardingState`; a `None` field is `null`. */
  datatype FormState = FormState(currentStep: int, step1: Step1, step2: Step2, step3: Step3, step4: Step4)

  const InitialState := FormState(
    1, Step1(None, None), Step2(None, None), Step3(None, None, []), Step4([], "", false))

  // ---------------------------------------------------------------------------
  // `Partial<StepNData>`: an absent field is `None`; `Some(None)` writes `null`.

  datatype Step1Update = Step1Update(age: Option<Option<int>>, employmentType: Option<Option<string>>)
  datatype Step2Update = Step2Update(residenceType: Option<Option<string>>, region: Option<Option<string>>)
  datatype Step3Update = Step3Update(
    householdType: Option<Option<string>>, hasSpouse: Option<Option<bool>>,
    children: Option<seq<ChildrenInput.Child>>)
  datatype Step4Update = Step4Update(
    plannedEvents: Option<seq<string>>, email: Option<string>, emailNotificationEnabled: Option<bool>)

  /** `{ ...prev.step1, ...updates }`: a field the update carries is replaced, the others stay. */
  function MergeStep1(s: Step1, u: Step1Update): (r: Step1)
    ensures u.age.Some? ==> r.age == u.age.value
    ensures u.age.None? ==> r.age == s.age
    ensures u.employmentType.Some? ==> r.employmentType == u.employmentType.value
    ensures u.employmentType.None? ==> r.employmentType == s.employmentType
  {
    Step1(u.age.GetOr(s.age), u.employmentType.GetOr(s.employmentType))
  }

  function MergeStep2(s: Step2, u: Step2Update): (r: Step2)
    ensures u.residenceType.Some? ==> r.residenceType == u.residenceType.value
    ensures u.residenceType.None? ==> r.residenceType == s.residenceType
    ensures u.region.Some? ==> r.region == u.region.value
    ensures u.region.None? ==> r.region == s.region
  {
    Step2(u.residenceType.GetOr(s.residenceType), u.region.GetOr(s.region))
  }

  function MergeStep3(s: Step3, u: Step3Update): (r: Step3)
    ensures u.householdType.Some? ==> r.householdType == u.householdType.value
    ensures u.householdType.None? ==> r.householdType == s.householdType
    ensures u.hasSpouse.Some? ==> r.hasSpouse == u.hasSpouse.value
    ensures u.hasSpouse.None? ==> r.hasSpouse == s.hasSpouse
    ensures u.children.Some? ==> r.children == u.children.value
    ensures u.children.None? ==> r.children == s.children
  {
    Step3(u.householdType.GetOr(s.householdType), u.hasSpouse.GetOr(s.hasSpouse), u.children.GetOr(s.children))
  }

  function MergeStep4(s: Step4, u: Step4Update): (r: Step4)
    ensures u.plannedEvents.Some? ==> r.plannedEvents == u.plannedEvents.value
    ensures u.plannedEvents.None? ==> r.plannedEvents == s.plannedEvents
    ensures u.email.Some? ==> r.email == u.email.value
    ensures u.email.None? ==> r.email == s.email
    ensures u.emailNotificationEnabled.Some? ==> r.emailNotificationEnabled == u.emailNotificationEnabled.value
    ensures u.emailNotificationEnabled.None? ==> r.emailNotificationEnabled == s.emailNotificationEnabled
  {
    Step4(u.plannedEvents.GetOr(s.plannedEvents), u.email.GetOr(s.email),
          u.emailNotificationEnabled.GetOr(s.emailNotificationEnabled))
  }

  /** Merging an update twice is merging it once. */
  lemma MergeIdempotent(s: FormState, u1: Step1Update, u2: Step2Update, u3: Step3Update, u4: Step4Update)
    ensures MergeStep1(MergeStep1(s.step1, u1), u1) == MergeStep1(s.step1, u1)
    ensures MergeStep2(MergeStep2(s.step2, u2), u2) == MergeStep2(s.step2, u2)
    ensures MergeStep3(MergeStep3(s.step3, u3), u3) == MergeStep3(s.step3, u3)
    ensures MergeStep4(MergeStep4(s.step4, u4), u4) == MergeStep4(s.step4, u4)
  {
  }

  // ---------------------------------------------------------------------------
  // Validation

  /**
   * `validateStep`: step 1 needs an age and an employment type, step 2 a
   * residence type, step 3 a household type, and step 4 an e-mail address
   * that is empty or of the form `a@b.c`; any other step passes.
   */
  function ValidateStep(s: FormState): (r: bool)
    ensures s.currentStep == 1 ==> (r <==> s.step1.age.Some? && s.step1.employmentType.Some?)
    ensures s.currentStep == 2 ==> (r <==> s.step2.residenceType.Some?)
    ensures s.currentStep == 3 ==> (r <==> s.step3.householdType.Some?)
    ensures s.currentStep == 4 ==> (r <==> s.step4.email == "" || OnboardingRoute.EmailShape(s.step4.email))
    ensures !(1 <= s.currentStep <= TotalSteps) ==> r
  {
    OnboardingRoute.EmailTestSpec(s.step4.email);
    match s.currentStep
    case 1 => s.step1.age.Some? && s.step1.employmentType.Some?
    case 2 => s.step2.residenceType.Some?
    case 3 => s.step3.householdType.Some?
    case 4 => if s.step4.email != "" then OnboardingRoute.EmailTest(s.step4.email) else true
    case _ => true
  }

  /** An address the last step lets through is one the onboarding route's e-mail check accepts too. */
  lemma ValidEmailPassesRoute(s: FormState)
    requires s.currentStep == TotalSteps && ValidateStep(s)
    ensures OnboardingRoute.IsValidEmail(JStr(s.step4.email))
  {
    OnboardingRoute.EmailTestSpec(s.step4.email);
  }

  /**
   * The household choice: single rules out a spouse, and single or couple
   * rule out children; otherwise those answers are kept.
   */
  function HouseholdChoice(s: Step3, t: string): (u: Step3Update)
    ensures MergeStep3(s, u).householdType == Some(t)
    ensures MergeStep3(s, u).hasSpouse == if t == SingleHousehold then Some(false) else s.hasSpouse
    ensures MergeStep3(s, u).children == if t == SingleHousehold || t == CoupleHousehold then [] else s.children
  {
    Step3Update(
      Some(Some(t)),
      Some(if t == SingleHousehold then Some(false) else s.hasSpouse),
      Some(if t == SingleHousehold || t == CoupleHousehold then [] else s.children))
  }

  /** The form's state and its error message. */
  class Container {
    var state: FormState
    var error: Option<string>

    predicate Valid()
      reads this
    {
      1 <= state.currentStep <= TotalSteps
    }

    constructor()
      ensures Valid()
      ensures state == InitialState && error == None
    {
      state, error := InitialState, None;
    }

    /** `updateStep1`: only the first step's record changes, and the error is cleared. */
    method UpdateStep1(u: Step1Update)
      requires Valid()
      modifies this
      ensures Valid()
      ensures state == old(state).(step1 := MergeStep1(old(state).step1, u)) && error == None
    {
      state := state.(step1 := MergeStep1(state.step1, u));
      error := None;
    }

    method UpdateStep2(u: Step2Update)
      requires Valid()
      modifies this
      ensures Valid()
      ensures state == old(state).(step2 := MergeStep2(old(state).step2, u)) && error == None
    {
      state := state.(step2 := MergeStep2(state.step2, u));
      error := None;
    }

    method UpdateStep3(u: Step3Update)
      requires Valid()
      modifies this
      ensures Valid()
      ensures state == old(state).(step3 := MergeStep3(old(state).step3, u)) && error == None
    {
      state := state.(step3 := MergeStep3(state.step3, u));
      error := None;
    }

    method UpdateStep4(u: Step4Update)
      requires Valid()
      modifies this
      ensures Valid()
      ensures state == old(state).(step4 := MergeStep4(old(state).step4, u)) && error == None
    {
      state := state.(step4 := MergeStep4(state.step4, u));
      error := None;
    }

    /**
     * `handleNext`: nothing while the step is invalid; one step on below the
     * last step; on the last step the form is submitted (`submit`) and the
     * step stays.
     */
    method HandleNext() returns (submit: bool)
      requires Valid()
      modifies this
      ensures Valid()
      ensures submit <==> ValidateStep(old(state)) && old(state).currentStep == TotalSteps
      ensures state == old(state).(currentStep :=
        if ValidateStep(old(state)) && old(state).currentStep < TotalSteps
        then old(state).currentStep + 1 else old(state).currentStep)
      ensures error == old(error)
    {
      submit := false;
      if !ValidateStep(state) {
        return;
      }
      if state.currentStep < TotalSteps {
        state := state.(currentStep := state.currentStep + 1);
      } else {
        submit := true;
      }
    }

    /** `handleBack`: one step back, except on the first step. */
    method HandleBack()
      requires Valid()
      modifies this
      ensures Valid()
      ensures state == old(state).(currentStep :=
        if old(state).currentStep > 1 then old(state).currentStep - 1 else old(state).currentStep)
      ensures error == old(error)
    {
      if state.currentStep > 1 {
        state := state.(currentStep := state.currentStep - 1);
      }
    }

    /** Choosing a household type on the third step. */
    method ChooseHouseholdType(t: string)
      requires Valid()
      modifies this
      ensures Valid()
      ensures state.step3.householdType == Some(t)
      ensures t == SingleHousehold ==> state.step3.hasSpouse == Some(false)
      ensures t != SingleHousehold ==> state.step3.hasSpouse == old(state).step3.hasSpouse
      ensures t == SingleHousehold || t == CoupleHousehold ==> state.step3.children == []
      ensures t != SingleHousehold && t != CoupleHousehold ==> state.step3.children == old(state).step3.children
      ensures state == old(state).(step3 := state.step3) && error == None
    {
      UpdateStep3(HouseholdChoice(state.step3, t));
    }

    /**
     * A planned-event card: "none" replaces every event; another event drops
     * "none" and changes side. Afterwards "none" is chosen alone or not at all.
     */
    method ToggleEvent(event: string)
      requires Valid()
      modifies this
      ensures Valid()
      ensures state == old(state).(step4 := old(state).step4.(
        plannedEvents := ToggleWithNone(old(state).step4.plannedEvents, event, NoEvent)))
      ensures NoneAlone(state.step4.plannedEvents, NoEvent)
      ensures error == None
    {
      var selected := event in state.step4.plannedEvents;
      var events: seq<string>;
      if event == NoEvent {
        events := [NoEvent];
      } else {
        var withoutNone := Without(state.step4.plannedEvents, NoEvent);
        if selected {
          events := Without(withoutNone, event);
        } else {
          events := withoutNone + [event];
        }
      }
      ToggleWithNoneSpec(state.step4.plannedEvents, event, NoEvent);
      UpdateStep4(Step4Update(Some(events), None, None));
    }
  }
}
