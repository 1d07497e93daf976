/**
 * The ten-step onboarding wizard: the answers collected so far, the step
 * shown, the three agreements of the last step, the rule that decides
 * whether the "next" button is enabled on each step, the age computed from
 * the birth-date selects, the household size kept in step with the family
 * answers, the plan and goal check boxes, and the life stage derived from the
 * answers.
 */
module Onboarding {
  import opened Common

  datatype LifeStage =
    | Student | NewGraduate | WorkingSingle | Newlywed | ChildRearing
    | ChildEducation | EmptyNest | PreRetirement | Retired

  /**
   * The answers the wizard reads. Strings and numbers the code tests for
   * truthiness are plain values (an empty string or 0 is "not given"); those it
   * compares with `undefined` are options.
   */
  datatype Answers = Answers(
    name: string, email: string, birthYear: int, birthMonth: int, birthDay: int, gender: string,
    prefecture: string, city: string, maritalStatus: Option<string>, hasChildren: bool,
    numberOfChildren: int, childrenAges: Option<seq<int>>, householdSize: Option<int>,
    occupation: string, annualIncome: Option<int>, housingType: string,
    monthlyHousingCost: Option<int>, currentSavings: Option<int>,
    futurePlans: seq<string>, goals: seq<string>, favoriteAnimal: string)

  /** The answers the wizard starts from. */
  const InitialAnswers := Answers(
    "", "", 1990, 1, 1, "male", "東京都", "", Some("single"), false, 0, Some([]), Some(1), "",
    Some(4000000), "rent", Some(80000), Some(1000000), [], [], "dog")

  datatype Agreements = Agreements(termsOfService: bool, privacyPolicy: bool, disclaimerAcknowledged: bool)

  const NoAgreements := Agreements(false, false, false)

  /** The three check boxes of the last step. */
  datatype Agreement = TermsOfService | PrivacyPolicy | DisclaimerAcknowledged

  const StepCount: int := 10
  const StudentOccupation: string := "学生"
  const NoPlan: string := "none"

  // ---------------------------------------------------------------------------
  // Life stage

  /** `Math.min(...ages)`, with `None` for the empty list (where JavaScript answers `Infinity`). */
  function Youngest(ages: seq<int>): (r: Option<int>)
    ensures r.None? <==> ages == []
    ensures r.Some? ==> r.value in ages && forall x :: x in ages ==> r.value <= x
    decreases |ages|
  {
    if ages == [] then None
    else
      assert forall x :: x in ages ==> x == ages[0] || x in ages[1..];
      match Youngest(ages[1..])
      case None => Some(ages[0])
      case Some(m) => Some(Min(ages[0], m))
  }

  /** The age `determineLifeStage` works with: this year less the birth year, or 30 without a birth year. */
  function YearAge(a: Answers, currentYear: int): int {
    if a.birthYear != 0 then currentYear - a.birthYear else 30
  }

  predicate ChildStage(s: LifeStage) {
    s.ChildRearing? || s.ChildEducation? || s.EmptyNest?
  }

  /** The answers reach the tests after the child test: not a student, not a new graduate, no children with ages. */
  predicate PastChildTest(a: Answers, currentYear: int) {
    a.occupation != StudentOccupation && !(YearAge(a, currentYear) < 25 && a.maritalStatus == Some("single"))
    && !(a.hasChildren && a.childrenAges.Some?)
  }

  /**
   * `determineLifeStage`: a student first; then a single person under 25 is
   * a new graduate; with children (and an age list) the youngest child decides;
   * then a married person without children is newly wed; from 55 on a
   * person is pre-retirement, and everyone else is a working single. The
   * test for 65 and over comes after the one for 55 and over, so `Retired`
   * is never the answer.
   */
  function DetermineLifeStage(a: Answers, currentYear: int): (r: LifeStage)
    ensures r.Student? <==> a.occupation == StudentOccupation
    ensures r.NewGraduate? <==>
      a.occupation != StudentOccupation && YearAge(a, currentYear) < 25 && a.maritalStatus == Some("single")
    ensures ChildStage(r) <==>
      a.occupation != StudentOccupation && !(YearAge(a, currentYear) < 25 && a.maritalStatus == Some("single"))
      && a.hasChildren && a.childrenAges.Some?
    ensures r.ChildRearing? ==> exists x :: x in a.childrenAges.value && x < 6
    ensures r.ChildEducation? ==>
      (forall x :: x in a.childrenAges.value ==> x >= 6) && exists x :: x in a.childrenAges.value && x < 18
    ensures r.EmptyNest? ==> forall x :: x in a.childrenAges.value ==> x >= 18
    ensures r.Newlywed? ==> a.maritalStatus == Some("married") && !a.hasChildren
    ensures r.Newlywed? <==> PastChildTest(a, currentYear) && a.maritalStatus == Some("married") && !a.hasChildren
    ensures r.PreRetirement? <==>
      PastChildTest(a, currentYear) && !(a.maritalStatus == Some("married") && !a.hasChildren)
      && YearAge(a, currentYear) >= 55
    ensures r.WorkingSingle? <==>
      PastChildTest(a, currentYear) && !(a.maritalStatus == Some("married") && !a.hasChildren)
      && YearAge(a, currentYear) < 55
    ensures !r.Retired?
  {
    var age := YearAge(a, currentYear);
    if a.occupation == StudentOccupation then Student
    else if age < 25 && a.maritalStatus == Some("single") then NewGraduate
    else if a.hasChildren && a.childrenAges.Some? then
      match Youngest(a.childrenAges.value)
      case None => EmptyNest
      case Some(y) => if y < 6 then ChildRearing else if y < 18 then ChildEducation else EmptyNest
    else if a.maritalStatus == Some("married") && !a.hasChildren then Newlywed
    else if age >= 55 then PreRetirement
    else if age >= 65 then Retired
    else WorkingSingle
  }

  // ---------------------------------------------------------------------------
  // Dates and age

  /** A date as JavaScript's `Date` reports it: the full year, the month 0-11 and the day of the month. */
  datatype CalendarDate = CalendarDate(year: int, month: int, day: int)

  predicate IsLeapYear(y: int) {
    (y % 4 == 0 && y % 100 != 0) || y % 400 == 0
  }

  function DaysInMonth(y: int, m: int): (r: int)
    requires 0 <= m < 12
    ensures 28 <= r <= 31
  {
    if m == 1 then (if IsLeapYear(y) then 29 else 28)
    else if m == 3 || m == 5 || m == 8 || m == 10 then 30
    else 31
  }

  predicate ValidDate(d: CalendarDate) {
    0 <= d.month < 12 && 1 <= d.day <= DaysInMonth(d.year, d.month)
  }

  /** A day number outside the month carries into the neighbouring months, a month at a time. */
  function RollDays(y: int, m: int, d: int): (r: CalendarDate)
    requires 0 <= m < 12
    ensures ValidDate(r)
    ensures 1 <= d <= DaysInMonth(y, m) ==> r == CalendarDate(y, m, d)
    decreases if d < 1 then 1 - d else 0, d
  {
    if d < 1 then
      var py := if m == 0 then y - 1 else y;
      var pm := if m == 0 then 11 else m - 1;
      RollDays(py, pm, d + DaysInMonth(py, pm))
    else if d > DaysInMonth(y, m) then
      var ny := if m == 11 then y + 1 else y;
      var nm := if m == 11 then 0 else m + 1;
      RollDays(ny, nm, d - DaysInMonth(y, m))
    else CalendarDate(y, m, d)
  }

  /** The `Date` constructor reads the years 0 to 99 as 1900 to 1999. */
  function FullYear(y: int): int {
    if 0 <= y <= 99 then 1900 + y else y
  }

  /** `new Date(y, m, d)`: always a real date; an existing date is taken as it is. */
  function MakeDate(y: int, m: int, d: int): (r: CalendarDate)
    ensures ValidDate(r)
    ensures 0 <= m < 12 && 1 <= d <= DaysInMonth(FullYear(y), m) ==> r == CalendarDate(FullYear(y), m, d)
  {
    RollDays(FullYear(y) + m / 12, m % 12, d)
  }

  /**
   * A day the day select offers (up to 31) past the end of the month lands
   * that many days into the next month: 31 April is 1 May, 30 February of a
   * common year is 2 March.
   */
  lemma MakeDateCarriesDay(y: int, m: int, d: int)
    requires 0 <= m < 12 && DaysInMonth(FullYear(y), m) < d <= 31
    ensures MakeDate(y, m, d) == CalendarDate(
      if m == 11 then FullYear(y) + 1 else FullYear(y),
      if m == 11 then 0 else m + 1,
      d - DaysInMonth(FullYear(y), m))
  {
    var ny := if m == 11 then FullYear(y) + 1 else FullYear(y);
    var nm := if m == 11 then 0 else m + 1;
    assert MakeDate(y, m, d) == RollDays(FullYear(y), m, d);
    assert RollDays(FullYear(y), m, d) == RollDays(ny, nm, d - DaysInMonth(FullYear(y), m));
  }

  /** `a` comes before `b` in the calendar. */
  predicate Before(a: CalendarDate, b: CalendarDate) {
    a.year < b.year || (a.year == b.year && (a.month < b.month || (a.month == b.month && a.day < b.day)))
  }

  /** The same month and day, `n` years on. */
  function Anniversary(birth: CalendarDate, n: int): CalendarDate {
    birth.(year := birth.year + n)
  }

  /**
   * The whole years from `birth` to `today`: the difference of the years,
   * less one while this year's birthday is still ahead. A person is at least
   * `n` years old exactly when the `n`-th birthday is not after today.
   */
  function YearsSince(birth: CalendarDate, today: CalendarDate): (r: int)
    ensures forall n :: r >= n <==> !Before(today, Anniversary(birth, n))
  {
    var age := today.year - birth.year;
    var monthDiff := today.month - birth.month;
    if monthDiff < 0 || (monthDiff == 0 && today.day < birth.day) then age - 1 else age
  }

  predicate HasBirthDate(a: Answers) {
    a.birthYear != 0 && a.birthMonth != 0 && a.birthDay != 0
  }

  /** The birth date the selects give, through `new Date(year, month - 1, day)`. */
  function BirthDate(a: Answers): CalendarDate {
    MakeDate(a.birthYear, a.birthMonth - 1, a.birthDay)
  }

  /** `calculateAge`: 0 while a part of the birth date is missing, the whole years since the birth date otherwise. */
  function CalculateAge(a: Answers, today: CalendarDate): (r: int)
    ensures !HasBirthDate(a) ==> r == 0
    ensures HasBirthDate(a) ==> forall n :: r >= n <==> !Before(today, Anniversary(BirthDate(a), n))
  {
    if !HasBirthDate(a) then 0 else YearsSince(BirthDate(a), today)
  }

  // ---------------------------------------------------------------------------
  // Steps

  /**
   * `canProceed` for each step: name, gender and a birth date whose 18th
   * anniversary has come; an email with an `@`; the family, work, location
   * and money answers present; at least one plan; at least one goal; an
   * animal; all three agreements. Any other step may proceed.
   */
  function CanProceed(step: int, a: Answers, ag: Agreements, today: CalendarDate): (r: bool)
    ensures step == 0 ==> (r <==>
      a.name != "" && a.gender != "" && HasBirthDate(a) && !Before(today, Anniversary(BirthDate(a), 18)))
    ensures step == 1 ==> (r <==> '@' in a.email)
    ensures step == 2 ==> (r <==> a.maritalStatus.Some? && a.householdSize.Some?)
    ensures step == 3 ==> (r <==> a.occupation != "" && a.annualIncome.Some?)
    ensures step == 4 ==> (r <==> a.prefecture != "" && a.housingType != "")
    ensures step == 5 ==> (r <==> a.currentSavings.Some? && a.monthlyHousingCost.Some?)
    ensures step == 6 ==> (r <==> a.futurePlans != [])
    ensures step == 7 ==> (r <==> a.goals != [])
    ensures step == 8 ==> (r <==> a.favoriteAnimal != "")
    ensures step == 9 ==> (r <==> ag.termsOfService && ag.privacyPolicy && ag.disclaimerAcknowledged)
    ensures !(0 <= step < StepCount) ==> r
  {
    match step
    case 0 => a.name != "" && a.birthYear != 0 && a.gender != "" && CalculateAge(a, today) >= 18
    case 1 => a.email != "" && '@' in a.email
    case 2 => a.maritalStatus.Some? && a.householdSize.Some?
    case 3 => a.occupation != "" && a.annualIncome.Some?
    case 4 => a.prefecture != "" && a.housingType != ""
    case 5 => a.currentSavings.Some? && a.monthlyHousingCost.Some?
    case 6 => |a.futurePlans| > 0
    case 7 => |a.goals| > 0
    case 8 => a.favoriteAnimal != ""
    case 9 => ag.termsOfService && ag.privacyPolicy && ag.disclaimerAcknowledged
    case _ => true
  }

  /**
   * The household size the family step keeps in the answers: the person,
   * a spouse when married, and the children when there are any.
   */
  function HouseholdSize(a: Answers): (r: int)
    ensures a.maritalStatus != Some("married") && !a.hasChildren ==> r == 1
    ensures a.numberOfChildren >= 0 ==> 1 <= r <= 2 + a.numberOfChildren
    ensures a.hasChildren && a.maritalStatus == Some("married") ==> r == 2 + a.numberOfChildren
    ensures a.hasChildren ==> r == 1 + (if a.maritalStatus == Some("married") then 1 else 0) + a.numberOfChildren
    ensures !a.hasChildren ==> r == if a.maritalStatus == Some("married") then 2 else 1
  {
    var spouse := if a.maritalStatus == Some("married") then 1 else 0;
    var children := if a.hasChildren && a.numberOfChildren != 0 then a.numberOfChildren else 0;
    1 + spouse + children
  }

  /** The wizard's state: the step shown, the answers and the agreements. */
  class Wizard {
    var currentStep: int
    var answers: Answers
    var agreements: Agreements

    /** The step is one of the ten; "nothing planned" is chosen alone; no plan or goal is listed twice. */
    predicate Valid()
      reads this
    {
      0 <= currentStep < StepCount
      && NoneAlone(answers.futurePlans, NoPlan)
      && NoDup(answers.futurePlans) && NoDup(answers.goals)
    }

    constructor()
      ensures Valid()
      ensures currentStep == 0 && answers == InitialAnswers && agreements == NoAgreements
    {
      currentStep, answers, agreements := 0, InitialAnswers, NoAgreements;
    }

    /** `handleNext`: one step on, except on the last step. */
    method HandleNext()
      requires Valid()
      modifies this
      ensures Valid()
      ensures currentStep == if old(currentStep) < StepCount - 1 then old(currentStep) + 1 else old(currentStep)
      ensures answers == old(answers) && agreements == old(agreements)
    {
      if currentStep < StepCount - 1 {
        currentStep := currentStep + 1;
      }
    }

    /** `handlePrev`: one step back, except on the first step. */
    method HandlePrev()
      requires Valid()
      modifies this
      ensures Valid()
      ensures currentStep == if old(currentStep) > 0 then old(currentStep) - 1 else old(currentStep)
      ensures answers == old(answers) && agreements == old(agreements)
    {
      if currentStep > 0 {
        currentStep := currentStep - 1;
      }
    }

    /**
     * The "next" button, disabled while the step cannot proceed: the wizard
     * moves on exactly when the step is not the last and its answers let it
     * proceed; leaving the first step means the person has turned 18.
     */
    method PressNext(today: CalendarDate) returns (moved: bool)
      requires Valid()
      modifies this
      ensures Valid()
      ensures moved <==> old(currentStep) < StepCount - 1 && CanProceed(old(currentStep), answers, agreements, today)
      ensures currentStep == old(currentStep) + (if moved then 1 else 0)
      ensures moved && old(currentStep) == 0 ==> HasBirthDate(answers) && CalculateAge(answers, today) >= 18
      ensures answers == old(answers) && agreements == old(agreements)
    {
      moved := currentStep < StepCount - 1 && CanProceed(currentStep, answers, agreements, today);
      if moved {
        HandleNext();
      }
    }

    /** `togglePlan`: "nothing planned" replaces every plan; another plan drops it and changes side. */
    method TogglePlan(plan: string)
      requires Valid()
      modifies this
      ensures Valid()
      ensures answers == old(answers).(futurePlans := ToggleWithNone(old(answers).futurePlans, plan, NoPlan))
      ensures currentStep == old(currentStep) && agreements == old(agreements)
    {
      ToggleWithNoneSpec(answers.futurePlans, plan, NoPlan);
      answers := answers.(futurePlans := ToggleWithNone(answers.futurePlans, plan, NoPlan));
    }

    /** `toggleGoal`: the goal changes side, the other goals stay. */
    method ToggleGoal(goal: string)
      requires Valid()
      modifies this
      ensures Valid()
      ensures answers == old(answers).(goals := Flip(old(answers).goals, goal))
      ensures currentStep == old(currentStep) && agreements == old(agreements)
    {
      FlipSpec(answers.goals, goal);
      answers := answers.(goals := Flip(answers.goals, goal));
    }

    /** A check box of the last step: that agreement takes the box's state, the other two stay, and an unchecked box keeps the last step from proceeding. */
    method SetAgreement(which: Agreement, checked: bool)
      requires Valid()
      modifies this
      ensures Valid()
      ensures agreements == match which
        case TermsOfService => old(agreements).(termsOfService := checked)
        case PrivacyPolicy => old(agreements).(privacyPolicy := checked)
        case DisclaimerAcknowledged => old(agreements).(disclaimerAcknowledged := checked)
      ensures !checked ==> !(agreements.termsOfService && agreements.privacyPolicy && agreements.disclaimerAcknowledged)
      ensures currentStep == old(currentStep) && answers == old(answers)
    {
      match which
      case TermsOfService => agreements := agreements.(termsOfService := checked);
      case PrivacyPolicy => agreements := agreements.(privacyPolicy := checked);
      case DisclaimerAcknowledged => agreements := agreements.(disclaimerAcknowledged := checked);
    }

    /**
     * The family step's effect: it writes the computed household size when
     * the stored one differs. The size does not depend on the stored one, so
     * a second run finds nothing to change.
     */
    method SyncHouseholdSize() returns (changed: bool)
      requires Valid()
      modifies this
      ensures Valid()
      ensures changed <==> old(answers).householdSize != Some(HouseholdSize(old(answers)))
      ensures answers == old(answers).(householdSize := Some(HouseholdSize(old(answers))))
      ensures answers.householdSize == Some(HouseholdSize(answers))
      ensures currentStep == old(currentStep) && agreements == old(agreements)
    {
      var size := HouseholdSize(answers);
      changed := answers.householdSize != Some(size);
      if changed {
        answers := answers.(householdSize := Some(size));
      }
    }
  }

  /** Toggling a plan and then toggling it again restores the plans, when neither it nor "nothing planned" was chosen. */
  lemma TogglePlanTwice(plans: seq<string>, plan: string)
    requires plan != NoPlan && NoPlan !in plans && plan !in plans
    ensures ToggleWithNone(ToggleWithNone(plans, plan, NoPlan), plan, NoPlan) == plans
  {
    ToggleWithNoneSpec(plans, plan, NoPlan);
  }
}
