/**
 * The profile form of the settings page: the form's values, the children
 * answers (the "has children" box, the count select that resizes the age
 * list, the age selects), the plan and goal check boxes, and saving, which
 * checks the name and then the e-mail address before it writes the profile
 * with the birth date rendered as `YYYY-MM-DD`.
 */
module Settings {
  import opened Common
  import JsNumber
  import Validation
  import AppStore

  /** The form's values; the financial ones travel together as `financialInfo`. */
  datatype FormData = FormData(
    name: string, email: string, birthYear: int, birthMonth: int, birthDay: int, gender: string,
    prefecture: string, city: string, occupation: string, annualIncome: int, maritalStatus: string,
    hasChildren: bool, numberOfChildren: int, childrenAges: seq<int>, housingType: string,
    monthlyHousingCost: int, currentSavings: int, monthlySavingsAmount: int, investmentAssets: int,
    hasLifeInsurance: bool, hasHealthInsurance: bool, hasPensionInsurance: bool, hasIdeco: bool,
    hasNisa: bool, annualMedicalExpenses: int, futurePlans: seq<string>, goals: seq<string>,
    favoriteAnimal: string)

  datatype Message = Success(text: string) | Failure(text: string)

  const SavedText: string := "プロフィールを更新しました"
  const SaveFailedText: string := "更新に失敗しました"

  // ---------------------------------------------------------------------------
  // The children ages

  function Zeros(n: nat): (r: seq<int>)
    ensures |r| == n && forall i :: 0 <= i < n ==> r[i] == 0
  {
    if n == 0 then [] else Zeros(n - 1) + [0]
  }

  /** The ages cut or padded with 0 to `n` entries: the common prefix is kept. */
  function Resized(ages: seq<int>, n: nat): (r: seq<int>)
    ensures |r| == n
    ensures forall i :: 0 <= i < n ==> r[i] == if i < |ages| then ages[i] else 0
  {
    if n <= |ages| then ages[..n] else ages + Zeros(n - |ages|)
  }

  /** One more entry past the old list is a 0; one fewer drops the last entry. */
  lemma ResizedStep(ages: seq<int>, n: nat)
    ensures n >= |ages| ==> Resized(ages, n + 1) == Resized(ages, n) + [0]
    ensures n > 0 ==> Resized(ages, n - 1) == Resized(ages, n)[..n - 1]
  {
    if n >= |ages| {
      assert Resized(ages, n + 1) == Resized(ages, n) + [0];
    }
    if n > 0 {
      assert Resized(ages, n - 1) == Resized(ages, n)[..n - 1];
    }
  }

  /** The count select's loops: push 0 while the list is short, pop while it is long. */
  method ResizeAges(ages: seq<int>, num: int) returns (r: seq<int>)
    requires num >= 0
    ensures r == Resized(ages, num)
  {
    r := ages;
    assert r == Resized(ages, |r|);
    while |r| < num
      invariant r == Resized(ages, |r|)
      invariant |r| <= num || r == ages
      decreases num - |r|
    {
      ResizedStep(ages, |r|);
      r := r + [0];
    }
    while |r| > num
      invariant |r| >= num
      invariant r == Resized(ages, |r|)
      decreases |r|
    {
      ResizedStep(ages, |r|);
      r := r[..|r| - 1];
    }
  }

  /** Growing the list with zeros and shrinking it back to its old length restores it. */
  lemma ResizeBack(ages: seq<int>, n: nat)
    requires n >= |ages|
    ensures Resized(Resized(ages, n), |ages|) == ages
  {
  }

  /** `newAges[index] = age`: past the end the gap is filled (with 0 here) and the list grows to `index + 1`. */
  function SetAt(ages: seq<int>, index: nat, age: int): (r: seq<int>)
    ensures |r| == Max(|ages|, index + 1)
    ensures r[index] == age
    ensures forall i :: 0 <= i < |ages| && i != index ==> r[i] == ages[i]
    ensures forall i :: |ages| <= i < index ==> r[i] == 0
  {
    if index < |ages| then ages[index := age] else ages + Zeros(index - |ages|) + [age]
  }

  // ---------------------------------------------------------------------------
  // The birth date

  /** `String(n).padStart(2, '0')`. */
  function Pad2(s: string): (r: string)
    ensures |s| >= 2 ==> r == s
    ensures |s| < 2 ==> |r| == 2 && r[2 - |s|..] == s && forall i :: 0 <= i < 2 - |s| ==> r[i] == '0'
  {
    if |s| >= 2 then s else if |s| == 1 then "0" + s else "00"
  }

  /** `${year}-${pad(month)}-${pad(day)}`. */
  function BirthDateText(year: int, month: int, day: int): string {
    IntToString(year) + "-" + Pad2(IntToString(month)) + "-" + Pad2(IntToString(day))
  }

  /** A leading zero adds nothing to the value of a decimal numeral. */
  lemma {:induction false} ValueOfZeroPrefix(ds: string)
    requires forall i :: 0 <= i < |ds| ==> IsDigit(ds[i])
    ensures forall i :: 0 <= i < |"0" + ds| ==> JsNumber.IsRadixDigit(("0" + ds)[i], 10)
    ensures JsNumber.ValueOf("0" + ds, 10) == JsNumber.ValueOf(ds, 10)
    decreases |ds|
  {
    var z := "0" + ds;
    assert forall i :: 0 <= i < |z| ==> IsDigit(z[i]);
    if ds == [] {
      assert z[..0] == [];
    } else {
      var p := ds[..|ds| - 1];
      ValueOfZeroPrefix(p);
      assert z[..|z| - 1] == "0" + p;
      assert z[|z| - 1] == ds[|ds| - 1];
    }
  }

  /** A one- or two-digit number padded to two digits reads back as the number. */
  lemma Pad2Parses(n: nat)
    requires n < 100
    ensures |Pad2(NatToString(n))| == 2 && '-' !in Pad2(NatToString(n))
    ensures JsNumber.ParseDecimal(Pad2(NatToString(n))) == JsNumber.Int(n)
  {
    var s := NatToString(n);
    if n >= 10 {
      assert s == NatToString(n / 10) + [DigitChar(n % 10)];
      JsNumber.ParseDecimalOfNat(n);
    } else {
      var t := Pad2(s);
      assert t == "0" + s;
      JsNumber.ValueOfNatToString(n);
      ValueOfZeroPrefix(s);
      assert !IsSpace(t[0]);
      assert TrimStart(t) == t;
      assert JsNumber.Unsigned(t) == t;
      assert JsNumber.DigitRun(t, 10) == |t|;
      assert t[..|t|] == t;
    }
  }

  lemma Regroup(a: string, b: string, c: string, sep: char)
    ensures a + [sep] + b + [sep] + c == a + [sep] + (b + [sep] + c)
  {
  }

  lemma BirthDateFields(year: nat, month: nat, day: nat)
    ensures BirthDateText(year, month, day)
      == NatToString(year) + ['-'] + (Pad2(NatToString(month)) + ['-'] + Pad2(NatToString(day)))
  {
    Regroup(NatToString(year), Pad2(NatToString(month)), Pad2(NatToString(day)), '-');
  }

  /** A text without the separator splits into itself. */
  lemma SplitWhole(s: string, sep: char)
    requires sep !in s
    ensures Split(s, sep) == [s]
  {
  }

  /** Three fields without the separator, joined by it, split back into the three. */
  lemma SplitThree(a: string, b: string, c: string, sep: char)
    requires sep !in a && sep !in b && sep !in c
    ensures Split(a + [sep] + (b + [sep] + c), sep) == [a, b, c]
  {
    SplitStep(a, sep, b + [sep] + c);
    SplitStep(b, sep, c);
    SplitWhole(c, sep);
  }

  /** The rendered birth date splits at `-` into the year and the two padded fields. */
  lemma BirthDateSplits(year: nat, month: nat, day: nat)
    requires month < 100 && day < 100
    ensures Split(BirthDateText(year, month, day), '-')
      == [NatToString(year), Pad2(NatToString(month)), Pad2(NatToString(day))]
  {
    var y, m, d := NatToString(year), Pad2(NatToString(month)), Pad2(NatToString(day));
    Pad2Parses(month);
    Pad2Parses(day);
    assert '-' !in y by {
      assert forall i :: 0 <= i < |y| ==> IsDigit(y[i]);
    }
    BirthDateFields(year, month, day);
    SplitThree(y, m, d, '-');
  }

  /**
   * The rendered birth date (for a year without sign and a month and day the
   * selects offer) splits at `-` into the year and two two-digit fields, and
   * reading each field back gives the year, the month and the day.
   */
  lemma BirthDateRoundTrip(year: nat, month: nat, day: nat)
    requires month < 100 && day < 100
    ensures var parts := Split(BirthDateText(year, month, day), '-');
      && |parts| == 3 && |parts[1]| == 2 && |parts[2]| == 2
      && JsNumber.ParseDecimal(parts[0]) == JsNumber.Int(year)
      && JsNumber.ParseDecimal(parts[1]) == JsNumber.Int(month)
      && JsNumber.ParseDecimal(parts[2]) == JsNumber.Int(day)
  {
    BirthDateSplits(year, month, day);
    Pad2Parses(month);
    Pad2Parses(day);
    JsNumber.ParseDecimalOfNat(year);
  }

  // ---------------------------------------------------------------------------
  // Saving

  /** The financial answers as the `financialInfo` object. */
  function FinancialInfo(f: FormData): Js {
    JObj([
      ("monthlyHousingCost", JNum(f.monthlyHousingCost)), ("currentSavings", JNum(f.currentSavings)),
      ("monthlySavingsAmount", JNum(f.monthlySavingsAmount)), ("investmentAssets", JNum(f.investmentAssets)),
      ("hasLifeInsurance", JBool(f.hasLifeInsurance)), ("hasHealthInsurance", JBool(f.hasHealthInsurance)),
      ("hasPensionInsurance", JBool(f.hasPensionInsurance)), ("hasIdeco", JBool(f.hasIdeco)),
      ("hasNisa", JBool(f.hasNisa)), ("annualMedicalExpenses", JNum(f.annualMedicalExpenses))])
  }

  /** The profile fields `handleSave` writes, with the rendered birth date and the time of the save. */
  function SavedProfile(f: FormData, now: string): (u: AppStore.ProfileUpdate)
    ensures u.birthDate == Some(BirthDateText(f.birthYear, f.birthMonth, f.birthDay))
    ensures u.name == Some(f.name) && u.email == Some(f.email) && u.childrenAges == Some(f.childrenAges)
    ensures u.id.None? && u.createdAt.None? && u.householdSize.None?
  {
    AppStore.ProfileUpdate(
      None, Some(f.name), Some(f.email), Some(BirthDateText(f.birthYear, f.birthMonth, f.birthDay)),
      Some(f.gender), Some(f.prefecture), Some(f.city), Some(f.occupation), Some(f.annualIncome), None,
      Some(f.maritalStatus), Some(f.hasChildren), Some(f.numberOfChildren), Some(f.childrenAges),
      Some(f.housingType), Some(f.futurePlans), Some(f.goals), Some(f.favoriteAnimal),
      Some(FinancialInfo(f)), None, Some(now))
  }

  /** The store after `updateUser(u)` at time `now`. */
  function AfterUpdate(s: AppStore.AppState, u: AppStore.ProfileUpdate, now: string): AppStore.AppState {
    if s.user.Some? then s.(user := Some(AppStore.MergeProfile(s.user.value, u).(updatedAt := now))) else s
  }

  /** The first failing check of `handleSave`, as an error message; `None` when every check passes. */
  function Rejection(f: FormData): Option<string> {
    var nameCheck := Validation.ValidateName(f.name);
    var emailCheck := Validation.ValidateEmail(f.email);
    if !nameCheck.isValid then nameCheck.error
    else if !emailCheck.isValid then emailCheck.error
    else None
  }

  /** The message `handleSave` ends with: the first failing check, else the outcome of the request. */
  function SaveMessage(f: FormData, ok: bool): (m: Message)
    ensures Rejection(f).Some? ==> m == Failure(Rejection(f).value)
    ensures m.Success? <==> ok && Rejection(f).None?
    ensures m.Success? ==> m.text == SavedText
  {
    match Rejection(f)
    case Some(error) => Failure(error)
    case None => if ok then Success(SavedText) else Failure(SaveFailedText)
  }

  /**
   * The checks run in order: a bad name is reported whatever the e-mail
   * address, a bad address only after a good name, and the save goes ahead
   * exactly when both pass and the request succeeds.
   */
  lemma SaveChecksInOrder(f: FormData, ok: bool)
    ensures !Validation.ValidateName(f.name).isValid ==>
      SaveMessage(f, ok) == Failure(Validation.ValidateName(f.name).error.value)
    ensures Validation.ValidateName(f.name).isValid && !Validation.ValidateEmail(f.email).isValid ==>
      SaveMessage(f, ok) == Failure(Validation.ValidateEmail(f.email).error.value)
    ensures SaveMessage(f, ok).Success? <==>
      ok && Validation.ValidateName(f.name).isValid && Validation.ValidateEmail(f.email).isValid
  {
  }

  /** The profile section of the settings page, over the application store. */
  class ProfileForm {
    var formData: FormData
    var message: Option<Message>
    const store: AppStore.Store

    constructor(store: AppStore.Store, formData: FormData)
      ensures this.store == store && this.formData == formData && message == None
    {
      this.store := store;
      this.formData := formData;
      message := None;
    }

    /** The "has children" box: checked means at least one child and at least one age; unchecked clears both. */
    method SetHasChildren(checked: bool)
      modifies this
      ensures formData == old(formData).(
        hasChildren := checked,
        numberOfChildren := if checked then Max(1, old(formData).numberOfChildren) else 0,
        childrenAges := if checked then (if |old(formData).childrenAges| > 0 then old(formData).childrenAges else [0]) else [])
      ensures checked ==> formData.numberOfChildren >= 1 && |formData.childrenAges| >= 1
      ensures !checked ==> formData.numberOfChildren == 0 && formData.childrenAges == []
      ensures message == old(message)
    {
      var ages := if checked then (if |formData.childrenAges| > 0 then formData.childrenAges else [0]) else [];
      formData := formData.(
        hasChildren := checked,
        numberOfChildren := if checked then Max(1, formData.numberOfChildren) else 0,
        childrenAges := ages);
    }

    /** The count select: the count becomes `num` and the ages are resized to exactly `num` entries. */
    method ChangeChildCount(num: int)
      requires num >= 0
      modifies this
      ensures formData == old(formData).(numberOfChildren := num, childrenAges := Resized(old(formData).childrenAges, num))
      ensures |formData.childrenAges| == formData.numberOfChildren
      ensures message == old(message)
    {
      var ages := ResizeAges(formData.childrenAges, num);
      formData := formData.(numberOfChildren := num, childrenAges := ages);
    }

    /** `updateChildAge(index, age)`: only the entry at the index changes. */
    method UpdateChildAge(index: nat, age: int)
      modifies this
      ensures formData == old(formData).(childrenAges := SetAt(old(formData).childrenAges, index, age))
      ensures message == old(message)
    {
      formData := formData.(childrenAges := SetAt(formData.childrenAges, index, age));
    }

    /** `toggleFuturePlan`: the plan changes side, the other plans stay. */
    method ToggleFuturePlan(plan: string)
      modifies this
      ensures formData == old(formData).(futurePlans := Flip(old(formData).futurePlans, plan))
      ensures message == old(message)
    {
      var current := formData.futurePlans;
      if plan in current {
        formData := formData.(futurePlans := Without(current, plan));
      } else {
        formData := formData.(futurePlans := current + [plan]);
      }
    }

    /** `toggleGoal`: the goal changes side, the other goals stay. */
    method ToggleGoal(goal: string)
      modifies this
      ensures formData == old(formData).(goals := Flip(old(formData).goals, goal))
      ensures message == old(message)
    {
      var current := formData.goals;
      if goal in current {
        formData := formData.(goals := Without(current, goal));
      } else {
        formData := formData.(goals := current + [goal]);
      }
    }

    /**
     * `handleSave`: the name is checked first, then the e-mail address; a
     * failure is reported and nothing is saved. Otherwise the profile is sent
     * (`ok` is whether the server accepted it) and, when accepted, merged into
     * the store's user.
     */
    method HandleSave(ok: bool, now: string)
      modifies this, store
      ensures message == Some(SaveMessage(old(formData), ok))
      ensures store.State() == if SaveMessage(old(formData), ok).Success?
        then AfterUpdate(old(store.State()), SavedProfile(old(formData), now), now)
        else old(store.State())
      ensures formData == old(formData)
    {
      var rejection := Rejection(formData);
      if rejection.Some? {
        message := Some(Failure(rejection.value));
        return;
      }
      message := None;
      Submit(ok, now);
    }

    /** The request part of `handleSave`: the store takes the form's profile when the request succeeds. */
    method Submit(ok: bool, now: string)
      modifies this, store
      ensures message == Some(if ok then Success(SavedText) else Failure(SaveFailedText))
      ensures store.State() == if ok then AfterUpdate(old(store.State()), SavedProfile(old(formData), now), now)
        else old(store.State())
      ensures formData == old(formData)
    {
      if ok {
        store.UpdateUser(SavedProfile(formData, now), now);
        message := Some(Success(SavedText));
      } else {
        message := Some(Failure(SaveFailedText));
      }
    }
  }

  /** Toggling a plan or a goal twice restores the list when it was not chosen before; no toggle creates a repeat. */
  lemma ToggleTwice(items: seq<string>, item: string)
    ensures item !in items ==> Flip(Flip(items, item), item) == items
    ensures NoDup(items) ==> NoDup(Flip(items, item))
  {
    FlipSpec(items, item);
  }
}
