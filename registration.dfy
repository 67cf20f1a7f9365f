/** The profile-creation wizard (src/pages/Register.tsx): the form schema, the interests
    parser, the three-step machine and the profile handed to the profile context. */
module Registration {
  import opened Wrappers
  import opened Profiles
  import Text

  // ---------------------------------------------------------------------------
  // The schema

  datatype Field = Name | Age | Bio | Religious | Marital | Intent | City | Country

  /** The form values as entered; the enum fields arrive as strings. */
  datatype RawForm = RawForm(
    name: string, age: int, bio: string,
    religiousLevel: string, maritalStatus: string, lookingFor: string,
    city: string, country: string, interests: Option<string>)

  /** The form values once the schema accepts them. */
  datatype ProfileForm = ProfileForm(
    name: string, age: int, bio: string,
    religiousLevel: ReligiousLevel, maritalStatus: MaritalStatus, lookingFor: LookingFor,
    city: string, country: string, interests: Option<string>)

  function ReligiousName(r: ReligiousLevel): string {
    match r
    case Practicing => "practicing"
    case Moderate => "moderate"
    case Cultural => "cultural"
  }

  function MaritalName(m: MaritalStatus): string {
    match m
    case Single => "single"
    case Divorced => "divorced"
    case Widowed => "widowed"
  }

  function IntentName(l: LookingFor): string {
    match l
    case Marriage => "marriage"
    case Friendship => "friendship"
    case Both => "both"
  }

  /** `z.enum(['practicing', 'moderate', 'cultural'])`: exactly the three names parse. */
  function ParseReligious(s: string): (r: Option<ReligiousLevel>)
    ensures r.Some? <==> s in ["practicing", "moderate", "cultural"]
    ensures r.Some? ==> ReligiousName(r.value) == s
  {
    if s == "practicing" then Some(Practicing)
    else if s == "moderate" then Some(Moderate)
    else if s == "cultural" then Some(Cultural)
    else None
  }

  function ParseMarital(s: string): (r: Option<MaritalStatus>)
    ensures r.Some? <==> s in ["single", "divorced", "widowed"]
    ensures r.Some? ==> MaritalName(r.value) == s
  {
    if s == "single" then Some(Single)
    else if s == "divorced" then Some(Divorced)
    else if s == "widowed" then Some(Widowed)
    else None
  }

  function ParseIntent(s: string): (r: Option<LookingFor>)
    ensures r.Some? <==> s in ["marriage", "friendship", "both"]
    ensures r.Some? ==> IntentName(r.value) == s
  {
    if s == "marriage" then Some(Marriage)
    else if s == "friendship" then Some(Friendship)
    else if s == "both" then Some(Both)
    else None
  }

  /** Every enum value survives a round trip through its name. */
  lemma EnumNamesRoundTrip(r: ReligiousLevel, m: MaritalStatus, l: LookingFor)
    ensures ParseReligious(ReligiousName(r)) == Some(r)
    ensures ParseMarital(MaritalName(m)) == Some(m)
    ensures ParseIntent(IntentName(l)) == Some(l)
  {
  }

  /** Whether the schema rejects one field of the form. A string minimum counts UTF-16 code units. */
  predicate Fails(f: RawForm, x: Field) {
    match x
    case Name => Text.Utf16Length(f.name) < 2
    case Age => f.age < 18 || f.age > 100
    case Bio => Text.Utf16Length(f.bio) < 20
    case Religious => ParseReligious(f.religiousLevel).None?
    case Marital => ParseMarital(f.maritalStatus).None?
    case Intent => ParseIntent(f.lookingFor).None?
    case City => Text.Utf16Length(f.city) < 2
    case Country => Text.Utf16Length(f.country) < 2
  }

  const AllFields: set<Field> := {Name, Age, Bio, Religious, Marital, Intent, City, Country}

  /** The fields the schema rejects: exactly the failing ones. */
  function Errors(f: RawForm): (e: set<Field>)
    ensures forall x :: x in e <==> Fails(f, x)
  {
    set x | x in AllFields && Fails(f, x)
  }

  /** `profileSchema`: the form is accepted exactly when every bound holds, and then the
      accepted values are the entered ones; otherwise the failing fields are reported. */
  function Validate(f: RawForm): (r: Result<ProfileForm, set<Field>>)
    ensures r.Success? <==>
              Text.Utf16Length(f.name) >= 2 && 18 <= f.age <= 100 && Text.Utf16Length(f.bio) >= 20
              && f.religiousLevel in ["practicing", "moderate", "cultural"]
              && f.maritalStatus in ["single", "divorced", "widowed"]
              && f.lookingFor in ["marriage", "friendship", "both"]
              && Text.Utf16Length(f.city) >= 2 && Text.Utf16Length(f.country) >= 2
    ensures r.Failure? ==> r.error == Errors(f) && r.error != {}
    ensures r.Success? ==>
              var v := r.value;
              v.name == f.name && v.age == f.age && v.bio == f.bio
              && ReligiousName(v.religiousLevel) == f.religiousLevel
              && MaritalName(v.maritalStatus) == f.maritalStatus
              && IntentName(v.lookingFor) == f.lookingFor
              && v.city == f.city && v.country == f.country && v.interests == f.interests
  {
    if Errors(f) != {} then Failure(Errors(f))
    else
      assert Name !in Errors(f) && Age !in Errors(f) && Bio !in Errors(f) && City !in Errors(f);
      assert Religious !in Errors(f) && Marital !in Errors(f) && Intent !in Errors(f) && Country !in Errors(f);
      Success(ProfileForm(f.name, f.age, f.bio,
                          ParseReligious(f.religiousLevel).value, ParseMarital(f.maritalStatus).value,
                          ParseIntent(f.lookingFor).value, f.city, f.country, f.interests))
  }

  // ---------------------------------------------------------------------------
  // The interests parser

  function TrimAll(parts: seq<string>): (r: seq<string>)
    ensures |r| == |parts| && forall i :: 0 <= i < |parts| ==> r[i] == Text.Trim(parts[i])
  {
    seq(|parts|, i requires 0 <= i < |parts| => Text.Trim(parts[i]))
  }

  /** `parts.filter(i => i)`: drops the empty strings, keeps the rest in order. */
  function KeepNonEmpty(parts: seq<string>): (r: seq<string>)
    ensures forall x :: x in r <==> x in parts && x != ""
    ensures SubsequenceOf(r, parts)
    ensures multiset(r) == multiset(parts)["" := 0]
    ensures |r| <= |parts|
  {
    if parts == [] then []
    else
      assert parts == [parts[0]] + parts[1..];
      var rest := KeepNonEmpty(parts[1..]);
      if parts[0] != "" then [parts[0]] + rest else rest
  }

  /** `interests ? interests.split(',').map(i => i.trim()).filter(i => i) : []`. */
  function ParseInterests(interests: Option<string>): (r: seq<string>)
    ensures interests.None? || interests == Some("") ==> r == []
    ensures forall x :: x in r ==>
              x != "" && !Text.IsJsWhitespace(x[0]) && !Text.IsJsWhitespace(x[|x| - 1])
    ensures interests.Some? ==>
              var parts := TrimAll(Text.Split(interests.value, ','));
              SubsequenceOf(r, parts) && (forall x :: x in r <==> x in parts && x != "")
              && multiset(r) == multiset(parts)["" := 0]
  {
    if interests.None? then []
    else if interests.value == "" then
      assert Text.Split("", ',') == [""] && Text.Trim("") == "";
      assert TrimAll(Text.Split("", ',')) == [""];
      []
    else KeepNonEmpty(TrimAll(Text.Split(interests.value, ',')))
  }

  /** There are never more interests than commas plus one. */
  lemma InterestsCount(s: string)
    ensures |ParseInterests(Some(s))| <= Text.Occurrences(s, ',') + 1
  {
    Text.SplitCount(s, ',');
  }

  // ---------------------------------------------------------------------------
  // Submission

  const DefaultAvatar: string :=
    "https://images.unsplash.com/photo-1633332755192-727a05c4013d?ixlib=rb-4.0.3&ixid=MnwxMjA3fDB8MHxwaG90by1wYWdlfHx8fGVufDB8fHx8&auto=format&fit=crop&w=1180&q=80"

  /** The profile `onSubmit` hands to `createUserProfile`: the form's fields, the parsed
      interests, one default photo, and a location at latitude and longitude 0. */
  function SubmittedDraft(f: ProfileForm): (d: Draft)
    ensures d.name == f.name && d.age == f.age && d.bio == f.bio
    ensures d.religiousLevel == f.religiousLevel && d.maritalStatus == f.maritalStatus
    ensures d.lookingFor == f.lookingFor
    ensures d.photos == [DefaultAvatar]
    ensures d.location == Some(Location(Coordinates(0.0, 0.0), Some(f.city), Some(f.country)))
    ensures d.interests == ParseInterests(f.interests) && d.telegramUsername == None
  {
    Draft(f.name, f.age, f.bio, [DefaultAvatar],
          Some(Location(Coordinates(0.0, 0.0), Some(f.city), Some(f.country))),
          ParseInterests(f.interests), f.religiousLevel, f.maritalStatus, f.lookingFor, None)
  }

  // ---------------------------------------------------------------------------
  // The step machine

  /** The fields the "next" button validates on each step. */
  function StepFields(step: int): (fields: set<Field>)
    ensures step == 1 ==> fields == {Name, Age, Bio}
    ensures step == 2 ==> fields == {Religious, Marital, Intent}
    ensures step != 1 && step != 2 ==> fields == {}
  {
    if step == 1 then {Name, Age, Bio} else if step == 2 then {Religious, Marital, Intent} else {}
  }

  /** The errors the form shows once a validation of `fields` has completed: those fields
      take the validation's verdict, every other field keeps what it showed. */
  function Recorded(shown: set<Field>, validation: set<Field>, fields: set<Field>): (r: set<Field>)
    ensures forall x :: x in fields ==> (x in r <==> x in validation)
    ensures forall x :: x !in fields ==> (x in r <==> x in shown)
  {
    (shown - fields) + (validation * fields)
  }

  /** The form's initial values (`userName` is the signed-in user's name, if any). */
  function InitialForm(userName: Option<string>): (f: RawForm)
    ensures f.age == 25 && f.bio == "" && f.city == "" && f.country == ""
    ensures f.religiousLevel == "moderate" && f.maritalStatus == "single" && f.lookingFor == "marriage"
    ensures f.name == userName.GetOr("") && f.interests == Some("")
  {
    RawForm(userName.GetOr(""), 25, "", "moderate", "single", "marriage", "", "", Some(""))
  }

  /** The wizard. `shown` is what `formState.errors` holds: the verdict of the validations
      that have completed so far. */
  class Wizard {
    var step: int
    var shown: set<Field>

    ghost predicate Valid()
      reads this
    {
      1 <= step <= 3
    }

    constructor ()
      ensures Valid() && step == 1 && shown == {}
    {
      step := 1;
      shown := {};
    }

    /** `nextStep` as written. The validation it starts (`validation` is the schema's verdict
        on the current values) is not awaited, so the step is decided on the errors shown
        before it; its verdict on the step's fields is recorded afterwards. */
    method NextStep(validation: set<Field>)
      requires Valid()
      modifies this
      ensures Valid()
      ensures old(step) == 1 ==>
                step == if Name !in old(shown) && Age !in old(shown) && Bio !in old(shown) then 2 else 1
      ensures old(step) == 2 ==>
                step == if Religious !in old(shown) && Marital !in old(shown) && Intent !in old(shown) then 3 else 2
      ensures old(step) == 3 ==> step == 3
      ensures shown == Recorded(old(shown), validation, StepFields(old(step)))
    {
      var advance := if step == 1 then Name !in shown && Age !in shown && Bio !in shown
                     else if step == 2 then Religious !in shown && Marital !in shown && Intent !in shown
                     else false;
      shown := Recorded(shown, validation, StepFields(step));
      if advance {
        step := step + 1;
      }
    }

    /** `nextStep` with the validation awaited: the verdict is recorded first, and the step
        advances only when the step's own fields pass. */
    method NextStepAwaited(validation: set<Field>)
      requires Valid()
      modifies this
      ensures Valid()
      ensures old(step) == 1 ==>
                step == if Name !in validation && Age !in validation && Bio !in validation then 2 else 1
      ensures old(step) == 2 ==>
                step == if Religious !in validation && Marital !in validation && Intent !in validation then 3 else 2
      ensures old(step) == 3 ==> step == 3
      ensures shown == Recorded(old(shown), validation, StepFields(old(step)))
    {
      shown := Recorded(shown, validation, StepFields(step));
      var advance := if step == 1 then Name !in shown && Age !in shown && Bio !in shown
                     else if step == 2 then Religious !in shown && Marital !in shown && Intent !in shown
                     else false;
      if advance {
        step := step + 1;
      }
    }

    /** `prevStep`: back one step, never below the first; the errors stay. */
    method PrevStep()
      requires Valid()
      modifies this
      ensures Valid()
      ensures step == if old(step) > 1 then old(step) - 1 else old(step)
      ensures shown == old(shown)
    {
      if step > 1 {
        step := step - 1;
      }
    }
  }

  /** As written, two clicks on "next" take the untouched initial form to step 3, although
      its bio (and, with nobody signed in, its name) fails the schema: the first click reads
      the empty initial errors, and the second reads only the verdict on step 1's fields. */
  method StaleErrorsSkipValidation(userName: Option<string>) returns (reached: int, failing: set<Field>)
    ensures reached == 3
    ensures failing == Errors(InitialForm(userName)) && Bio in failing
  {
    failing := Errors(InitialForm(userName));
    var w := new Wizard();
    w.NextStep(failing);
    w.NextStep(failing);
    reached := w.step;
  }

  /** With the validation awaited, the initial form does not get past step 1. */
  method AwaitedValidationStops(userName: Option<string>) returns (reached: int)
    ensures reached == 1
  {
    var w := new Wizard();
    w.NextStepAwaited(Errors(InitialForm(userName)));
    w.NextStepAwaited(Errors(InitialForm(userName)));
    reached := w.step;
  }

  /** With the validation awaited, leaving step 1 means name, age and bio pass the schema,
      and leaving step 2 means the three choices parse; a valid form always gets to step 3. */
  method WizardPassesValidFields(f: RawForm) returns (reached: int)
    ensures reached == 3 ==>
              Text.Utf16Length(f.name) >= 2 && 18 <= f.age <= 100 && Text.Utf16Length(f.bio) >= 20
              && ParseReligious(f.religiousLevel).Some? && ParseMarital(f.maritalStatus).Some?
              && ParseIntent(f.lookingFor).Some?
    ensures Validate(f).Success? ==> reached == 3
  {
    var w := new Wizard();
    w.NextStepAwaited(Errors(f));
    w.NextStepAwaited(Errors(f));
    reached := w.step;
  }
}
