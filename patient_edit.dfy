/**
 * The patient edit screen: the form fields it starts from, the gender and
 * condition check boxes, the blood-type choices and the Submit button.
 */
module PatientEdit {
  import opened Wrappers
  import opened Decimal
  import opened Strings
  import opened Patients
  import PatientList

  /** The form fields, in the screen's order. */
  datatype EditState = EditState(
    name: string,
    age: string,
    gender: string,
    condition: string,
    phone: string,
    email: Option<string>,
    address: Option<string>,
    emergencyContact: Option<string>,
    medical: string,
    allergy: string,
    bloodType: Option<string>)

  /** `patient.age ? patient.age.toString() : ""`. */
  function AgeText(age: Option<int>): (text: string)
    ensures text == "" <==> age.None? || age == Some(0)
  {
    if age.Some? && age.value != 0 then IntToString(age.value) else ""
  }

  /** `text || "N/A"`: a missing or empty text becomes "N/A". */
  function OrNotApplicable(text: Option<string>): (shown: string)
    ensures shown != ""
    ensures shown == "N/A" <==> text.None? || text == Some("") || text == Some("N/A")
    ensures shown != "N/A" ==> text == Some(shown)
  {
    if text.Some? && text.value != "" then text.value else "N/A"
  }

  /** The `useState` initial values taken from the route's patient. */
  function InitialState(p: Patient): (st: EditState)
    ensures st.name == p.name && st.gender == p.gender && st.condition == p.condition
    ensures st.phone == p.phone && st.email == p.email && st.address == p.address
    ensures st.emergencyContact == p.emergencyContactPhone && st.bloodType == p.bloodType
    ensures st.age == AgeText(p.age)
    ensures st.medical == OrNotApplicable(p.medical) && st.allergy == OrNotApplicable(p.allergy)
  {
    EditState(p.name, AgeText(p.age), p.gender, p.condition, p.phone, p.email, p.address,
              p.emergencyContactPhone, OrNotApplicable(p.medical), OrNotApplicable(p.allergy), p.bloodType)
  }

  /** A non-zero age reads back from the age field as the patient's age. */
  lemma AgeFieldReadsBack(p: Patient)
    requires p.age.Some? && p.age.value != 0
    ensures ParseInt(InitialState(p).age) == p.age
  {
    ParseIntToString(p.age.value);
  }

  datatype GenderBox = MaleBox | FemaleBox | OtherBox

  datatype ConditionBox = CriticalBox | StableBox

  function GenderTitle(box: GenderBox): (title: string)
  {
    match box
    case MaleBox => "Male"
    case FemaleBox => "Female"
    case OtherBox => "Other"
  }

  /** The value a press of the box stores with `setGender`. */
  function GenderPressValue(box: GenderBox): (value: string)
    ensures value == Lower(GenderTitle(box))
  {
    match box
    case MaleBox => "male"
    case FemaleBox => "female"
    case OtherBox => "other"
  }

  /** `checked={gender === "<Title>"}`: only a capitalised value checks a box. */
  function GenderChecked(gender: string, box: GenderBox): (checked: bool)
    ensures checked ==> |gender| >= 1 && IsUpper(gender[0])
  {
    gender == GenderTitle(box)
  }

  function ConditionTitle(box: ConditionBox): (title: string)
  {
    match box
    case CriticalBox => "Critical"
    case StableBox => "Stable"
  }

  /** The value a press of the box stores with `setCondition`. */
  function ConditionPressValue(box: ConditionBox): (value: string)
    ensures value == Lower(ConditionTitle(box))
  {
    match box
    case CriticalBox => "critical"
    case StableBox => "stable"
  }

  /** `checked={condition === "<Title>"}`: only a capitalised value checks a box. */
  function ConditionChecked(condition: string, box: ConditionBox): (checked: bool)
    ensures checked ==> |condition| >= 1 && IsUpper(condition[0])
  {
    condition == ConditionTitle(box)
  }

  /** At most one box of a group is checked, and only for the capitalised title. */
  lemma CheckedBoxesExclusive(gender: string, g1: GenderBox, g2: GenderBox,
                              condition: string, c1: ConditionBox, c2: ConditionBox)
    ensures GenderChecked(gender, g1) && GenderChecked(gender, g2) ==> g1 == g2
    ensures ConditionChecked(condition, c1) && ConditionChecked(condition, c2) ==> c1 == c2
    ensures GenderChecked(gender, MaleBox) <==> gender == "Male"
    ensures GenderChecked(gender, FemaleBox) <==> gender == "Female"
    ensures GenderChecked(gender, OtherBox) <==> gender == "Other"
    ensures ConditionChecked(condition, CriticalBox) <==> condition == "Critical"
    ensures ConditionChecked(condition, StableBox) <==> condition == "Stable"
  {
  }

  /** A press stores the lowercase form of the box's title, which matches no
      title, so after any gender press no gender box is checked. */
  lemma GenderPressUnchecksAll(pressed: GenderBox, box: GenderBox)
    ensures GenderPressValue(pressed) == Lower(GenderTitle(pressed))
    ensures !GenderChecked(GenderPressValue(pressed), box)
  {
  }

  /** The same for the condition boxes: after a press neither is checked. */
  lemma ConditionPressUnchecksAll(pressed: ConditionBox, box: ConditionBox)
    ensures ConditionPressValue(pressed) == Lower(ConditionTitle(pressed))
    ensures !ConditionChecked(ConditionPressValue(pressed), box)
  {
  }

  /** The Critical box is checked exactly for the patients the list colours as
      critical; a pressed value would be coloured stable. */
  lemma CriticalBoxMatchesListRow(p: Patient, pressed: ConditionBox)
    ensures ConditionChecked(InitialState(p).condition, CriticalBox)
        <==> PatientList.RowStyleOf(p) == PatientList.CriticalRow
    ensures PatientList.RowStyleOf(p.(condition := ConditionPressValue(pressed))) == PatientList.StableRow
  {
    ConditionPressUnchecksAll(pressed, CriticalBox);
  }

  /** `bloodTypes`: the choices of the blood-type picker. */
  const BloodTypes: seq<string> := ["O+", "O-", "A+", "A-", "B+", "B-", "AB+", "AB-"]

  datatype AboGroup = O | A | B | AB

  datatype RhFactor = Positive | Negative

  function BloodTypeName(group: AboGroup, rh: RhFactor): (name: string)
  {
    (match group case O => "O" case A => "A" case B => "B" case AB => "AB")
    + (if rh == Positive then "+" else "-")
  }

  /** The picker offers each ABO group with each Rh factor, once. */
  lemma BloodTypeChoices(group: AboGroup, rh: RhFactor)
    ensures |BloodTypes| == 8
    ensures BloodTypeName(group, rh) in BloodTypes
    ensures forall i, j :: 0 <= i < j < |BloodTypes| ==> BloodTypes[i] != BloodTypes[j]
  {
    var names := BloodTypes;
    assert names[0] == "O+" && names[1] == "O-" && names[2] == "A+" && names[3] == "A-";
    assert names[4] == "B+" && names[5] == "B-" && names[6] == "AB+" && names[7] == "AB-";
    match group
    case O => assert BloodTypeName(group, rh) == names[if rh == Positive then 0 else 1];
    case A => assert BloodTypeName(group, rh) == names[if rh == Positive then 2 else 3];
    case B => assert BloodTypeName(group, rh) == names[if rh == Positive then 4 else 5];
    case AB => assert BloodTypeName(group, rh) == names[if rh == Positive then 6 else 7];
  }

  /** What pressing Submit does: no patient data is saved, the screen goes back. */
  datatype SubmitEffect = SubmitEffect(saved: Option<Patient>, goesBack: bool)

  /** The screen's form state. */
  class PatientEditForm {
    var name: string
    var age: string
    var gender: string
    var condition: string
    var phone: string
    var email: Option<string>
    var address: Option<string>
    var emergencyContact: Option<string>
    var medical: string
    var allergy: string
    var bloodType: Option<string>

    function State(): EditState
      reads this
    {
      EditState(name, age, gender, condition, phone, email, address, emergencyContact, medical, allergy, bloodType)
    }

    constructor (patient: Patient)
      ensures State() == InitialState(patient)
    {
      name := patient.name;
      age := AgeText(patient.age);
      gender := patient.gender;
      condition := patient.condition;
      phone := patient.phone;
      email := patient.email;
      address := patient.address;
      emergencyContact := patient.emergencyContactPhone;
      medical := OrNotApplicable(patient.medical);
      allergy := OrNotApplicable(patient.allergy);
      bloodType := patient.bloodType;
    }

    /** `onPress` of a gender box. */
    method PressGender(box: GenderBox)
      modifies this
      ensures State() == old(State()).(gender := GenderPressValue(box))
      ensures forall b :: !GenderChecked(gender, b)
    {
      gender := GenderPressValue(box);
      forall b ensures !GenderChecked(gender, b) {
        GenderPressUnchecksAll(box, b);
      }
    }

    /** `onPress` of a condition box. */
    method PressCondition(box: ConditionBox)
      modifies this
      ensures State() == old(State()).(condition := ConditionPressValue(box))
      ensures forall b :: !ConditionChecked(condition, b)
    {
      condition := ConditionPressValue(box);
      forall b ensures !ConditionChecked(condition, b) {
        ConditionPressUnchecksAll(box, b);
      }
    }

    /** The blood-type picker's `onValueChange`. */
    method SelectBloodType(item: string)
      modifies this
      ensures State() == old(State()).(bloodType := Some(item))
    {
      bloodType := Some(item);
    }

    /** `createNewPatient`: saves nothing and navigates back. */
    method SubmitPressed() returns (effect: SubmitEffect)
      ensures effect.saved == None && effect.goesBack
    {
      effect := SubmitEffect(None, true);
    }
  }
}
