/**
 * The add-measurement screen: the form state (selected test and the two
 * entered numbers), the input fields shown for each test, and what pressing
 * "Submit Measurement" does — refuse incomplete input, or encode the numbers
 * into one value string with the test's unit, build the measurement record
 * and post it. The POST itself is not modelled; its outcome is an input.
 */
module MeasurementEntry {
  import opened Wrappers
  import opened Strings

  const BloodPressure := "Blood Pressure"
  const RespiratoryRate := "Respiratory Rate"
  const HeartBeatRate := "HeartBeat Rate"
  const BloodOxygenLevel := "Blood Oxygen Level"

  predicate IsKnownTest(test: string)
  {
    test == BloodPressure || test == RespiratoryRate || test == HeartBeatRate || test == BloodOxygenLevel
  }

  /** Which of the two form values a text input edits. */
  datatype ValueSlot = Value1 | Value2

  /** One numeric text input with its label, placeholder and unit caption. */
  datatype InputField = InputField(title: string, placeholder: string, unitLabel: string, edits: ValueSlot)

  /** `renderInputFields`: the inputs shown for the selected test. */
  function InputFields(test: string): (fields: seq<InputField>)
    ensures |fields| == (if test == BloodPressure then 2 else if IsKnownTest(test) then 1 else 0)
    ensures forall i :: 0 <= i < |fields| ==> fields[i].edits == (if i == 0 then Value1 else Value2)
  {
    if test == BloodPressure then
      [ InputField("Enter Sys Value:", "Enter Sys Value", "(Unit: mmHg)", Value1),
        InputField("Enter Dia Value:", "Enter Dia Value", "(Unit: mmHg)", Value2) ]
    else if test == RespiratoryRate then
      [InputField("Enter Value:", "Enter Value", "(Unit: breaths/min)", Value1)]
    else if test == HeartBeatRate then
      [InputField("Enter Value:", "Enter Value", "(Unit: bpm)", Value1)]
    else if test == BloodOxygenLevel then
      [InputField("Enter Value:", "Enter Value", "(Unit: %)", Value1)]
    else
      []
  }

  /** The unit named in a caption of the form `(Unit: u)`. */
  function CaptionUnit(caption: string): (unit: string)
  {
    if |caption| >= 8 && caption[..7] == "(Unit: " && caption[|caption| - 1] == ')'
    then caption[7..|caption| - 1]
    else ""
  }

  /** The guard of `handleSubmit`: a field the selected test needs is empty.
      Only a blood pressure needs its second value. */
  function MissingInput(test: string, value1: string, value2: string): (missing: bool)
    ensures test != BloodPressure ==> (missing <==> test == "" || value1 == "")
    ensures !missing ==> test != "" && value1 != ""
  {
    test == "" || value1 == "" || (test == BloodPressure && value2 == "")
  }

  /** The value string `handleSubmit` sends: the numbers and the test's unit. */
  function FormatValue(test: string, value1: string, value2: string): (value: string)
    ensures |value| >= |value1| && value[..|value1|] == value1
    ensures value == value1 <==> !IsKnownTest(test)
  {
    if test == BloodPressure then value1 + "/" + value2 + " mmHg"
    else if test == RespiratoryRate then value1 + " breaths/min"
    else if test == HeartBeatRate then value1 + " bpm"
    else if test == BloodOxygenLevel then value1 + " %"
    else value1
  }

  /** A clinical measurement as posted to the server. */
  datatype Measurement = Measurement(patientId: string, kind: string, value: string, dateTime: string)

  /** What the POST came back with: `response.ok`, a non-ok response with an
      error message, or a thrown error (no response at all). */
  datatype Response = Accepted | Rejected(message: string) | NetworkError

  /** `navigation.navigate('Patient Detail', { patientId, refresh })`. */
  datatype Navigation = PatientDetail(patientId: string, refresh: bool)

  /** The visible result of one press of "Submit Measurement". */
  datatype SubmitOutcome =
    | Refused(alert: string)
    | Posted(record: Measurement, alert: string, navigation: Option<Navigation>)

  /** The record `handleSubmit` builds, or None when it returns early. */
  function BuildMeasurement(patientId: string, test: string, value1: string, value2: string, dateTime: string)
    : (r: Option<Measurement>)
    ensures r.None? <==> MissingInput(test, value1, value2)
    ensures r.Some? ==> r.value.patientId == patientId && r.value.kind == test && r.value.dateTime == dateTime
    ensures r.Some? ==> r.value.value == FormatValue(test, value1, value2)
  {
    if MissingInput(test, value1, value2) then None
    else Some(Measurement(patientId, test, FormatValue(test, value1, value2), dateTime))
  }

  /** `handleSubmit` with the POST's outcome given. */
  function Submit(patientId: string, test: string, value1: string, value2: string, dateTime: string, response: Response)
    : (r: SubmitOutcome)
    ensures r.Refused? <==> MissingInput(test, value1, value2)
    ensures r.Refused? ==> r.alert == "Please fill in all required fields."
    ensures r.Posted? ==> BuildMeasurement(patientId, test, value1, value2, dateTime) == Some(r.record)
    ensures r.Posted? ==> (r.navigation.Some? <==> response == Accepted)
    ensures r.Posted? && r.navigation.Some? ==> r.navigation.value == PatientDetail(patientId, true)
  {
    match BuildMeasurement(patientId, test, value1, value2, dateTime)
    case None => Refused("Please fill in all required fields.")
    case Some(record) =>
      match response
      case Accepted => Posted(record, "Measurement added successfully.", Some(PatientDetail(patientId, true)))
      case Rejected(message) => Posted(record, "Error: " + message, None)
      case NetworkError => Posted(record, "Failed to add measurement. Please try again.", None)
  }

  /** Reads a value string back into the two entered numbers, using the unit
      shown beside the test's inputs; the second number is "" for one-input tests. */
  function ReadValue(test: string, value: string): (read: Option<(string, string)>)
    ensures read.Some? ==> IsKnownTest(test)
    ensures read.Some? && test != BloodPressure ==> read.value.1 == ""
  {
    var fields := InputFields(test);
    var parts := Split(value, ' ');
    if fields == [] || |parts| != 2 || parts[1] != CaptionUnit(fields[0].unitLabel) then None
    else if |fields| == 1 then Some((parts[0], ""))
    else
      var numbers := Split(parts[0], '/');
      if |numbers| == 2 then Some((numbers[0], numbers[1])) else None
  }

  /** Refusal happens exactly when no test is chosen, the first value is empty,
      or a blood pressure lacks its second value; for the other tests an empty
      second value never blocks submission. */
  lemma RefusalCases(patientId: string, test: string, value1: string, value2: string,
                     dateTime: string, response: Response)
    ensures Submit(patientId, test, value1, value2, dateTime, response).Refused?
        <==> test == "" || value1 == "" || (test == BloodPressure && value2 == "")
    ensures test != BloodPressure && test != "" && value1 != "" ==>
              !Submit(patientId, test, value1, value2, dateTime, response).Refused?
  {
  }

  /** The encoding for each test, and `value1` unchanged for any other test. */
  lemma FormatValueByTest(test: string, value1: string, value2: string)
    ensures test == BloodPressure ==> FormatValue(test, value1, value2) == value1 + "/" + value2 + " mmHg"
    ensures test == RespiratoryRate ==> FormatValue(test, value1, value2) == value1 + " breaths/min"
    ensures test == HeartBeatRate ==> FormatValue(test, value1, value2) == value1 + " bpm"
    ensures test == BloodOxygenLevel ==> FormatValue(test, value1, value2) == value1 + " %"
    ensures !IsKnownTest(test) ==> FormatValue(test, value1, value2) == value1
    ensures test != BloodPressure ==> FormatValue(test, value1, value2) == FormatValue(test, value1, "")
  {
  }

  /** The unit of each known test: the reference both tables are checked against. */
  function UnitOf(test: string): (unit: string)
  {
    if test == BloodPressure then "mmHg"
    else if test == RespiratoryRate then "breaths/min"
    else if test == HeartBeatRate then "bpm"
    else if test == BloodOxygenLevel then "%"
    else ""
  }

  /** The entered numbers as they appear in the value, before the unit. */
  function NumbersOf(test: string, value1: string, value2: string): (numbers: string)
  {
    if test == BloodPressure then value1 + ['/'] + value2 else value1
  }

  lemma CaptionUnitOf(unit: string)
    ensures CaptionUnit("(Unit: " + unit + ")") == unit
  {
    var caption := "(Unit: " + unit + ")";
    assert caption[..7] == "(Unit: ";
    assert caption[7..|caption| - 1] == unit;
  }

  /** Every input caption of a test names that test's unit. */
  lemma CaptionsNameUnit(test: string, i: nat)
    requires i < |InputFields(test)|
    ensures InputFields(test)[i].unitLabel == "(Unit: " + UnitOf(test) + ")"
    ensures UnitOf(test) != "" && ' ' !in UnitOf(test)
  {
    if test == BloodPressure {
      assert "(Unit: mmHg)" == "(Unit: " + "mmHg" + ")";
    } else if test == RespiratoryRate {
      assert "(Unit: breaths/min)" == "(Unit: " + "breaths/min" + ")";
    } else if test == HeartBeatRate {
      assert "(Unit: bpm)" == "(Unit: " + "bpm" + ")";
    } else {
      assert "(Unit: %)" == "(Unit: " + "%" + ")";
    }
  }

  /** Each known test's value is its numbers, a space and its unit. */
  lemma ValueEndsWithUnit(test: string, value1: string, value2: string)
    requires IsKnownTest(test)
    ensures FormatValue(test, value1, value2) == NumbersOf(test, value1, value2) + [' '] + UnitOf(test)
  {
    if test == BloodPressure {
      assert FormatValue(test, value1, value2) == (value1 + ['/'] + value2) + [' '] + "mmHg";
    } else if test == RespiratoryRate {
      assert FormatValue(test, value1, value2) == value1 + [' '] + "breaths/min";
    } else if test == HeartBeatRate {
      assert FormatValue(test, value1, value2) == value1 + [' '] + "bpm";
    } else {
      assert FormatValue(test, value1, value2) == value1 + [' '] + "%";
    }
  }

  /** The unit appended to the value is the unit shown beside every input of
      that test: the value ends in a space and the caption's unit. */
  lemma UnitCaptionMatchesSuffix(test: string, value1: string, value2: string, i: nat)
    requires i < |InputFields(test)|
    ensures var unit := CaptionUnit(InputFields(test)[i].unitLabel);
      var v := FormatValue(test, value1, value2);
      && unit != ""
      && InputFields(test)[i].unitLabel == "(Unit: " + unit + ")"
      && |v| > |unit| && v[|v| - |unit| - 1..] == " " + unit
  {
    var unit := UnitOf(test);
    CaptionsNameUnit(test, i);
    CaptionUnitOf(unit);
    ValueEndsWithUnit(test, value1, value2);
    var v := FormatValue(test, value1, value2);
    assert v[|v| - |unit| - 1..] == [' '] + unit;
  }

  /** For numbers without spaces or slashes, reading the encoded value gives back
      what was entered: the encoding loses nothing. */
  lemma ReadFormattedValue(test: string, value1: string, value2: string)
    requires IsKnownTest(test)
    requires ' ' !in value1 && '/' !in value1 && ' ' !in value2 && '/' !in value2
    ensures ReadValue(test, FormatValue(test, value1, value2))
         == Some((value1, if test == BloodPressure then value2 else ""))
  {
    var unit := UnitOf(test);
    var numbers := NumbersOf(test, value1, value2);
    CaptionsNameUnit(test, 0);
    CaptionUnitOf(unit);
    ValueEndsWithUnit(test, value1, value2);
    assert ' ' !in numbers;
    SplitTwo(numbers, unit, ' ');
    if test == BloodPressure {
      SplitTwo(value1, value2, '/');
    }
  }

  /** A value encoded for one test does not read as a value of another test:
      the four units differ. */
  lemma ReadWithOtherTest(test: string, other: string, value1: string, value2: string)
    requires IsKnownTest(test) && IsKnownTest(other) && test != other
    requires ' ' !in value1 && '/' !in value1 && ' ' !in value2 && '/' !in value2
    ensures ReadValue(other, FormatValue(test, value1, value2)) == None
  {
    var unit := UnitOf(test);
    var numbers := NumbersOf(test, value1, value2);
    CaptionsNameUnit(test, 0);
    CaptionsNameUnit(other, 0);
    CaptionUnitOf(UnitOf(other));
    ValueEndsWithUnit(test, value1, value2);
    assert ' ' !in numbers;
    SplitTwo(numbers, unit, ' ');
    assert UnitOf(other) != unit;
  }

  lemma SplitTwo(a: string, b: string, sep: char)
    requires sep !in a && sep !in b
    ensures Split(a + [sep] + b, sep) == [a, b]
  {
    SplitJoin(a, sep, b);
  }

  /** The values the test picker offers: no test, or one of the four tests. */
  const PickerValues: seq<string> := ["", BloodPressure, RespiratoryRate, HeartBeatRate, BloodOxygenLevel]

  /** A value can only hold text when an input on screen edits it. */
  predicate ShownValues(test: string, value1: string, value2: string)
  {
    && (value1 != "" ==> exists i :: 0 <= i < |InputFields(test)| && InputFields(test)[i].edits == Value1)
    && (value2 != "" ==> exists i :: 0 <= i < |InputFields(test)| && InputFields(test)[i].edits == Value2)
  }

  /**
   * The form's state. `patientId` comes from the route; `date` is the chosen
   * timestamp, kept as the text `toISOString` gives it.
   */
  class MeasurementForm {
    const patientId: string
    var test: string
    var value1: string
    var value2: string
    var date: string

    /** The selected test is a picker value, and only shown inputs hold text:
        no second value outside Blood Pressure, no value without a test. */
    predicate Valid()
      reads this
    {
      test in PickerValues && ShownValues(test, value1, value2)
    }

    constructor (patientId: string, now: string)
      ensures Valid() && this.patientId == patientId
      ensures test == "" && value1 == "" && value2 == "" && date == now
    {
      this.patientId := patientId;
      test, value1, value2, date := "", "", "", now;
    }

    /** Picker `onValueChange`: select the test and clear both values. */
    method SelectTest(item: string)
      requires item in PickerValues
      modifies this
      ensures Valid()
      ensures test == item && value1 == "" && value2 == "" && date == old(date)
    {
      test := item;
      value1 := "";
      value2 := "";
    }

    /** `onChangeText` of the input that edits `slot`. */
    method EnterText(slot: ValueSlot, text: string)
      requires Valid()
      requires exists i :: 0 <= i < |InputFields(test)| && InputFields(test)[i].edits == slot
      modifies this
      ensures Valid()
      ensures test == old(test) && date == old(date)
      ensures value1 == (if slot == Value1 then text else old(value1))
      ensures value2 == (if slot == Value2 then text else old(value2))
    {
      if slot == Value1 { value1 := text; } else { value2 := text; }
    }

    /** The date picker's `onChange`: keep the old date when none was selected. */
    method PickDate(selected: Option<string>)
      requires Valid()
      modifies this
      ensures Valid()
      ensures test == old(test) && value1 == old(value1) && value2 == old(value2)
      ensures date == (if selected.Some? then selected.value else old(date))
    {
      if selected.Some? { date := selected.value; }
    }

    /** Pressing "Submit Measurement"; the form itself is not changed. */
    method SubmitPressed(response: Response) returns (outcome: SubmitOutcome)
      ensures outcome == Submit(patientId, test, value1, value2, date, response)
    {
      if test == "" || value1 == "" || (test == BloodPressure && value2 == "") {
        return Refused("Please fill in all required fields.");
      }
      var formatted := value1;
      if test == BloodPressure {
        formatted := value1 + "/" + value2 + " mmHg";
      } else if test == RespiratoryRate {
        formatted := value1 + " breaths/min";
      } else if test == HeartBeatRate {
        formatted := value1 + " bpm";
      } else if test == BloodOxygenLevel {
        formatted := value1 + " %";
      }
      var record := Measurement(patientId, test, formatted, date);
      match response {
        case Accepted =>
          outcome := Posted(record, "Measurement added successfully.", Some(PatientDetail(patientId, true)));
        case Rejected(message) =>
          outcome := Posted(record, "Error: " + message, None);
        case NetworkError =>
          outcome := Posted(record, "Failed to add measurement. Please try again.", None);
      }
    }
  }
}
