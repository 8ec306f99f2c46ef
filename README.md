# Patient-management screens: form logic, search and date formatting

This project models the logic inside the mobile client of a hospital
patient-management demo (a React Native app). The app's screens are mostly
network calls and rendering; what they compute is modelled here and proved:

- **Add measurement** (`MeasurementEntry`): the form state (`test`, `value1`,
  `value2`, `date`) as a class whose picker resets both values; the input
  fields each test shows; the submit guard that refuses incomplete input; the
  encoding of the entered numbers into one value string with the test's unit;
  the measurement record that is posted; and what happens after the POST
  (alert and navigation to the patient detail screen).
- **Patient list** (`PatientList`): the `list` state as a class; the search
  that keeps exactly the patients whose name equals the term, and only when
  there is at least one; the critical/stable row colouring.
- **Patient edit** (`PatientEdit`): the form's initial values taken from the
  patient (age as text, "N/A" defaults), the gender and condition check boxes
  (checked on capitalised values, pressed to lowercase ones), the blood-type
  choices, and the Submit button that saves nothing.
- **Patient detail** (`DateFormat`): `formatDate`, building `YYYY-MM-DD` from
  the year, the zero-based month index and the day.

Helper modules: `Wrappers` (Option), `Decimal` (JavaScript's `String(n)` for
integers and a reader for it), `Strings` (`padStart` as the date
formatting uses it, and `split` and ASCII `toLowerCase` for stating properties), `Patients` (the patient record).

The repository has no threshold or escalation logic for measurements: the
server (`API/server.js`) has one read-only route, `GET /patients`. Several
client test files expect behaviour the screens do not have (sorting and
substring search on the list, lowercase gender values checking a box, a PUT
on edit); the model follows the screens.

Proved properties, in short: submission is refused exactly when the test, the
first value, or (for blood pressure) the second value is empty; each test's
value is the first number (and for blood pressure `/` and the second) followed
by a space and the unit, and the unit is the one captioned beside the inputs;
the encoded value reads back into the entered numbers; a search never adds or
reorders patients, keeps each matching patient with its multiplicity, is
idempotent, and no sequence of searches restores a removed patient; after any
gender or condition press no box of that group is checked; the date has shape
`YYYY-MM-DD` for four-digit years and splits back into year, month and day.

## Model

| member | source | states |
|---|---|---|
| MeasurementEntry.InputFields | Screens/AddMeasurementPage.js:15-58 | Blood Pressure shows two inputs (first edits value1, second value2), each other known test one input editing value1, any other test none |
| MeasurementEntry.UnitCaptionMatchesSuffix | Screens/AddMeasurementPage.js:23-77 | every input's caption is "(Unit: u)" and the encoded value of that test ends in " u": mmHg, breaths/min, bpm, % agree between the two tables |
| MeasurementEntry.MissingInput | Screens/AddMeasurementPage.js:63 | outside Blood Pressure the guard fires exactly on no test or an empty value1; when it does not fire, test and value1 are non-empty |
| MeasurementEntry.FormatValue | Screens/AddMeasurementPage.js:68-78 | the value starts with value1, and equals value1 exactly when the test is none of the four known ones |
| MeasurementEntry.BuildMeasurement | Screens/AddMeasurementPage.js:63-85 | no record exactly when input is missing; otherwise the record carries the route's patient id, the selected test as type, the encoded value and the chosen date |
| MeasurementEntry.Submit | Screens/AddMeasurementPage.js:61-106 | refused with the fill-in alert exactly when input is missing; otherwise the built record is posted and the screen navigates to Patient Detail with the same patient id and refresh true exactly when the response is ok |
| MeasurementEntry.RefusalCases | Screens/AddMeasurementPage.js:63-66 | refusal iff no test, empty value1, or Blood Pressure with empty value2; an empty value2 never blocks the other tests |
| MeasurementEntry.FormatValueByTest | Screens/AddMeasurementPage.js:68-78 | the value is value1/value2 mmHg, value1 breaths/min, value1 bpm, value1 % by test, value1 itself for any other test, and value2 matters only for Blood Pressure |
| MeasurementEntry.ReadFormattedValue | Screens/AddMeasurementPage.js:68-78 | for numbers without spaces or slashes, splitting the encoded value on the space and the slash and checking the captioned unit returns exactly the entered numbers |
| MeasurementEntry.ReadWithOtherTest | Screens/AddMeasurementPage.js:68-78 | a value encoded for one known test does not read as a value of another: the four units differ |
| MeasurementEntry.MeasurementForm.constructor | Screens/AddMeasurementPage.js:7-13 | the form starts with no test, empty values, the current date and the route's patient id |
| MeasurementEntry.MeasurementForm.SelectTest | Screens/AddMeasurementPage.js:126-130 | picking one of the picker's five values stores it and resets value1 and value2 to "", keeping the form valid |
| MeasurementEntry.MeasurementForm.EnterText | Screens/AddMeasurementPage.js:20-29 | typing into an input shown for the current test changes only the value that input edits; a value holds text only while an input for it is shown |
| MeasurementEntry.MeasurementForm.PickDate | Screens/AddMeasurementPage.js:116-121 | the date changes only when the picker returns a date |
| MeasurementEntry.MeasurementForm.SubmitPressed | Screens/AddMeasurementPage.js:61-106 | the if/else chain on the reassigned value computes exactly Submit of the current form |
| PatientList.Matching | Screens/PatientListPage.js:318-320 | the matches are never more than the list, all carry the searched name, and a patient is among them iff it is in the list with that exact name |
| PatientList.MatchingIsSubsequence | Screens/PatientListPage.js:318-320 | the matches keep the list's relative order: they form a subsequence of it |
| PatientList.MatchingMultiplicity | Screens/PatientListPage.js:318-320 | each patient named as the term occurs among the matches as often as in the list; others not at all |
| PatientList.Filtered | Screens/PatientListPage.js:312-326 | the list after a search is never longer, is unchanged for "", and when it changes it is non-empty and holds only patients with the searched name |
| PatientList.FilteredCases | Screens/PatientListPage.js:312-326 | an empty term leaves the list; a term some patient has replaces it by the matches; a term no patient has leaves it |
| PatientList.FilteredShrinks | Screens/PatientListPage.js:312-326 | the list after a search is a subsequence of the list before, so never longer |
| PatientList.FilteredIdempotent | Screens/PatientListPage.js:318-324 | searching the same term twice gives the same list as searching once |
| PatientList.AfterSearchesShrinks | Screens/PatientListPage.js:349-353 | after any run of searches, empty terms included, the list is a subsequence of the original: nothing removed comes back |
| PatientList.RowStyleOf | Screens/PatientListPage.js:328-330 | a row is critical iff the condition is exactly "Critical"; the lowercase "critical" gives a stable row |
| PatientList.PatientListScreen.constructor | Screens/PatientListPage.js:6-7 | the screen starts with an empty search term and the seed list |
| PatientList.PatientListScreen.FilterPatients | Screens/PatientListPage.js:312-326 | the list becomes the filtered list, the search term is untouched, and the old list is returned only for the empty term |
| PatientList.PatientListScreen.ChangeTerm | Screens/PatientListPage.js:349-353 | the search term becomes the new text and the list is filtered by it |
| PatientEdit.InitialState | Screens/PatientEditPage.js:10-20 | name, gender, condition, phone, email, address and blood type are copied, the emergency contact comes from emergencyContactPhone, the age is shown by AgeText ("" exactly when missing or 0) and medical/allergy by OrNotApplicable ("N/A" exactly when missing, empty or "N/A") |
| PatientEdit.AgeText | Screens/PatientEditPage.js:11 | the age text is empty exactly when the age is missing or 0 |
| PatientEdit.OrNotApplicable | Screens/PatientEditPage.js:18-19 | the shown text is never empty; it is "N/A" exactly for a missing, empty or "N/A" value, otherwise the value itself |
| PatientEdit.AgeFieldReadsBack | Screens/PatientEditPage.js:11 | a non-zero age is shown as a numeral that reads back as the age |
| PatientEdit.CheckedBoxesExclusive | Screens/PatientEditPage.js:49-85 | at most one box per group is checked; Male, Female and Other are checked exactly for "Male", "Female" and "Other", Critical and Stable exactly for "Critical" and "Stable" |
| PatientEdit.GenderChecked | Screens/PatientEditPage.js:51-63 | only a value starting with a capital letter checks a gender box |
| PatientEdit.GenderPressValue | Screens/PatientEditPage.js:52-64 | a press stores the lowercase of the box's title |
| PatientEdit.ConditionChecked | Screens/PatientEditPage.js:76-82 | only a value starting with a capital letter checks a condition box |
| PatientEdit.ConditionPressValue | Screens/PatientEditPage.js:77-83 | a press stores the lowercase of the box's title |
| PatientEdit.GenderPressUnchecksAll | Screens/PatientEditPage.js:49-66 | a gender press stores the lowercase of the box's title, which checks no gender box |
| PatientEdit.ConditionPressUnchecksAll | Screens/PatientEditPage.js:74-85 | a condition press stores the lowercase of the box's title, which checks neither condition box |
| PatientEdit.CriticalBoxMatchesListRow | Screens/PatientEditPage.js:76-77 | the Critical box starts checked exactly for patients the list colours critical; a pressed condition value would be coloured stable |
| PatientEdit.BloodTypeChoices | Screens/PatientEditPage.js:22 | the picker's list `BloodTypes` has eight distinct values, every ABO group with every Rh sign |
| PatientEdit.PatientEditForm.constructor | Screens/PatientEditPage.js:10-20 | the form starts in the initial state of the patient |
| PatientEdit.PatientEditForm.PressGender | Screens/PatientEditPage.js:49-66 | only gender changes, to the lowercase word, and afterwards no gender box is checked |
| PatientEdit.PatientEditForm.PressCondition | Screens/PatientEditPage.js:74-85 | only condition changes, to the lowercase word, and afterwards no condition box is checked |
| PatientEdit.PatientEditForm.SelectBloodType | Screens/PatientEditPage.js:123 | only the blood type changes, to the picked value |
| PatientEdit.PatientEditForm.SubmitPressed | Screens/PatientEditPage.js:24-29 | Submit saves no patient data and navigates back |
| Strings.PadStart | Screens/PatientDetailPage.js:67-68 | padStart reaches the width, keeps the text as suffix, pads with the fill only, and never truncates |
| Decimal.IntToString | Screens/PatientDetailPage.js:67-71 | String(n) of an integer is non-empty, all digits exactly for non-negative n, and starts with '-' exactly for negative n |
| DateFormat.TwoWide | Screens/PatientDetailPage.js:67-68 | the padded text is two characters or the numeral's own length, whichever is larger, and ends with the numeral |
| DateFormat.FormatDate | Screens/PatientDetailPage.js:62-72 | the result starts with the year and a dash and has at least six more characters |
| DateFormat.TwoWideOfNat | Screens/PatientDetailPage.js:67-68 | one digit gains a leading '0', two or more digits are unchanged, and the padded text reads back as the number |
| DateFormat.FormatDateShape | Screens/PatientDetailPage.js:62-72 | for a year in 1000..9999, month index 0..11 and day 1..31 the result is ten characters, '-' at 4 and 7, digits elsewhere |
| DateFormat.FormatDateRoundTrip | Screens/PatientDetailPage.js:62-72 | for a non-negative year (and month index at least -1, day at least 0), splitting the result on '-' gives three parts reading as the year, the month index plus one and the day |
| DateFormat.NegativeYearSplitsInFour | Screens/PatientDetailPage.js:62-72 | for a negative year the result splits on '-' into four parts: an empty one, the year's digits, the padded month and the padded day, so it does not read back as its parts |
| Decimal.ParseIntToString | Screens/PatientEditPage.js:11 | the decimal text of an integer reads back as that integer |

## Left out

- DateFormat.FormatDateRoundTrip: holds only for a non-negative year; the date of a negative year does not split back into its parts (year -5 gives "-5-01-01", which splits to "", "5", "01", "01"), as DateFormat.NegativeYearSplitsInFour states.
- The POST of a measurement, its URL, the JSON body and `Alert`/`alert` display: the response is a parameter (ok, not ok with a message, or a thrown error) and alerts are their texts.
- `date.toISOString()` and the date and time pickers' modes: the chosen timestamp is an opaque string.
- `new Date(dateString)`, `getFullYear`, `getMonth`, `getDate` and time zones: `formatDate` is modelled from the three integers; an invalid date (`NaN` parts) is not modelled.
- Non-integer and non-finite numbers: `String(n)` and `toString()` are modelled for integers only, which covers ages and date parts.
- Decimal.IntToString: matches `String(n)` only for integers of magnitude below 10^21; JavaScript prints larger ones in exponent form ("1e+21").
- React's asynchronous state updates: each setter takes effect at once.
- The `useEffect` fetches of the detail screen, the navigation calls other than their targets, styles and JSX rendering.
- The edit screen's plain text setters (`setName`, `setAge` and the other `onChangeText` handlers): each only stores the typed text.
- The hard-coded seed patients of the list screen: the list starts from any given sequence; a patient's clinical data is not part of the record.
- The server (one read-only route) and the database schemas: they hold no logic of the screens.
