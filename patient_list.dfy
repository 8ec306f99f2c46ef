/**
 * The patient list screen: the `list` state, the search that narrows it to
 * the patients with exactly the searched name, and the row colouring.
 */
module PatientList {
  import opened Wrappers
  import opened Patients

  /** `a` is `b` with some elements removed and the rest in their order. */
  predicate IsSubsequence(a: seq<Patient>, b: seq<Patient>)
    decreases |b|
  {
    a == [] || (b != [] && if a[0] == b[0] then IsSubsequence(a[1..], b[1..]) else IsSubsequence(a, b[1..]))
  }

  /** `list.filter(patient => patient.name == nameToSearch)`. */
  function Matching(patients: seq<Patient>, term: string): (r: seq<Patient>)
    ensures |r| <= |patients|
    ensures forall k :: 0 <= k < |r| ==> r[k].name == term
    ensures forall p :: p in r <==> p in patients && p.name == term
    decreases |patients|
  {
    if patients == [] then []
    else if patients[0].name == term then [patients[0]] + Matching(patients[1..], term)
    else Matching(patients[1..], term)
  }

  /** The `list` state after `filterPatients(term)`: unchanged for an empty term
      or when nobody matches, otherwise exactly the matches. */
  function Filtered(patients: seq<Patient>, term: string): (list: seq<Patient>)
    ensures |list| <= |patients|
    ensures term == "" ==> list == patients
    ensures list != patients ==> list != [] && forall k :: 0 <= k < |list| ==> list[k].name == term
  {
    if term == "" then patients
    else
      var matches := Matching(patients, term);
      if |matches| > 0 then matches else patients
  }

  /** The two cases of a non-empty search. */
  lemma FilteredCases(patients: seq<Patient>, term: string)
    ensures term == "" ==> Filtered(patients, term) == patients
    ensures term != "" && (exists k :: 0 <= k < |patients| && patients[k].name == term) ==>
              Filtered(patients, term) == Matching(patients, term)
    ensures (forall k :: 0 <= k < |patients| ==> patients[k].name != term) ==>
              Filtered(patients, term) == patients
  {
  }

  lemma {:induction false} SubsequenceReflexive(s: seq<Patient>)
    ensures IsSubsequence(s, s)
    decreases |s|
  {
    if s != [] { SubsequenceReflexive(s[1..]); }
  }

  lemma {:induction false} SubsequenceTail(a: seq<Patient>, b: seq<Patient>)
    requires a != [] && IsSubsequence(a, b)
    ensures IsSubsequence(a[1..], b)
    decreases |b|, 0
  {
    if a[0] != b[0] {
      SubsequenceTail(a, b[1..]);
      SubsequenceSkip(a[1..], b[1..], b[0]);
    } else {
      SubsequenceSkip(a[1..], b[1..], b[0]);
    }
  }

  lemma {:induction false} SubsequenceSkip(a: seq<Patient>, b: seq<Patient>, x: Patient)
    requires IsSubsequence(a, b)
    ensures IsSubsequence(a, [x] + b)
    decreases |b|, 1
  {
    if a != [] && a[0] == x {
      assert ([x] + b)[1..] == b;
      SubsequenceTail(a, b);
    }
    assert ([x] + b)[1..] == b;
  }

  lemma {:induction false} SubsequenceTransitive(a: seq<Patient>, b: seq<Patient>, c: seq<Patient>)
    requires IsSubsequence(a, b) && IsSubsequence(b, c)
    ensures IsSubsequence(a, c)
    decreases |c|
  {
    if a != [] {
      assert b != [] && c != [];
      if b[0] == c[0] {
        if a[0] == b[0] {
          SubsequenceTransitive(a[1..], b[1..], c[1..]);
        } else {
          SubsequenceTransitive(a, b[1..], c[1..]);
        }
      } else {
        SubsequenceTransitive(a, b, c[1..]);
        if a[0] == c[0] { SubsequenceTail(a, c[1..]); }
      }
    }
  }

  /** The matches keep the list's order: they are a subsequence of it. */
  lemma {:induction false} MatchingIsSubsequence(patients: seq<Patient>, term: string)
    ensures IsSubsequence(Matching(patients, term), patients)
    decreases |patients|
  {
    if patients != [] {
      var rest := Matching(patients[1..], term);
      MatchingIsSubsequence(patients[1..], term);
      if patients[0].name == term {
        assert ([patients[0]] + rest)[1..] == rest;
      } else {
        SubsequenceSkip(rest, patients[1..], patients[0]);
        assert [patients[0]] + patients[1..] == patients;
      }
    }
  }

  /** Every patient named `term` is kept as often as it occurs; nobody else is. */
  lemma {:induction false} MatchingMultiplicity(patients: seq<Patient>, term: string, p: Patient)
    ensures multiset(Matching(patients, term))[p] == if p.name == term then multiset(patients)[p] else 0
    decreases |patients|
  {
    if patients != [] {
      MatchingMultiplicity(patients[1..], term, p);
      assert patients == [patients[0]] + patients[1..];
    }
  }

  /** A list whose patients all carry the name is its own match list. */
  lemma {:induction false} MatchingAllNamed(patients: seq<Patient>, term: string)
    requires forall k :: 0 <= k < |patients| ==> patients[k].name == term
    ensures Matching(patients, term) == patients
    decreases |patients|
  {
    if patients != [] {
      MatchingAllNamed(patients[1..], term);
    }
  }

  /** Filtering never adds a patient and never reorders: the new list is a
      subsequence of the old one, so it is never longer. */
  lemma FilteredShrinks(patients: seq<Patient>, term: string)
    ensures IsSubsequence(Filtered(patients, term), patients)
    ensures |Filtered(patients, term)| <= |patients|
  {
    if Filtered(patients, term) == patients {
      SubsequenceReflexive(patients);
    } else {
      MatchingIsSubsequence(patients, term);
    }
  }

  /** Searching the same name twice is the same as searching it once. */
  lemma FilteredIdempotent(patients: seq<Patient>, term: string)
    ensures Filtered(Filtered(patients, term), term) == Filtered(patients, term)
  {
    var once := Filtered(patients, term);
    if term != "" && once != patients {
      MatchingAllNamed(once, term);
    }
  }

  /** The list after a run of searches, one per keystroke. */
  function AfterSearches(patients: seq<Patient>, terms: seq<string>): (shown: seq<Patient>)
    decreases |terms|
  {
    if terms == [] then patients else AfterSearches(Filtered(patients, terms[0]), terms[1..])
  }

  /** No search, the empty one included, brings back a removed patient. */
  lemma {:induction false} AfterSearchesShrinks(patients: seq<Patient>, terms: seq<string>)
    ensures IsSubsequence(AfterSearches(patients, terms), patients)
    decreases |terms|
  {
    if terms == [] {
      SubsequenceReflexive(patients);
    } else {
      var next := Filtered(patients, terms[0]);
      FilteredShrinks(patients, terms[0]);
      AfterSearchesShrinks(next, terms[1..]);
      SubsequenceTransitive(AfterSearches(patients, terms), next, patients);
    }
  }

  /** Row colours of `renderItem`. */
  datatype RowStyle = CriticalRow | StableRow

  /** Only the exact string "Critical" gives a critical row; the lowercase
      "critical" the edit screen stores gives a stable one. */
  function RowStyleOf(p: Patient): (style: RowStyle)
    ensures style == CriticalRow <==> p.condition == "Critical"
    ensures p.condition == "critical" ==> style == StableRow
  {
    if p.condition == "Critical" then CriticalRow else StableRow
  }

  /** The screen's state: the search text and the displayed list. */
  class PatientListScreen {
    var searchTerm: string
    var list: seq<Patient>

    constructor (seed: seq<Patient>)
      ensures searchTerm == "" && list == seed
    {
      searchTerm := "";
      list := seed;
    }

    /** `filterPatients`: returns the list for an empty term (and nothing
        otherwise) and replaces it by the matches when there are some. */
    method FilterPatients(term: string) returns (shown: Option<seq<Patient>>)
      modifies this
      ensures list == Filtered(old(list), term) && searchTerm == old(searchTerm)
      ensures shown == if term == "" then Some(old(list)) else None
    {
      if term == "" {
        return Some(list);
      }
      var resultList := Matching(list, term);
      if |resultList| > 0 {
        list := resultList;
      }
      shown := None;
    }

    /** The search bar's `onTermChange`. */
    method ChangeTerm(newTerm: string)
      modifies this
      ensures searchTerm == newTerm && list == Filtered(old(list), newTerm)
    {
      searchTerm := newTerm;
      var _ := FilterPatients(newTerm);
    }
  }
}
