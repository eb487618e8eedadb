/** The patient list (PatientRecords.tsx): the name search, the conditions cell and the
    result count. */
module PatientRecords {
  import opened Text
  import opened Seqs

  datatype Patient = Patient(
    id: nat, name: string, age: nat, bloodType: string, lastVisit: string, status: string,
    conditions: seq<string>)

  function NameMatches(search: string): Patient -> bool
  {
    (p: Patient) => MatchesSearch(p.name, search)
  }

  /** `filteredPatients`: the patients whose name contains the search term, ignoring case,
      in list order. The id is not searched, whatever the placeholder says. */
  function FilteredPatients(patients: seq<Patient>, search: string): (r: seq<Patient>)
    ensures forall p :: p in r <==> p in patients && MatchesSearch(p.name, search)
    ensures IsSubsequence(r, patients) && |r| <= |patients|
  {
    Filter(patients, NameMatches(search))
  }

  /** As many patients are shown as match the search, duplicates included. */
  lemma FilteredPatientsCount(patients: seq<Patient>, search: string)
    ensures |FilteredPatients(patients, search)| == Count(patients, NameMatches(search))
  {
    CountIsFilterLength(patients, NameMatches(search));
  }

  /** An empty search shows every patient. */
  lemma EmptySearchShowsAll(patients: seq<Patient>)
    ensures FilteredPatients(patients, "") == patients
  {
    forall p | p in patients
      ensures NameMatches("")(p)
    {
      EmptyTermMatches(p.name);
    }
    FilterKeepsAll(patients, NameMatches(""));
  }

  /** Two patients with the same name are shown or hidden together, whatever their ids. */
  lemma SearchIgnoresId(patients: seq<Patient>, search: string, p: Patient, q: Patient)
    requires p in patients && q in patients && p.name == q.name
    ensures p in FilteredPatients(patients, search) <==> q in FilteredPatients(patients, search)
  {
  }

  /** The conditions cell: the conditions separated by ", ", or "No conditions". */
  function ConditionsCell(conditions: seq<string>): (r: string)
    ensures conditions == [] ==> r == "No conditions"
    ensures |conditions| == 1 ==> r == conditions[0]
    ensures |conditions| >= 2 ==> r == conditions[0] + ", " + Join(conditions[1..], ", ")
  {
    if |conditions| > 0 then Join(conditions, ", ") else "No conditions"
  }

  /** The status badge: the status with its first letter upper-cased. */
  function StatusBadge(p: Patient): (r: string)
    ensures |r| == |p.status|
    ensures |p.status| > 0 ==> r[0] == UpperChar(p.status[0]) && r[1..] == p.status[1..]
  {
    Capitalize(p.status)
  }

  function CountLabel(shown: seq<Patient>): (r: string)
    ensures |shown| == 1 ==> r == "Found 1 patient"
    ensures |shown| != 1 ==> r == "Found " + NatToString(|shown|) + " patients"
  {
    FoundLabel(|shown|, "patient")
  }
}
