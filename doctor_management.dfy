/** The doctor directory (DoctorManagement.tsx): the name search, the specialty filter,
    the specialty options of the add form and the result count. */
module DoctorManagement {
  import opened Text
  import opened Seqs

  datatype Doctor = Doctor(id: nat, name: string, specialty: string, status: string)

  /** The six specialties the page names. */
  const Named: seq<string> :=
    ["Cardiology", "Neurology", "Orthopedics", "Gastroenterology", "Pediatrics", "Oncology"]

  /** The specialty filter's choices; "all" switches the filter off. */
  const Specialties: seq<string> := ["all"] + Named

  function Keeps(search: string, specialty: string): Doctor -> bool
  {
    (d: Doctor) => MatchesSearch(d.name, search) && (specialty == "all" || d.specialty == specialty)
  }

  /** `filteredDoctors`: the doctors whose name contains the search term, ignoring case,
      and whose specialty is the selected one unless "all" is selected; in list order. */
  function FilteredDoctors(doctors: seq<Doctor>, search: string, specialty: string): (r: seq<Doctor>)
    ensures forall d :: d in r <==>
      d in doctors && MatchesSearch(d.name, search) && (specialty == "all" || d.specialty == specialty)
    ensures IsSubsequence(r, doctors) && |r| <= |doctors|
  {
    Filter(doctors, Keeps(search, specialty))
  }

  /** As many doctors are shown as pass the search and the specialty filter, duplicates
      included. */
  lemma FilteredDoctorsCount(doctors: seq<Doctor>, search: string, specialty: string)
    ensures |FilteredDoctors(doctors, search, specialty)| == Count(doctors, Keeps(search, specialty))
  {
    CountIsFilterLength(doctors, Keeps(search, specialty));
  }

  /** With no search term and "all" selected, every doctor is shown. */
  lemma ShowAllByDefault(doctors: seq<Doctor>)
    ensures FilteredDoctors(doctors, "", "all") == doctors
  {
    forall d | d in doctors
      ensures Keeps("", "all")(d)
    {
      EmptyTermMatches(d.name);
    }
    FilterKeepsAll(doctors, Keeps("", "all"));
  }

  /** A specialty filter never shows a doctor of another specialty. */
  lemma SpecialtyFilterExact(doctors: seq<Doctor>, search: string, specialty: string, d: Doctor)
    requires specialty != "all" && d in FilteredDoctors(doctors, search, specialty)
    ensures d.specialty == specialty
  {
  }

  function NotAll(s: string): bool
  {
    s != "all"
  }

  /** The specialty options of the add form: the filter's choices without "all". */
  function SpecialtyOptions(specialties: seq<string>): (r: seq<string>)
    ensures forall s :: s in r <==> s in specialties && s != "all"
    ensures IsSubsequence(r, specialties)
  {
    Filter(specialties, NotAll)
  }

  /** For the page's list, the options are its six named specialties, in order. */
  lemma SpecialtyOptionsOfPage()
    ensures SpecialtyOptions(Specialties) == Named
  {
    forall i | 0 <= i < |Named|
      ensures NotAll(Named[i])
    {
      assert Named[i][0] != 'a';
    }
    FilterKeepsAll(Named, NotAll);
    assert Specialties[1..] == Named;
  }

  /** The count line under the search box. */
  function CountLabel(shown: seq<Doctor>): (r: string)
    ensures |shown| == 1 ==> r == "Found 1 doctor"
    ensures |shown| != 1 ==> r == "Found " + NatToString(|shown|) + " doctors"
  {
    FoundLabel(|shown|, "doctor")
  }
}
