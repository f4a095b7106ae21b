/** The all-doctors screen (src/screens/TumDoktorlarEkrani.js): a fixed list
    of doctors, a fixed list of polyclinics, and the picker selection that
    filters the one and labels itself from the other. */
module TumDoktorlar {
  import opened Wrappers

  datatype Doctor = Doctor(id: string, name: string, specialty: string, poliklinik: string)
  datatype Poliklinik = Poliklinik(id: string, name: string)

  /** The picker entry that stands for every polyclinic. */
  const AllClinics := "tumu"
  const InitialSelection := AllClinics

  /** `poliklinikler` */
  const Poliklinikler: seq<Poliklinik> := [
    Poliklinik(AllClinics, "Tüm Poliklinikler"),
    Poliklinik("kardiyoloji", "Kardiyoloji"),
    Poliklinik("psikoloji", "Psikoloji"),
    Poliklinik("ortopedi", "Ortopedi")]

  /** `doctors`; every entry has the same default avatar, which is left out. */
  const Doctors: seq<Doctor> := [
    Doctor("1", "Dr. Ersan CENGİZ", "Kardiyolog", "kardiyoloji"),
    Doctor("2", "Dr. Serhat KORKMAZ", "Psikolog", "psikoloji"),
    Doctor("3", "Dr. Mehmet KAYA", "Ortopedist", "ortopedi"),
    Doctor("4", "Dr. Ahmet ELLİ", "Ortopedist", "ortopedi"),
    Doctor("5", "Dr. Erdi TÜZÜN", "Kardiyoloji", "kardiyoloji"),
    Doctor("6", "Dr. Ersan CENGİZ", "Kardiyolog", "kardiyoloji")]

  /** The filter's test: `selectedPoliklinik === 'tumu' || doctor.poliklinik === selectedPoliklinik`. */
  predicate Shown(d: Doctor, selected: string) {
    selected == AllClinics || d.poliklinik == selected
  }

  /** a is b with some elements left out, the rest in their order. */
  predicate IsSubsequence<T(==)>(a: seq<T>, b: seq<T>)
    decreases |b|
  {
    if a == [] then true
    else if b == [] then false
    else if a[0] == b[0] then IsSubsequence(a[1..], b[1..])
    else IsSubsequence(a, b[1..])
  }

  /** `doctors.filter(...)`: every listed doctor passes the test. */
  function FilterDoctors(doctors: seq<Doctor>, selected: string): (r: seq<Doctor>)
    ensures forall i :: 0 <= i < |r| ==> Shown(r[i], selected)
    ensures |r| <= |doctors|
    decreases |doctors|
  {
    if doctors == [] then []
    else
      var rest := FilterDoctors(doctors[1..], selected);
      if Shown(doctors[0], selected) then [doctors[0]] + rest else rest
  }

  /** One step of the filter: the head is kept exactly when it passes the test. */
  lemma FilterStep(doctors: seq<Doctor>, selected: string)
    requires doctors != []
    ensures FilterDoctors(doctors, selected)
         == (if Shown(doctors[0], selected) then [doctors[0]] else []) + FilterDoctors(doctors[1..], selected)
  {
  }

  /** The "all" entry lists every doctor, in order. */
  lemma {:induction false} FilterAllClinics(doctors: seq<Doctor>)
    ensures FilterDoctors(doctors, AllClinics) == doctors
    decreases |doctors|
  {
    if doctors != [] {
      FilterAllClinics(doctors[1..]);
      assert doctors == [doctors[0]] + doctors[1..];
    }
  }

  /** Each doctor is listed as often as it occurs when it passes the test, and
      not at all otherwise: the filter neither invents nor duplicates entries. */
  lemma {:induction false} FilterCounts(doctors: seq<Doctor>, selected: string)
    ensures forall d :: multiset(FilterDoctors(doctors, selected))[d]
                     == if Shown(d, selected) then multiset(doctors)[d] else 0
    decreases |doctors|
  {
    if doctors != [] {
      FilterCounts(doctors[1..], selected);
      assert doctors == [doctors[0]] + doctors[1..];
    }
  }

  /** The listed doctors keep their order in the fixed list. */
  lemma {:induction false} FilterKeepsOrder(doctors: seq<Doctor>, selected: string)
    ensures IsSubsequence(FilterDoctors(doctors, selected), doctors)
    decreases |doctors|
  {
    if doctors != [] {
      FilterKeepsOrder(doctors[1..], selected);
      var rest := FilterDoctors(doctors[1..], selected);
      if Shown(doctors[0], selected) {
        assert ([doctors[0]] + rest)[1..] == rest;
      } else {
        SubsequenceOfTail(rest, doctors);
      }
    }
  }

  /** A subsequence of the tail is a subsequence of the whole list. */
  lemma {:induction false} SubsequenceOfTail<T>(a: seq<T>, b: seq<T>)
    requires b != [] && IsSubsequence(a, b[1..])
    ensures IsSubsequence(a, b)
    decreases |a| + |b|
  {
    if a != [] && a[0] == b[0] {
      SubsequenceDropHead(a, b[1..]);
    }
  }

  /** Leaving out the first element keeps a subsequence. */
  lemma {:induction false} SubsequenceDropHead<T>(a: seq<T>, b: seq<T>)
    requires a != [] && IsSubsequence(a, b)
    ensures IsSubsequence(a[1..], b)
    decreases |a| + |b|
  {
    if a[0] == b[0] {
      if a[1..] != [] {
        SubsequenceOfTail(a[1..], b);
      }
    } else {
      SubsequenceDropHead(a, b[1..]);
      if a[1..] != [] {
        SubsequenceOfTail(a[1..], b);
      }
    }
  }

  /** A doctor is listed exactly when it is in the list and passes the test. */
  lemma FilterMembership(doctors: seq<Doctor>, selected: string, d: Doctor)
    ensures d in FilterDoctors(doctors, selected) <==> d in doctors && Shown(d, selected)
  {
    var r := FilterDoctors(doctors, selected);
    FilterCounts(doctors, selected);
    assert d in r <==> multiset(r)[d] > 0;
    assert d in doctors <==> multiset(doctors)[d] > 0;
  }

  /** Filtering the filtered list again gives the same list. */
  lemma {:induction false} FilterIdempotent(doctors: seq<Doctor>, selected: string)
    ensures FilterDoctors(FilterDoctors(doctors, selected), selected) == FilterDoctors(doctors, selected)
    decreases |doctors|
  {
    if doctors != [] {
      FilterIdempotent(doctors[1..], selected);
      var rest := FilterDoctors(doctors[1..], selected);
      if Shown(doctors[0], selected) {
        assert ([doctors[0]] + rest)[1..] == rest;
      }
    }
  }

  /** A selection that no doctor's polyclinic matches lists no one. */
  lemma FilterNoMatch(doctors: seq<Doctor>, selected: string)
    requires selected != AllClinics
    requires forall d :: d in doctors ==> d.poliklinik != selected
    ensures FilterDoctors(doctors, selected) == []
  {
    var r := FilterDoctors(doctors, selected);
    if r != [] {
      assert Shown(r[0], selected);
      FilterMembership(doctors, selected, r[0]);
      assert false;
    }
  }

  /** Three entries in a row are filtered one at a time. */
  lemma FilterThree(ds: seq<Doctor>, selected: string)
    requires |ds| == 3
    ensures FilterDoctors(ds, selected)
         == (if Shown(ds[0], selected) then [ds[0]] else [])
          + (if Shown(ds[1], selected) then [ds[1]] else [])
          + (if Shown(ds[2], selected) then [ds[2]] else [])
  {
    FilterStep(ds[2..], selected);
    assert ds[2..][1..] == [];
    FilterStep(ds[1..], selected);
    assert ds[1..][1..] == ds[2..];
    FilterStep(ds, selected);
  }

  /** Filtering a concatenation filters each part. */
  lemma {:induction false} FilterAppend(a: seq<Doctor>, b: seq<Doctor>, selected: string)
    ensures FilterDoctors(a + b, selected) == FilterDoctors(a, selected) + FilterDoctors(b, selected)
    decreases |a|
  {
    if a == [] {
      assert a + b == b;
    } else {
      FilterAppend(a[1..], b, selected);
      assert (a + b)[1..] == a[1..] + b;
      FilterStep(a + b, selected);
      FilterStep(a, selected);
    }
  }

  /** The cardiology entry of the fixed list selects exactly the three cardiology doctors. */
  lemma CardiologyDoctors()
    ensures FilterDoctors(Doctors, "kardiyoloji") == [Doctors[0], Doctors[4], Doctors[5]]
  {
    var k := "kardiyoloji";
    assert Doctors == Doctors[..3] + Doctors[3..];
    FilterAppend(Doctors[..3], Doctors[3..], k);
    FilterThree(Doctors[..3], k);
    FilterThree(Doctors[3..], k);
  }

  /** The position `poliklinikler.find((p) => p.id === selected)` stops at. */
  function FirstIndex(list: seq<Poliklinik>, selected: string): (r: Option<nat>)
    ensures r.None? <==> forall i :: 0 <= i < |list| ==> list[i].id != selected
    ensures r.Some? ==> r.value < |list| && list[r.value].id == selected
    ensures r.Some? ==> forall j :: 0 <= j < r.value ==> list[j].id != selected
  {
    if list == [] then None
    else if list[0].id == selected then Some(0)
    else
      match FirstIndex(list[1..], selected)
      case None => None
      case Some(i) => Some(i + 1)
  }

  /** The label above the picker, `poliklinikler.find(...)?.name`: the name of
      the first entry with the selected id, or None (nothing shown). */
  function SelectedLabel(selected: string): (caption: Option<string>)
    ensures caption.None? <==> forall i :: 0 <= i < |Poliklinikler| ==> Poliklinikler[i].id != selected
    ensures caption.Some? ==> exists i :: 0 <= i < |Poliklinikler| && Poliklinikler[i].id == selected
                                         && Poliklinikler[i].name == caption.value
  {
    match FirstIndex(Poliklinikler, selected)
    case None => None
    case Some(i) => Some(Poliklinikler[i].name)
  }

  /** The initial selection shows every doctor under the "all" label. */
  lemma InitialScreen()
    ensures FilterDoctors(Doctors, InitialSelection) == Doctors
    ensures SelectedLabel(InitialSelection) == Some("Tüm Poliklinikler")
  {
    FilterAllClinics(Doctors);
  }

  /** The list's `keyExtractor` is `item.id`: the fixed ids are distinct, and so
      are those of every filtered list. */
  predicate DistinctIds(doctors: seq<Doctor>) {
    forall i, j :: 0 <= i < j < |doctors| ==> doctors[i].id != doctors[j].id
  }

  lemma {:induction false} SubsequenceKeepsDistinct(a: seq<Doctor>, b: seq<Doctor>)
    requires IsSubsequence(a, b) && DistinctIds(b)
    ensures DistinctIds(a)
    decreases |b|
  {
    if a != [] && b != [] {
      if a[0] == b[0] {
        SubsequenceKeepsDistinct(a[1..], b[1..]);
        SubsequenceMembers(a[1..], b[1..]);
        forall j | 0 < j < |a|
          ensures a[0].id != a[j].id
        {
          assert a[j] == a[1..][j - 1];
          var k :| 0 <= k < |b[1..]| && b[1..][k] == a[j];
          assert b[k + 1] == a[j];
        }
        assert forall i, j :: 0 < i < j < |a| ==> a[i] == a[1..][i - 1] && a[j] == a[1..][j - 1];
      } else {
        SubsequenceKeepsDistinct(a, b[1..]);
      }
    }
  }

  lemma {:induction false} SubsequenceMembers(a: seq<Doctor>, b: seq<Doctor>)
    requires IsSubsequence(a, b)
    ensures forall i :: 0 <= i < |a| ==> exists k :: 0 <= k < |b| && b[k] == a[i]
    decreases |b|
  {
    if a != [] && b != [] {
      if a[0] == b[0] {
        SubsequenceMembers(a[1..], b[1..]);
        forall i | 0 < i < |a|
          ensures exists k :: 0 <= k < |b| && b[k] == a[i]
        {
          assert a[i] == a[1..][i - 1];
          var k :| 0 <= k < |b[1..]| && b[1..][k] == a[i];
          assert b[k + 1] == a[i];
        }
        assert b[0] == a[0];
      } else {
        SubsequenceMembers(a, b[1..]);
        forall i | 0 <= i < |a|
          ensures exists k :: 0 <= k < |b| && b[k] == a[i]
        {
          var k :| 0 <= k < |b[1..]| && b[1..][k] == a[i];
          assert b[k + 1] == a[i];
        }
      }
    }
  }

  lemma FilteredKeysDistinct(selected: string)
    ensures DistinctIds(FilterDoctors(Doctors, selected))
  {
    assert DistinctIds(Doctors);
    FilterKeepsOrder(Doctors, selected);
    SubsequenceKeepsDistinct(FilterDoctors(Doctors, selected), Doctors);
  }
}
