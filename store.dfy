/** The client-side application store: theme, the patient being entered,
    the local scan history and whether the models are loaded. Every setter
    replaces a field by a value computed from the old state; those values
    are the functions below, and the store's methods are specified by them. */
module Store {
  import opened Wrappers
  import opened Seqs
  import opened Catalogue

  datatype Theme = Light | Dark

  /** The most scans the local history keeps. */
  const HistoryLimit: nat := 50

  const InitialPatient := PatientData("", "", "", Unspecified, "")

  /** A `Partial<PatientData>`: `None` is a key the caller left out. */
  datatype PatientPatch = PatientPatch(
    firstName: Option<string>,
    patientId: Option<string>,
    username: Option<string>,
    gender: Option<Gender>,
    age: Option<string>)

  /** The part of the store written to local storage under "skin-health-storage". */
  datatype Persisted = Persisted(theme: Theme, scanHistory: seq<ScanResult>, modelsLoaded: bool)

  /** `toggleTheme`'s new value: `theme === 'light' ? 'dark' : 'light'`. */
  function Toggled(t: Theme): (r: Theme)
    ensures r != t
  {
    if t == Light then Dark else Light
  }

  lemma ToggleTwice(t: Theme)
    ensures Toggled(Toggled(t)) == t
  {
  }

  /** `[result, ...history].slice(0, 50)`. */
  function Prepend(history: seq<ScanResult>, result: ScanResult): (r: seq<ScanResult>)
  {
    Take([result] + history, HistoryLimit)
  }

  /** The new result comes first, at most 50 entries are kept, and the kept
      older entries are the newest ones, in their previous order. */
  lemma PrependShape(history: seq<ScanResult>, result: ScanResult)
    ensures var r := Prepend(history, result);
      |r| == (if |history| < HistoryLimit then |history| + 1 else HistoryLimit)
      && r[0] == result
      && r[1..] == history[..|r| - 1]
  {
    var r := Prepend(history, result);
    assert r[1..] == ([result] + history)[1..|r|];
  }

  /** `history.filter(scan => scan.id !== id)`. */
  function WithoutId(history: seq<ScanResult>, id: string): (r: seq<ScanResult>)
    ensures |r| <= |history|
  {
    Filter(history, (s: ScanResult) => s.id != id)
  }

  /** Deleting removes exactly the scans with that id and keeps every copy of
      the others, in order. */
  lemma WithoutIdSpec(history: seq<ScanResult>, id: string)
    ensures forall s :: s in WithoutId(history, id) <==> s in history && s.id != id
    ensures IsSubsequence(WithoutId(history, id), history)
    ensures forall s :: multiset(WithoutId(history, id))[s] == if s.id != id then multiset(history)[s] else 0
  {
    forall s ensures s in WithoutId(history, id) <==> s in history && s.id != id {
      FilterMembership(history, (s: ScanResult) => s.id != id, s);
    }
    forall s ensures multiset(WithoutId(history, id))[s] == if s.id != id then multiset(history)[s] else 0 {
      FilterMultiset(history, (s: ScanResult) => s.id != id, s);
    }
    FilterIsSubsequence(history, (s: ScanResult) => s.id != id);
  }

  /** Deleting an id no scan has leaves the history as it was. */
  lemma WithoutAbsentId(history: seq<ScanResult>, id: string)
    requires forall i :: 0 <= i < |history| ==> history[i].id != id
    ensures WithoutId(history, id) == history
  {
    FilterAll(history, (s: ScanResult) => s.id != id);
  }

  /** `{ ...patient, ...data }`. */
  function Merge(p: PatientData, d: PatientPatch): (r: PatientData)
  {
    PatientData(
      d.firstName.GetOr(p.firstName),
      d.patientId.GetOr(p.patientId),
      d.username.GetOr(p.username),
      d.gender.GetOr(p.gender),
      d.age.GetOr(p.age))
  }

  /** A supplied field takes the supplied value; every other field keeps its value. */
  lemma MergeFields(p: PatientData, d: PatientPatch)
    ensures Merge(p, d).firstName == (if d.firstName.Some? then d.firstName.value else p.firstName)
    ensures Merge(p, d).patientId == (if d.patientId.Some? then d.patientId.value else p.patientId)
    ensures Merge(p, d).username == (if d.username.Some? then d.username.value else p.username)
    ensures Merge(p, d).gender == (if d.gender.Some? then d.gender.value else p.gender)
    ensures Merge(p, d).age == (if d.age.Some? then d.age.value else p.age)
  {
  }

  /** Applying the same patch twice is the same as applying it once, and the
      empty patch changes nothing. */
  lemma MergeIdempotent(p: PatientData, d: PatientPatch)
    ensures Merge(Merge(p, d), d) == Merge(p, d)
    ensures Merge(p, PatientPatch(None, None, None, None, None)) == p
  {
  }

  class AppStore {
    var theme: Theme
    var currentPatient: PatientData
    var scanHistory: seq<ScanResult>
    var modelsLoaded: bool

    /** A fresh store with the initial state. */
    constructor()
      ensures theme == Light && currentPatient == InitialPatient
      ensures scanHistory == [] && !modelsLoaded
    {
      theme := Light;
      currentPatient := InitialPatient;
      scanHistory := [];
      modelsLoaded := false;
    }

    /** A store rehydrated from local storage: the persisted fields come back,
        the patient starts from the initial record. */
    constructor Rehydrate(saved: Persisted)
      ensures Saved() == saved
      ensures currentPatient == InitialPatient
    {
      theme := saved.theme;
      currentPatient := InitialPatient;
      scanHistory := saved.scanHistory;
      modelsLoaded := saved.modelsLoaded;
    }

    /** `partialize`: the fields that are persisted. */
    function Saved(): (r: Persisted)
      reads this
    {
      Persisted(theme, scanHistory, modelsLoaded)
    }

    method SetTheme(t: Theme)
      modifies this
      ensures theme == t
      ensures currentPatient == old(currentPatient) && scanHistory == old(scanHistory) && modelsLoaded == old(modelsLoaded)
    {
      theme := t;
    }

    method ToggleTheme()
      modifies this
      ensures theme == Toggled(old(theme))
      ensures currentPatient == old(currentPatient) && scanHistory == old(scanHistory) && modelsLoaded == old(modelsLoaded)
    {
      SetTheme(Toggled(theme));
    }

    method SetPatientData(d: PatientPatch)
      modifies this
      ensures currentPatient == Merge(old(currentPatient), d)
      ensures theme == old(theme) && scanHistory == old(scanHistory) && modelsLoaded == old(modelsLoaded)
    {
      currentPatient := Merge(currentPatient, d);
    }

    method ResetPatientData()
      modifies this
      ensures currentPatient == InitialPatient
      ensures theme == old(theme) && scanHistory == old(scanHistory) && modelsLoaded == old(modelsLoaded)
    {
      currentPatient := InitialPatient;
    }

    method AddScanResult(result: ScanResult)
      modifies this
      ensures scanHistory == Prepend(old(scanHistory), result)
      ensures theme == old(theme) && currentPatient == old(currentPatient) && modelsLoaded == old(modelsLoaded)
    {
      scanHistory := Prepend(scanHistory, result);
    }

    method ClearHistory()
      modifies this
      ensures scanHistory == []
      ensures theme == old(theme) && currentPatient == old(currentPatient) && modelsLoaded == old(modelsLoaded)
    {
      scanHistory := [];
    }

    method DeleteScan(id: string)
      modifies this
      ensures scanHistory == WithoutId(old(scanHistory), id)
      ensures theme == old(theme) && currentPatient == old(currentPatient) && modelsLoaded == old(modelsLoaded)
    {
      scanHistory := WithoutId(scanHistory, id);
    }

    method SetModelsLoaded(loaded: bool)
      modifies this
      ensures modelsLoaded == loaded
      ensures theme == old(theme) && currentPatient == old(currentPatient) && scanHistory == old(scanHistory)
    {
      modelsLoaded := loaded;
    }
  }

  /** The patient being entered is not persisted: two stores that differ only
      in it save the same thing. */
  lemma PatientNotPersisted(a: AppStore, b: AppStore)
    requires a.theme == b.theme && a.scanHistory == b.scanHistory && a.modelsLoaded == b.modelsLoaded
    ensures a.Saved() == b.Saved()
  {
  }
}
