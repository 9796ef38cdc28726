/** The shared record shapes of the application and its two constant tables:
    the seven-class lesion catalogue and the list of hospitals with their rates. */
module Catalogue {
  import opened Wrappers

  datatype Severity = Low | Medium | High

  /** One lesion class. The long descriptive texts (description, causes, risk
      factors, symptoms) are presentation only and are not carried. */
  datatype CancerClass = CancerClass(id: int, code: string, name: string, color: string, severity: Severity)

  /** One entry of a ranking: the class code, its probability and the index
      of the network output it came from. */
  datatype Prediction = Prediction(className: string, probability: real, classId: int)

  datatype Gender = Male | Female | Unspecified

  datatype PatientData = PatientData(firstName: string, patientId: string, username: string, gender: Gender, age: string)

  /** A stored scan. The timestamp is kept as its ISO text. */
  datatype ScanResult = ScanResult(
    id: string,
    timestamp: string,
    patientData: PatientData,
    predictions: seq<Prediction>,
    imageDataUrl: string,
    isValidSkinImage: bool,
    topPrediction: Prediction)

  datatype Hospital = Hospital(name: string, rate: nat)

  /** `CANCER_CLASSES`, a record keyed by class id. */
  const CancerClasses: map<int, CancerClass> := map[
    0 := CancerClass(0, "akiec", "Actinic Keratoses", "#f59e0b", Medium),
    1 := CancerClass(1, "bcc", "Basal Cell Carcinoma", "#f97316", Medium),
    2 := CancerClass(2, "bkl", "Benign Keratosis", "#22c55e", Low),
    3 := CancerClass(3, "df", "Dermatofibroma", "#10b981", Low),
    4 := CancerClass(4, "mel", "Melanoma", "#ef4444", High),
    5 := CancerClass(5, "nv", "Melanocytic Nevi", "#14b8a6", Low),
    6 := CancerClass(6, "vasc", "Vascular Lesions", "#06b6d4", Low)
  ]

  /** `CANCER_CLASSES[id]`, which is `undefined` outside the table. */
  function Lookup(id: int): (r: Option<CancerClass>)
    ensures r.Some? <==> 0 <= id <= 6
    ensures r.Some? ==> r.value.id == id
  {
    if id in CancerClasses then Some(CancerClasses[id]) else None
  }

  /** `CANCER_CLASSES[id]?.severity === s`: false for an id outside the table. */
  predicate HasSeverity(id: int, s: Severity) {
    id in CancerClasses && CancerClasses[id].severity == s
  }

  /** The code names in class-id order. */
  const Codes: seq<string> := ["akiec", "bcc", "bkl", "df", "mel", "nv", "vasc"]

  /** The table has exactly the keys 0..6 and every entry is filed under its own id. */
  lemma CatalogueKeys()
    ensures forall k :: k in CancerClasses <==> 0 <= k < 7
    ensures forall k :: k in CancerClasses ==> CancerClasses[k].id == k
  {
    assert forall k :: 0 <= k < 7 ==> k in CancerClasses by {
      forall k | 0 <= k < 7 ensures k in CancerClasses {
        assert k == 0 || k == 1 || k == 2 || k == 3 || k == 4 || k == 5 || k == 6;
      }
    }
  }

  /** The entry codes, read in id order, are akiec, bcc, bkl, df, mel, nv, vasc. */
  lemma CatalogueCodes()
    ensures forall k :: 0 <= k < 7 ==> k in CancerClasses && CancerClasses[k].code == Codes[k]
  {
    forall k | 0 <= k < 7 ensures k in CancerClasses && CancerClasses[k].code == Codes[k] {
      assert k == 0 || k == 1 || k == 2 || k == 3 || k == 4 || k == 5 || k == 6;
    }
  }

  /** Melanoma (id 4) is the only high-severity class; ids 0 and 1 are medium
      and the other four are low. */
  lemma SeverityTiers(id: int)
    ensures HasSeverity(id, High) <==> id == 4
    ensures HasSeverity(id, Medium) <==> id == 0 || id == 1
    ensures HasSeverity(id, Low) <==> id == 2 || id == 3 || id == 5 || id == 6
  {
  }

  /** Every id of the table has exactly one of the three tiers, and an id
      outside the table has none. */
  lemma SeverityExclusive(id: int)
    ensures (if HasSeverity(id, High) then 1 else 0) + (if HasSeverity(id, Medium) then 1 else 0)
      + (if HasSeverity(id, Low) then 1 else 0) == (if 0 <= id <= 6 then 1 else 0)
  {
  }

  /** `HOSPITALS`. */
  const Hospitals: seq<Hospital> := [
    Hospital("King Edward Hospital", 1200),
    Hospital("Jinnah Hospital", 2500),
    Hospital("Fatima Memorial Hospital", 3000),
    Hospital("Ganga Ram Hospital", 1800),
    Hospital("Defense Hospital", 2000),
    Hospital("Shalimar Hospital", 1800),
    Hospital("Doctor's Hospital", 2500),
    Hospital("Lahore Care Hospital", 2200)
  ]

  /** Eight hospitals, each with a positive rate. */
  lemma HospitalRates()
    ensures |Hospitals| == 8
    ensures forall i :: 0 <= i < |Hospitals| ==> Hospitals[i].rate > 0
  {
  }
}
