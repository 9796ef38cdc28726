/** The inference service: the ranking of the seven-class output, the
    skin/non-skin gate, the class-name table and the model lifecycle.
    The networks themselves are oracles from a model and an image to a
    sequence of output probabilities; probabilities are reals because the
    service only compares them. */
module TensorFlow {
  import opened Wrappers
  import opened Catalogue

  /** The table inside `getClassName`. */
  const ClassNames: map<int, string> := map[
    0 := "akiec", 1 := "bcc", 2 := "bkl", 3 := "df", 4 := "mel", 5 := "nv", 6 := "vasc"
  ]

  /** `classNames[classId] || 'unknown'`: a missing key (and, in principle, an
      empty name) falls back to "unknown". */
  function ClassName(classId: int): (r: string)
    ensures 0 <= classId < 7 ==> r == Codes[classId]
    ensures !(0 <= classId < 7) ==> r == "unknown"
  {
    if classId in ClassNames && ClassNames[classId] != "" then ClassNames[classId] else "unknown"
  }

  /** The names the service attaches agree with the catalogue's codes. */
  lemma ClassNameMatchesCatalogue(classId: int)
    ensures Lookup(classId).Some? ==> ClassName(classId) == Lookup(classId).value.code
    ensures Lookup(classId).None? ==> ClassName(classId) == "unknown"
  {
    CatalogueCodes();
  }

  /** The `map` step: output k becomes the prediction with `classId` k. */
  function Tag(probs: seq<real>): (r: seq<Prediction>)
    ensures |r| == |probs|
    ensures forall k :: 0 <= k < |r| ==> r[k] == Prediction(ClassName(k), probs[k], k)
  {
    seq(|probs|, k requires 0 <= k < |probs| => Prediction(ClassName(k), probs[k], k))
  }

  /** The comparator handed to `sort`: `b.probability - a.probability`. */
  function Compare(a: Prediction, b: Prediction): real {
    b.probability - a.probability
  }

  /** One step of a stable sort: `x`, which came after every element of the
      already sorted `s`, goes in front of the first element the comparator
      orders strictly after it, and behind all others. */
  function Insert(s: seq<Prediction>, x: Prediction): (r: seq<Prediction>)
    ensures |r| == |s| + 1
    ensures multiset(r) == multiset(s) + multiset{x}
    decreases |s|
  {
    if s == [] then [x]
    else if Compare(s[0], x) > 0.0 then [x] + s
    else
      assert s == [s[0]] + s[1..];
      [s[0]] + Insert(s[1..], x)
  }

  /** `Array.prototype.sort` with that comparator, which the language requires
      to be stable: the elements are inserted one by one in input order. */
  function Sort(s: seq<Prediction>): (r: seq<Prediction>)
    ensures |r| == |s|
    ensures multiset(r) == multiset(s)
    decreases |s|
  {
    if s == [] then []
    else
      assert s == s[..|s| - 1] + [s[|s| - 1]];
      Insert(Sort(s[..|s| - 1]), s[|s| - 1])
  }

  /** `predictCancer`'s result for a raw output of the classifier. */
  function Rank(probs: seq<real>): (r: seq<Prediction>)
    ensures |r| == |probs|
  {
    Sort(Tag(probs))
  }

  /** `a` comes before `b` in a stable descending sort of a list tagged with
      ascending ids: higher probability first, ties by ascending id. */
  predicate Before(a: Prediction, b: Prediction) {
    a.probability > b.probability || (a.probability == b.probability && a.classId < b.classId)
  }

  predicate Ranked(r: seq<Prediction>) {
    forall i, j :: 0 <= i < j < |r| ==> Before(r[i], r[j])
  }

  predicate IdsIncreasing(s: seq<Prediction>) {
    forall i, j :: 0 <= i < j < |s| ==> s[i].classId < s[j].classId
  }

  lemma {:induction false} InsertRanked(s: seq<Prediction>, x: Prediction)
    requires Ranked(s)
    requires forall y :: y in s ==> y.classId < x.classId
    ensures Ranked(Insert(s, x))
    decreases |s|
  {
    if s != [] && Compare(s[0], x) <= 0.0 {
      var t := Insert(s[1..], x);
      InsertRanked(s[1..], x);
      forall j | 0 <= j < |t| ensures Before(s[0], t[j]) {
        assert t[j] in multiset(s[1..]) + multiset{x};
        if t[j] != x {
          assert t[j] in s[1..];
          var k :| 0 <= k < |s[1..]| && s[1..][k] == t[j];
          assert s[k + 1] == t[j];
        }
      }
      assert Insert(s, x) == [s[0]] + t;
    }
  }

  /** Sorting a list whose ids ascend gives the (probability desc, id asc)
      order: the comparator orders by probability and stability keeps the
      input order, hence the id order, among ties. */
  lemma {:induction false} SortRanked(s: seq<Prediction>)
    requires IdsIncreasing(s)
    ensures Ranked(Sort(s))
    decreases |s|
  {
    if s != [] {
      var init := s[..|s| - 1];
      var x := s[|s| - 1];
      SortRanked(init);
      forall y | y in Sort(init) ensures y.classId < x.classId {
        assert y in multiset(init);
        var k :| 0 <= k < |init| && init[k] == y;
      }
      InsertRanked(Sort(init), x);
    }
  }

  /** Every prediction of the ranking is the tagged output of one class: its
      id is an index of the output, its probability is that output and its
      name is that id's class name. */
  lemma RankCarries(probs: seq<real>)
    ensures forall i :: 0 <= i < |Rank(probs)| ==>
      var p := Rank(probs)[i];
      0 <= p.classId < |probs| && p.probability == probs[p.classId] && p.className == ClassName(p.classId)
  {
    var r := Rank(probs);
    forall i | 0 <= i < |r|
      ensures 0 <= r[i].classId < |probs| && r[i].probability == probs[r[i].classId]
        && r[i].className == ClassName(r[i].classId)
    {
      assert r[i] in multiset(Tag(probs));
      var k :| 0 <= k < |Tag(probs)| && Tag(probs)[k] == r[i];
    }
  }

  predicate HasClass(r: seq<Prediction>, k: int) {
    exists i :: 0 <= i < |r| && r[i].classId == k
  }

  /** Every class id of the output occurs in the ranking. */
  lemma RankCovers(probs: seq<real>)
    ensures forall k :: 0 <= k < |probs| ==> HasClass(Rank(probs), k)
  {
    var r := Rank(probs);
    forall k | 0 <= k < |probs| ensures HasClass(r, k) {
      assert Tag(probs)[k] in multiset(r);
      var i :| 0 <= i < |r| && r[i] == Tag(probs)[k];
    }
  }

  /** The ranking is ordered by non-increasing probability, with ties in
      ascending class id. */
  lemma RankSorted(probs: seq<real>)
    ensures Ranked(Rank(probs))
  {
    SortRanked(Tag(probs));
  }

  /** No class id occurs twice, so together with `RankCovers` the ids are a
      permutation of 0..n-1. */
  lemma RankDistinct(probs: seq<real>)
    ensures forall i, j :: 0 <= i < j < |Rank(probs)| ==> Rank(probs)[i].classId != Rank(probs)[j].classId
  {
    RankSorted(probs);
    RankCarries(probs);
  }

  /** `probabilities[0] <= 0.5`. An empty output reads `undefined`, and
      `undefined <= 0.5` is false. */
  predicate IsSkinImage(out: seq<real>) {
    |out| > 0 && out[0] <= 0.5
  }

  /** The gate looks at the first output only and accepts the boundary 0.5. */
  lemma SkinGateThreshold(p: real, rest: seq<real>)
    ensures IsSkinImage([p] + rest) <==> p <= 0.5
    ensures IsSkinImage([0.5] + rest)
    ensures !IsSkinImage([])
  {
  }

  /** An image, as far as the service is concerned: its pixel data. */
  type Image = seq<int>

  /** A loaded network, identified by the URL it came from. */
  datatype Model = Model(url: string)

  /** What one `tf.loadLayersModel` call and the warm-up prediction after it give. */
  datatype LoadAttempt = NotLoaded | WarmUpFailed(model: Model) | Loaded(model: Model)

  const LoadFailure := "Failed to load AI models. Please check your internet connection and try again."
  const ClassifierMissing := "Classification model not loaded"
  const CancerMissing := "Cancer detection model not loaded"

  class TensorFlowService {
    /** The seven-class lesion classifier (224x224x3 input). */
    var cancerModel: Option<Model>
    /** The skin/non-skin validator (128x128x1 input). */
    var classifierModel: Option<Model>
    var isInitialized: bool
    /** The forward pass of a lesion classifier, preprocessing included. */
    const lesionNet: (Model, Image) -> seq<real>
    /** The forward pass of a skin/non-skin validator, preprocessing included. */
    const validatorNet: (Model, Image) -> seq<real>

    /** The service is initialised only when both models are present, and the
        lesion network has one output per catalogue class. */
    ghost predicate Valid()
      reads this
    {
      && (isInitialized ==> cancerModel.Some? && classifierModel.Some?)
      && (classifierModel.Some? ==> cancerModel.Some?)
      && (forall m, img :: |lesionNet(m, img)| == |Codes|)
    }

    constructor(lesionNet: (Model, Image) -> seq<real>, validatorNet: (Model, Image) -> seq<real>)
      requires forall m, img :: |lesionNet(m, img)| == |Codes|
      ensures Valid()
      ensures cancerModel == None && classifierModel == None && !isInitialized
      ensures this.lesionNet == lesionNet && this.validatorNet == validatorNet
    {
      this.lesionNet := lesionNet;
      this.validatorNet := validatorNet;
      cancerModel := None;
      classifierModel := None;
      isInitialized := false;
    }

    /** `loadModels`: a no-op once initialised; otherwise `ready` says whether
        `tf.ready()` resolved and the two attempts say how far each model got.
        Any failure is rethrown as `LoadFailure`, after the assignments that
        had already happened. */
    method LoadModels(ready: bool, cancer: LoadAttempt, classifier: LoadAttempt) returns (r: Result<(), string>)
      requires Valid()
      modifies this
      ensures Valid()
      ensures old(isInitialized) ==> r.Success? && unchanged(this)
      ensures r.Success? <==> old(isInitialized) || (ready && cancer.Loaded? && classifier.Loaded?)
      ensures isInitialized <==> r.Success?
      ensures r.Failure? ==> r.error == LoadFailure
      ensures !old(isInitialized) ==> cancerModel == (if ready && !cancer.NotLoaded? then Some(cancer.model) else old(cancerModel))
      ensures !old(isInitialized) ==>
        classifierModel == (if ready && cancer.Loaded? && !classifier.NotLoaded? then Some(classifier.model) else old(classifierModel))
    {
      if isInitialized {
        return Success(());
      }
      if !ready || cancer.NotLoaded? {
        return Failure(LoadFailure);
      }
      cancerModel := Some(cancer.model);
      if cancer.WarmUpFailed? || classifier.NotLoaded? {
        return Failure(LoadFailure);
      }
      classifierModel := Some(classifier.model);
      if classifier.WarmUpFailed? {
        return Failure(LoadFailure);
      }
      isInitialized := true;
      return Success(());
    }

    /** `validateSkinImage`: loads the models on demand when the validator is
        absent, then applies the gate to the validator's output. The load
        arguments are only used on the on-demand path. */
    method ValidateSkinImage(img: Image, ready: bool, cancer: LoadAttempt, classifier: LoadAttempt)
      returns (r: Result<bool, string>)
      requires Valid()
      modifies this
      ensures Valid()
      ensures old(classifierModel).Some? ==> unchanged(this) && r.Success?
      ensures old(classifierModel).None? ==> (r.Success? <==> ready && cancer.Loaded? && classifier.Loaded?)
      ensures old(classifierModel).None? ==>
        && (isInitialized <==> r.Success?)
        && cancerModel == (if ready && !cancer.NotLoaded? then Some(cancer.model) else old(cancerModel))
        && classifierModel == (if ready && cancer.Loaded? && !classifier.NotLoaded? then Some(classifier.model) else old(classifierModel))
      ensures r.Success? ==> classifierModel.Some? && r.value == IsSkinImage(validatorNet(classifierModel.value, img))
      ensures r.Failure? ==> r.error == LoadFailure
    {
      if classifierModel.None? {
        var load := LoadModels(ready, cancer, classifier);
        if load.Failure? {
          return Failure(load.error);
        }
        if classifierModel.None? {
          return Failure(ClassifierMissing);
        }
      }
      return Success(IsSkinImage(validatorNet(classifierModel.value, img)));
    }

    /** `predictCancer`: loads the models on demand when the classifier is
        absent, then ranks the classifier's output. */
    method PredictCancer(img: Image, ready: bool, cancer: LoadAttempt, classifier: LoadAttempt)
      returns (r: Result<seq<Prediction>, string>)
      requires Valid()
      modifies this
      ensures Valid()
      ensures old(cancerModel).Some? ==> unchanged(this) && r.Success?
      ensures old(cancerModel).None? ==> (r.Success? <==> ready && cancer.Loaded? && classifier.Loaded?)
      ensures old(cancerModel).None? ==>
        && (isInitialized <==> r.Success?)
        && cancerModel == (if ready && !cancer.NotLoaded? then Some(cancer.model) else old(cancerModel))
        && classifierModel == (if ready && cancer.Loaded? && !classifier.NotLoaded? then Some(classifier.model) else old(classifierModel))
      ensures r.Success? ==> cancerModel.Some? && r.value == Rank(lesionNet(cancerModel.value, img))
      ensures r.Success? ==> |r.value| == |Codes|
      ensures r.Failure? ==> r.error == LoadFailure
    {
      if cancerModel.None? {
        var load := LoadModels(ready, cancer, classifier);
        if load.Failure? {
          return Failure(load.error);
        }
        if cancerModel.None? {
          return Failure(CancerMissing);
        }
      }
      return Success(Rank(lesionNet(cancerModel.value, img)));
    }

    /** `dispose`: releases both models and clears the initialised flag. */
    method Dispose()
      requires Valid()
      modifies this
      ensures Valid()
      ensures cancerModel == None && classifierModel == None && !isInitialized
    {
      cancerModel := None;
      classifierModel := None;
      isInitialized := false;
    }
  }
}
