/** The detector page: the model-loading effect, image selection and the
    `handlePredict` flow that validates an image, ranks it, and stores the
    resulting scan in the account or in the local history. */
module Detector {
  import opened Wrappers
  import opened Catalogue
  import opened TensorFlow
  import opened Store
  import opened Utils

  /** How one call of `handlePredict` ended. */
  datatype PredictOutcome =
    | NoImage                        // early return: no image or models not loaded
    | NotSkin                        // the validator refused the image
    | SavedToAccount(scan: ScanResult)
    | SavedLocally(scan: ScanResult)
    | Failed(message: string)        // an error thrown by the service

  /** What the browser and the backend answered during one prediction: the
      clock, whether a session token exists, whether `saveScan` succeeded,
      and the model-load results in case the service loads on demand. */
  datatype Environment = Environment(
    nowId: string,
    timestamp: string,
    authenticated: bool,
    saveSucceeds: bool,
    ready: bool,
    cancer: LoadAttempt,
    classifier: LoadAttempt)

  /** The scan `handlePredict` builds from a ranking. */
  function BuildScan(env: Environment, patient: PatientData, results: seq<Prediction>, image: string): (s: ScanResult)
    requires |results| > 0
    ensures s.predictions == results && s.topPrediction == results[0] && s.isValidSkinImage
    ensures s.patientData == patient && s.imageDataUrl == image && s.id == env.nowId
  {
    ScanResult(env.nowId, env.timestamp, patient, results, image, true, results[0])
  }

  class DetectorPage {
    const store: AppStore
    const service: TensorFlowService
    /** The browser's decoding of a data URL into the image the networks see. */
    const decode: string -> Image

    var isLoadingModels: bool
    var selectedImage: string
    var selectedFile: Option<FileInfo>
    var isPredicting: bool
    var predictions: Option<seq<Prediction>>
    var currentScanResult: Option<ScanResult>

    /** Between events no prediction is in progress: every path of
        `handlePredict` that sets the flag clears it again. */
    ghost predicate Valid()
      reads this, service
    {
      service.Valid() && !isPredicting
    }

    constructor(store: AppStore, service: TensorFlowService, decode: string -> Image)
      requires service.Valid()
      ensures Valid()
      ensures this.store == store && this.service == service && this.decode == decode
      ensures !isLoadingModels && selectedImage == "" && selectedFile == None
      ensures !isPredicting && predictions == None && currentScanResult == None
    {
      this.store := store;
      this.service := service;
      this.decode := decode;
      isLoadingModels := false;
      selectedImage := "";
      selectedFile := None;
      isPredicting := false;
      predictions := None;
      currentScanResult := None;
    }

    /** The effect on `[modelsLoaded, isLoadingModels]`: it starts a load only
        when the models are neither loaded nor loading, and marks them loaded
        only when the load succeeded. Returns whether a load was started. */
    method ModelLoadEffect(ready: bool, cancer: LoadAttempt, classifier: LoadAttempt) returns (started: bool)
      requires Valid() && store != service as object
      modifies this, store, service
      ensures Valid()
      ensures started <==> !old(store.modelsLoaded) && !old(isLoadingModels)
      ensures !started ==> unchanged(store) && unchanged(service) && isLoadingModels == old(isLoadingModels)
      ensures started ==> !isLoadingModels
      ensures started ==> (store.modelsLoaded <==> service.isInitialized)
      ensures started ==>
        (store.modelsLoaded <==> old(service.isInitialized) || (ready && cancer.Loaded? && classifier.Loaded?))
      ensures started && old(service.isInitialized) ==> unchanged(service)
      ensures started && !old(service.isInitialized) ==>
        && service.cancerModel == (if ready && !cancer.NotLoaded? then Some(cancer.model) else old(service.cancerModel))
        && service.classifierModel ==
          (if ready && cancer.Loaded? && !classifier.NotLoaded? then Some(classifier.model) else old(service.classifierModel))
      ensures store.theme == old(store.theme) && store.currentPatient == old(store.currentPatient)
      ensures store.scanHistory == old(store.scanHistory)
      ensures selectedImage == old(selectedImage) && selectedFile == old(selectedFile)
      ensures isPredicting == old(isPredicting) && predictions == old(predictions)
      ensures currentScanResult == old(currentScanResult)
    {
      if store.modelsLoaded || isLoadingModels {
        return false;
      }
      isLoadingModels := true;
      var r := service.LoadModels(ready, cancer, classifier);
      if r.Success? {
        store.SetModelsLoaded(true);
      }
      isLoadingModels := false;
      return true;
    }

    /** `handleImageSelect`. */
    method HandleImageSelect(file: FileInfo, dataUrl: string)
      modifies this
      ensures selectedFile == Some(file) && selectedImage == dataUrl && predictions == None
      ensures isLoadingModels == old(isLoadingModels) && isPredicting == old(isPredicting)
      ensures currentScanResult == old(currentScanResult)
    {
      selectedFile := Some(file);
      selectedImage := dataUrl;
      predictions := None;
    }

    /** `handleClearImage`. */
    method HandleClearImage()
      modifies this
      ensures selectedImage == "" && selectedFile == None && predictions == None
      ensures isLoadingModels == old(isLoadingModels) && isPredicting == old(isPredicting)
      ensures currentScanResult == old(currentScanResult)
    {
      selectedImage := "";
      selectedFile := None;
      predictions := None;
    }

    /** The end of a completed analysis: the ranking is shown, the record is
        built from it, and it is saved to the account or, failing that, to the
        local history. */
    method Record(env: Environment, results: seq<Prediction>) returns (outcome: PredictOutcome)
      requires |results| > 0
      modifies this, store
      ensures predictions == Some(results)
      ensures outcome.SavedToAccount? || outcome.SavedLocally?
      ensures outcome.scan == BuildScan(env, old(store.currentPatient), results, selectedImage)
      ensures currentScanResult == Some(outcome.scan)
      ensures outcome.SavedToAccount? <==> env.authenticated && env.saveSucceeds
      ensures outcome.SavedToAccount? ==> unchanged(store)
      ensures outcome.SavedLocally? ==> store.scanHistory == Prepend(old(store.scanHistory), outcome.scan)
      ensures store.theme == old(store.theme) && store.currentPatient == old(store.currentPatient)
      ensures store.modelsLoaded == old(store.modelsLoaded)
      ensures selectedImage == old(selectedImage) && selectedFile == old(selectedFile)
      ensures isLoadingModels == old(isLoadingModels) && isPredicting == old(isPredicting)
    {
      predictions := Some(results);
      var scan := BuildScan(env, store.currentPatient, results, selectedImage);
      currentScanResult := Some(scan);
      if env.authenticated && env.saveSucceeds {
        outcome := SavedToAccount(scan);
      } else {
        store.AddScanResult(scan);
        outcome := SavedLocally(scan);
      }
    }

    /** `handlePredict`. */
    method HandlePredict(env: Environment) returns (outcome: PredictOutcome)
      requires Valid() && store != service as object
      modifies this, store, service
      ensures Valid()
      ensures !isPredicting
      ensures outcome == NoImage <==> old(selectedImage) == "" || !old(store.modelsLoaded)
      // nothing happens before the guard passes
      ensures outcome == NoImage ==> unchanged(store) && unchanged(service) && predictions == old(predictions)
      // a refused image is never classified and leaves no record anywhere
      ensures outcome == NotSkin ==>
        predictions == None && currentScanResult == old(currentScanResult) && unchanged(store)
        && service.classifierModel.Some? && !IsSkinImage(service.validatorNet(service.classifierModel.value, decode(selectedImage)))
      ensures outcome.Failed? ==> outcome.message == LoadFailure && unchanged(store) && predictions == None
      ensures outcome.Failed? ==> currentScanResult == old(currentScanResult)
      // the analysis throws exactly when the on-demand load inside the validator fails
      ensures outcome.Failed? <==>
        && old(selectedImage) != "" && old(store.modelsLoaded) && old(service.classifierModel).None?
        && !(env.ready && env.cancer.Loaded? && env.classifier.Loaded?)
      // the service keeps its models, or holds exactly what the on-demand load produced
      ensures outcome != NoImage && old(service.classifierModel).Some? ==> unchanged(service)
      ensures outcome != NoImage && old(service.classifierModel).None? ==>
        && (service.isInitialized <==> env.ready && env.cancer.Loaded? && env.classifier.Loaded?)
        && service.cancerModel == (if env.ready && !env.cancer.NotLoaded? then Some(env.cancer.model) else old(service.cancerModel))
        && service.classifierModel ==
          (if env.ready && env.cancer.Loaded? && !env.classifier.NotLoaded? then Some(env.classifier.model)
           else old(service.classifierModel))
      // a completed analysis is ranked, recorded and stored in exactly one place
      ensures outcome.SavedToAccount? || outcome.SavedLocally? ==>
        service.cancerModel.Some?
        && predictions == Some(Rank(service.lesionNet(service.cancerModel.value, decode(old(selectedImage)))))
        && outcome.scan == BuildScan(env, old(store.currentPatient), predictions.value, old(selectedImage))
        && currentScanResult == Some(outcome.scan)
      ensures outcome.SavedToAccount? <==>
        outcome != NoImage && outcome != NotSkin && !outcome.Failed? && env.authenticated && env.saveSucceeds
      ensures outcome.SavedToAccount? ==> unchanged(store)
      ensures outcome.SavedLocally? ==> store.scanHistory == Prepend(old(store.scanHistory), outcome.scan)
      ensures store.theme == old(store.theme) && store.currentPatient == old(store.currentPatient)
      ensures store.modelsLoaded == old(store.modelsLoaded)
      ensures selectedImage == old(selectedImage) && selectedFile == old(selectedFile)
      ensures isLoadingModels == old(isLoadingModels)
    {
      if selectedImage == "" || !store.modelsLoaded {
        return NoImage;
      }
      isPredicting := true;
      predictions := None;
      var img := decode(selectedImage);
      var valid := service.ValidateSkinImage(img, env.ready, env.cancer, env.classifier);
      if valid.Failure? {
        isPredicting := false;
        return Failed(valid.error);
      }
      if !valid.value {
        isPredicting := false;
        return NotSkin;
      }
      var results := service.PredictCancer(img, env.ready, env.cancer, env.classifier);
      if results.Failure? {
        // the validator only succeeds once the lesion net is loaded, so
        // `predictCancer` cannot throw here
        assert false;
      }
      outcome := Record(env, results.value);
      isPredicting := false;
    }
  }
}
