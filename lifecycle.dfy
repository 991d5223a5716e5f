/** The component's lifecycle: its React state and the chain of effects gated by
    the readiness flags (script load, then model load, then camera and detection
    loop). Each callback or effect body is one method; the external library, the
    camera and the clock are reduced to the outcomes passed in as parameters. */
module Lifecycle {
  import opened Emotions
  import opened View

  /** The error message set when the detection library's script fails to load. */
  const ScriptError := "Face-API.js yüklenemedi"
  /** The prefix of the error message set when a model bundle fails to load. */
  const ModelErrorPrefix := "Modeller yüklenirken hata oluştu: "
  /** The error message set when the camera stream is refused. */
  const CameraError := "Kameraya erişim izni verilmedi veya kamera bulunamadı."

  /** How the two concurrent model loads settle: both resolve, or one rejects
      with an error whose message is given. */
  datatype ModelLoad = ModelsResolved | ModelsRejected(message: string)

  /** How the request for a 640x480 video stream settles. */
  datatype CameraAccess = StreamGranted | StreamRefused

  /** What a detection tick sees of the video and canvas refs. */
  datatype Frame = Frame(video: bool, canvas: bool, paused: bool, ended: bool)

  /** A tick goes on to call the detector only for a mounted, playing video and a mounted canvas. */
  predicate FrameReady(f: Frame) {
    f.video && f.canvas && !f.paused && !f.ended
  }

  /** The readiness stage the flags encode; Failed is terminal. */
  datatype Stage = LibraryLoading | ModelsLoading | ModelsReady | CameraReady | Failed(message: string) {
    function Rank(): nat {
      match this
      case LibraryLoading => 0
      case ModelsLoading => 1
      case ModelsReady => 2
      case CameraReady => 3
      case Failed(_) => 4
    }
  }

  /** A transition only moves forward, and nothing leaves a failure. */
  predicate Advances(before: Stage, after: Stage) {
    before.Rank() <= after.Rank() && (before.Failed? ==> after == before)
  }

  class EmotionDetector {
    // React state of the component
    var emotions: Option<Expressions>
    var isLoading: bool
    var error: Option<string>
    var modelsLoaded: bool
    var scriptLoaded: bool
    // what the effects have set going
    var scriptSettled: bool     // the script element has fired load or error
    var modelLoadStarted: bool  // loadModels has run past its gate
    var cameraRequested: bool   // startVideo has run past its gate
    var streamAttached: bool    // the video element holds the camera stream
    var timerRunning: bool      // the 100 ms detection interval is set

    /** The invariant the gated effect chain keeps. */
    ghost predicate Valid()
      reads this
    {
      (scriptLoaded ==> scriptSettled) &&
      (modelLoadStarted ==> scriptLoaded) &&
      (modelsLoaded ==> modelLoadStarted) &&
      (isLoading <==> !modelLoadStarted) &&
      (cameraRequested ==> modelsLoaded) &&
      (streamAttached ==> cameraRequested) &&
      (timerRunning ==> modelsLoaded) &&
      (emotions.Some? ==> timerRunning) &&
      (error.Some? ==>
        (error.value == ScriptError && scriptSettled && !scriptLoaded) ||
        (ModelErrorPrefix <= error.value && modelLoadStarted && !modelsLoaded) ||
        (error.value == CameraError && cameraRequested && !streamAttached))
    }

    function Stage(): Stage
      reads this
    {
      if error.Some? then Failed(error.value)
      else if !scriptLoaded then LibraryLoading
      else if !modelsLoaded then ModelsLoading
      else if !streamAttached then ModelsReady
      else CameraReady
    }

    /** The panels the current state renders. */
    function Screen(): Panels
      reads this
    {
      Render(emotions, isLoading, error)
    }

    /** The state on mount: nothing loaded, spinner on, no error, no expressions. */
    constructor ()
      ensures Valid() && Stage() == LibraryLoading
      ensures emotions.None? && isLoading && error.None? && !modelsLoaded && !scriptLoaded
      ensures !scriptSettled && !modelLoadStarted && !cameraRequested && !streamAttached && !timerRunning
    {
      emotions := None;
      isLoading := true;
      error := None;
      modelsLoaded := false;
      scriptLoaded := false;
      scriptSettled := false;
      modelLoadStarted := false;
      cameraRequested := false;
      streamAttached := false;
      timerRunning := false;
    }

    /** The script element's load event: the library is available. */
    method OnScriptLoad()
      requires Valid() && !scriptSettled
      modifies this`scriptLoaded, this`scriptSettled
      ensures Valid() && Advances(old(Stage()), Stage())
      ensures scriptLoaded && scriptSettled
      ensures Stage() == ModelsLoading
    {
      scriptLoaded := true;
      scriptSettled := true;
    }

    /** The script element's error event: the error is set and the library never
        becomes available, so nothing downstream can start. */
    method OnScriptError()
      requires Valid() && !scriptSettled
      modifies this`error, this`scriptSettled
      ensures Valid() && Advances(old(Stage()), Stage())
      ensures error == Some(ScriptError) && scriptSettled && !scriptLoaded
      ensures Stage() == Failed(ScriptError)
    {
      error := Some(ScriptError);
      scriptSettled := true;
    }

    /** The model-loading effect. It returns at once unless the script is loaded;
        otherwise it loads both models and, only when both resolve, sets
        modelsLoaded; a rejection sets the prefixed error instead. Either way the
        spinner goes off. React runs the effect once per change of scriptLoaded,
        which changes at most once, so the load is begun at most once. */
    method RunModelEffect(outcome: ModelLoad)
      requires Valid() && !modelLoadStarted
      modifies this`isLoading, this`modelLoadStarted, this`modelsLoaded, this`error
      ensures Valid() && Advances(old(Stage()), Stage())
      ensures !old(scriptLoaded) ==> unchanged(this)
      ensures old(scriptLoaded) ==> modelLoadStarted && !isLoading
      ensures old(scriptLoaded) && outcome.ModelsResolved? ==>
        modelsLoaded && error.None? && Stage() == ModelsReady
      ensures old(scriptLoaded) && outcome.ModelsRejected? ==>
        !modelsLoaded && error == Some(ModelErrorPrefix + outcome.message)
    {
      if !scriptLoaded {
        return;
      }
      modelLoadStarted := true;
      isLoading := true;
      match outcome
      case ModelsResolved =>
        modelsLoaded := true;
        isLoading := false;
      case ModelsRejected(message) =>
        error := Some(ModelErrorPrefix + message);
        isLoading := false;
    }

    /** The camera effect. It returns at once unless the models are loaded;
        otherwise it requests the stream and attaches it to the video element if
        that is mounted, or sets the camera error when the request is refused. */
    method RunCameraEffect(access: CameraAccess, videoMounted: bool)
      requires Valid() && !cameraRequested
      modifies this`cameraRequested, this`streamAttached, this`error
      ensures Valid() && Advances(old(Stage()), Stage())
      ensures !old(modelsLoaded) ==> unchanged(this)
      ensures old(modelsLoaded) ==> cameraRequested
      ensures old(modelsLoaded) ==> streamAttached == (access.StreamGranted? && videoMounted)
      ensures old(modelsLoaded) ==>
        error == if access.StreamGranted? then old(error) else Some(CameraError)
    {
      if !modelsLoaded {
        return;
      }
      cameraRequested := true;
      match access
      case StreamGranted =>
        if videoMounted {
          streamAttached := true;
        }
      case StreamRefused =>
        error := Some(CameraError);
    }

    /** The detection effect: the interval is set only once the models are loaded
        and the video element is mounted. */
    method RunDetectionEffect(videoMounted: bool)
      requires Valid() && !timerRunning
      modifies this`timerRunning
      ensures Valid() && Advances(old(Stage()), Stage())
      ensures timerRunning == (modelsLoaded && videoMounted)
    {
      if modelsLoaded && videoMounted {
        timerRunning := true;
      }
    }

    /** One tick of the detection interval. A missing, paused or ended video or a
        missing canvas makes it a no-op; otherwise the detector's answer replaces
        the expressions: the face's expressions, or null when no face is found. */
    method Tick(frame: Frame, detection: Option<Expressions>)
      requires Valid() && timerRunning
      modifies this`emotions
      ensures Valid() && Stage() == old(Stage())
      ensures emotions == if FrameReady(frame) then detection else old(emotions)
    {
      if !FrameReady(frame) {
        return;
      }
      match detection
      case Some(expressions) =>
        emotions := Some(expressions);
      case None =>
        emotions := None;
    }
  }

  /** After a script failure nothing downstream has begun, and the banner shows the
      error while the spinner stays on, since only the model load turns it off. */
  lemma ScriptFailureHalts(c: EmotionDetector)
    requires c.Valid() && c.error == Some(ScriptError)
    ensures !c.scriptLoaded && !c.modelLoadStarted && !c.modelsLoaded
    ensures !c.cameraRequested && !c.timerRunning && c.emotions.None?
    ensures c.Screen().errorBanner && c.Screen().spinner && !c.Screen().placeholder
  {
    assert ScriptError[0] != ModelErrorPrefix[0];
    assert ScriptError != CameraError;
  }

  /** Once the models are loaded the spinner is off for good, and with no error
      and no face the placeholder is what shows. */
  lemma ModelsLoadedScreen(c: EmotionDetector)
    requires c.Valid() && c.modelsLoaded
    ensures !c.Screen().spinner
    ensures c.error.None? && c.emotions.None? ==> c.Screen().placeholder && c.Screen().card.None?
  {
  }
}
