/**
 * The hybrid remover: a content classifier that scores two detector signals
 * and routes the image to MediaPipe or to one of rembg's models, a lazily
 * filled cache of rembg sessions, and the ordered fallback chain between them.
 *
 * MediaPipe, OpenCV and rembg are foreign: their outcomes for a given image
 * come from a `Toolkit` value. Confidence is kept in integer tenths.
 */
module Hybrid {
  import opened Wrappers
  import opened Imaging

  const AllFailed := "All background removal methods failed"

  datatype Remover = MediaPipe | Rembg

  datatype Characteristics = Characteristics(width: nat, height: nat, isPortrait: bool, isHighRes: bool)

  /** The detection record; `characteristics` is `None` while it is still the empty dictionary. */
  datatype DetectionResult = DetectionResult(
    primaryType: string,
    confidence: nat,
    detectedHumans: nat,
    detectedFaces: nat,
    hasPose: bool,
    characteristics: Option<Characteristics>,
    remover: Remover,
    model: string)

  /** The record `detect_image_content` starts from. */
  const Initial := DetectionResult("general", 0, 0, 0, false, None, Rembg, "u2net")

  /**
   * What the detectors report for one image: whether MediaPipe's three models
   * are initialised, the number of faces and whether a pose was found (`None`
   * when that call raises), and the bitmap's size.
   */
  datatype Observation = Observation(ready: bool, faces: Option<nat>, pose: Option<bool>, width: nat, height: nat)

  // ---------------------------------------------------------------- the classifier

  /** The record as the exception handler leaves it: rembg with the general model. */
  function Degrade(d: DetectionResult): DetectionResult {
    d.(remover := Rembg, model := "u2net")
  }

  function Characterise(width: nat, height: nat): (c: Characteristics)
    ensures c.width == width && c.height == height
    ensures c.isPortrait <==> height > width
    ensures c.isHighRes <==> width > 1000 || height > 1000
  {
    Characteristics(width, height, height > width, width > 1000 || height > 1000)
  }

  /** Step 4 of the classifier: thresholds 0.6 and 0.3, then orientation. */
  function Route(d: DetectionResult, c: Characteristics): DetectionResult {
    if d.confidence >= 6 then
      var human := d.(primaryType := "human", detectedHumans := 1);
      if c.isPortrait && d.detectedFaces > 0 then human.(remover := MediaPipe)
      else human.(remover := Rembg, model := "u2net_human_seg")
    else if d.confidence >= 3 then
      d.(primaryType := "human_possible", remover := Rembg, model := "u2net_human_seg")
    else
      d.(primaryType := "object", remover := Rembg,
         model := if c.isPortrait then "u2net" else "isnet-general-use")
  }

  /** The run reached the routing step: nothing raised and `width / height` is defined. */
  predicate Completed(obs: Observation) {
    obs.ready && obs.faces.Some? && obs.pose.Some? && obs.height > 0
  }

  /** Face +0.4, pose +0.3, in tenths. */
  function Weight(faces: nat, pose: bool): nat {
    (if faces > 0 then 4 else 0) + (if pose then 3 else 0)
  }

  /**
   * `detect_image_content` after the colour conversion: the record is built
   * step by step; any exception (a failed initialisation, a detector that
   * raises, a zero height in the aspect ratio) leaves what was recorded so far
   * and recommends rembg with `u2net`.
   */
  function DetectContent(obs: Observation): (r: DetectionResult)
    ensures r.confidence in {0, 3, 4, 7}
    ensures Completed(obs) ==>
      r.confidence == Weight(obs.faces.value, obs.pose.value)
      && r.detectedFaces == obs.faces.value && r.hasPose == obs.pose.value
      && r.characteristics == Some(Characterise(obs.width, obs.height))
    ensures !Completed(obs) ==>
      r.primaryType == "general" && r.detectedHumans == 0 && r.characteristics.None?
      && r.remover == Rembg && r.model == "u2net"
    ensures r.primaryType == "human" <==> Completed(obs) && r.confidence >= 6
    ensures r.primaryType == "human" ==>
      r.detectedHumans == 1
      && (r.remover == MediaPipe <==> obs.height > obs.width && obs.faces.value > 0)
      && (r.remover == Rembg ==> r.model == "u2net_human_seg")
    ensures r.primaryType == "human_possible" <==> Completed(obs) && 3 <= r.confidence < 6
    ensures r.primaryType == "human_possible" ==> r.remover == Rembg && r.model == "u2net_human_seg"
    ensures r.primaryType == "object" <==> Completed(obs) && r.confidence < 3
    ensures r.primaryType == "object" ==>
      r.remover == Rembg && r.model == (if obs.height > obs.width then "u2net" else "isnet-general-use")
    ensures r.remover == MediaPipe ==> r.model == "u2net"
    ensures r.primaryType != "human" ==> r.detectedHumans == 0
  {
    if !obs.ready || obs.faces.None? then Degrade(Initial)
    else
      var afterFaces :=
        if obs.faces.value > 0 then Initial.(detectedFaces := obs.faces.value, confidence := 4) else Initial;
      if obs.pose.None? then Degrade(afterFaces)
      else
        var afterPose :=
          if obs.pose.value then afterFaces.(hasPose := true, confidence := afterFaces.confidence + 3)
          else afterFaces;
        if obs.height == 0 then Degrade(afterPose)
        else
          var c := Characterise(obs.width, obs.height);
          Route(afterPose.(characteristics := Some(c)), c)
  }

  /** A strong human detection needs both signals: 0.4 alone and 0.3 alone stay below 0.6. */
  lemma HumanNeedsFaceAndPose(obs: Observation)
    requires DetectContent(obs).primaryType == "human"
    ensures obs.faces.value > 0 && obs.pose.value
  {
  }

  /** A failure after the face detector keeps the face count but not the routing. */
  lemma PoseFailureKeepsFaces(obs: Observation)
    requires obs.ready && obs.faces.Some? && obs.pose.None?
    ensures var r := DetectContent(obs);
      r.detectedFaces == obs.faces.value && r.confidence == Weight(obs.faces.value, false)
      && r.primaryType == "general" && r.remover == Rembg && r.model == "u2net"
  {
  }

  // ---------------------------------------------------------------- foreign collaborators

  datatype HandleState = Absent | Live | Closed

  /** MediaPipe's selfie segmentation: raised, returned no mask, or a thresholded mask. */
  datatype MaskOutcome = Raised | NoMask | Mask(bits: seq<bool>)

  datatype Session = Session(model: string, serial: nat)

  /**
   * Outcomes of the foreign calls: the OpenCV conversion (`Some` error text
   * when it raises), whether each MediaPipe constructor succeeds, the detectors,
   * the selfie segmenter, rembg's `new_session` (`None` when it raises) and
   * rembg's `remove` with or without a session (`None` when it raises).
   */
  datatype Toolkit = Toolkit(
    conversionError: RgbImage -> Option<string>,
    buildSelfie: bool,
    buildPose: bool,
    buildFace: bool,
    faces: RgbImage -> Option<nat>,
    pose: RgbImage -> Option<bool>,
    selfie: RgbImage -> MaskOutcome,
    newSession: string -> Option<Session>,
    remove: (RgbImage, Option<Session>) -> Option<RgbaImage>)

  datatype Handles = Handles(selfie: HandleState, pose: HandleState, face: HandleState)

  predicate Ready(h: Handles) {
    h.selfie != Absent && h.pose != Absent && h.face != Absent
  }

  function Built(h: HandleState, ok: bool): HandleState {
    if h == Absent && ok then Live else h
  }

  /**
   * `_init_mediapipe`: each model still `None` is constructed, in order; the
   * first constructor that raises stops the rest. A closed model is not `None`
   * and is not rebuilt.
   */
  function InitHandles(h: Handles, kit: Toolkit): (r: Handles)
    ensures Ready(r) <==> (h.selfie != Absent || kit.buildSelfie) && (h.pose != Absent || kit.buildPose)
                          && (h.face != Absent || kit.buildFace)
    ensures h.selfie != Absent ==> r.selfie == h.selfie
    ensures h.pose != Absent ==> r.pose == h.pose
    ensures h.face != Absent ==> r.face == h.face
    ensures Ready(h) ==> r == h
  {
    var s := Built(h.selfie, kit.buildSelfie);
    if s == Absent then h
    else
      var p := Built(h.pose, kit.buildPose);
      if p == Absent then h.(selfie := s)
      else Handles(s, p, Built(h.face, kit.buildFace))
  }

  // ---------------------------------------------------------------- session cache

  /** The session `_init_rembg_session` hands out: the cached one, else a fresh construction. */
  function CachedSession(sessions: map<string, Session>, name: string, kit: Toolkit): (s: Option<Session>)
    ensures name in sessions ==> s == Some(sessions[name])
    ensures name !in sessions ==> s == kit.newSession(name)
  {
    if name in sessions then Some(sessions[name]) else kit.newSession(name)
  }

  /** The cache after `_init_rembg_session`: a successful construction is inserted, a failure leaves it alone. */
  function SessionsAfter(sessions: map<string, Session>, name: string, kit: Toolkit): (m: map<string, Session>)
    ensures m.Keys == sessions.Keys + (if CachedSession(sessions, name, kit).Some? then {name} else {})
    ensures forall n :: n in sessions ==> m[n] == sessions[n]
    ensures CachedSession(sessions, name, kit).Some? ==> m[name] == CachedSession(sessions, name, kit).value
  {
    if name in sessions then sessions
    else match kit.newSession(name)
      case Some(s) => sessions[name := s]
      case None => sessions
  }

  /** Memoisation: after a successful call the same handle comes back, whatever the constructor would do now. */
  lemma SessionMemoised(sessions: map<string, Session>, name: string, kit: Toolkit, later: Toolkit)
    requires CachedSession(sessions, name, kit).Some?
    ensures CachedSession(SessionsAfter(sessions, name, kit), name, later) == CachedSession(sessions, name, kit)
    ensures SessionsAfter(SessionsAfter(sessions, name, kit), name, later) == SessionsAfter(sessions, name, kit)
  {
  }

  /** A failed construction caches nothing, so the next call tries again. */
  lemma SessionRetried(sessions: map<string, Session>, name: string, kit: Toolkit, later: Toolkit)
    requires CachedSession(sessions, name, kit).None?
    ensures SessionsAfter(sessions, name, kit) == sessions
    ensures CachedSession(SessionsAfter(sessions, name, kit), name, later) == later.newSession(name)
  {
  }

  // ---------------------------------------------------------------- the fallback chain

  /** What one removal attempt produces and leaves in the session cache. */
  datatype Run = Run(output: Option<RgbaImage>, sessions: map<string, Session>)

  /** `remove_background_rembg`: with the cached or new session, or without one when none could be built. */
  function RembgRun(sessions: map<string, Session>, image: RgbImage, name: string, kit: Toolkit): (r: Run)
    ensures r.sessions == SessionsAfter(sessions, name, kit)
    ensures CachedSession(sessions, name, kit).None? ==> r.output == kit.remove(image, None)
    ensures CachedSession(sessions, name, kit).Some? ==> r.output == kit.remove(image, CachedSession(sessions, name, kit))
  {
    Run(kit.remove(image, CachedSession(sessions, name, kit)), SessionsAfter(sessions, name, kit))
  }

  /** Running the same rembg model twice in a row gives the same outcome and the same cache. */
  lemma RembgRunRepeat(sessions: map<string, Session>, image: RgbImage, name: string, kit: Toolkit)
    ensures RembgRun(RembgRun(sessions, image, name, kit).sessions, image, name, kit) ==
            RembgRun(sessions, image, name, kit)
  {
  }

  /** The selfie mask MediaPipe yields for the image, when every step before `putalpha` succeeds. */
  function SelfieMask(ready: bool, image: RgbImage, kit: Toolkit): (m: Option<seq<bool>>)
    ensures m.Some? ==> ready && kit.conversionError(image).None? && |m.value| == |image.pixels|
  {
    if !ready || kit.conversionError(image).Some? then None
    else match kit.selfie(image)
      case Mask(bits) => if |bits| == |image.pixels| then Some(bits) else None
      case _ => None
  }

  /** `remove_background_mediapipe`: the selfie mask as alpha, else rembg with `u2net_human_seg`. */
  function MediapipeRun(sessions: map<string, Session>, ready: bool, image: RgbImage, kit: Toolkit): (r: Run)
    ensures SelfieMask(ready, image, kit).Some? ==>
      r == Run(Some(PutAlpha(image, SelfieMask(ready, image, kit).value)), sessions)
    ensures SelfieMask(ready, image, kit).None? ==> r == RembgRun(sessions, image, "u2net_human_seg", kit)
  {
    match SelfieMask(ready, image, kit)
    case Some(bits) => Run(Some(PutAlpha(image, bits)), sessions)
    case None => RembgRun(sessions, image, "u2net_human_seg", kit)
  }

  /** The outcome of `process_image` and the cache it leaves. */
  datatype Processed = Processed(result: Result<(RgbaImage, DetectionResult), string>, sessions: map<string, Session>)

  /**
   * `process_image` after classification: the recommended remover, then one
   * retry with rembg `u2net` that also rewrites the recommendation, then the
   * final error.
   */
  function ProcessRun(sessions: map<string, Session>, d: DetectionResult, ready: bool,
                      image: RgbImage, kit: Toolkit): (r: Processed)
    ensures var primary := if d.remover == MediaPipe then MediapipeRun(sessions, ready, image, kit)
                           else RembgRun(sessions, image, d.model, kit);
      (primary.output.Some? ==> r == Processed(Ok((primary.output.value, d)), primary.sessions))
      && (primary.output.None? ==>
            var retry := RembgRun(primary.sessions, image, "u2net", kit);
            r.sessions == retry.sessions
            && (retry.output.Some? ==> r.result == Ok((retry.output.value, Degrade(d))))
            && (retry.output.None? ==> r.result == Err(AllFailed)))
    ensures r.result.Ok? ==> r.result.value.1 == d || r.result.value.1 == Degrade(d)
    ensures r.result.Err? ==> r.result.error == AllFailed
  {
    var primary := if d.remover == MediaPipe then MediapipeRun(sessions, ready, image, kit)
                   else RembgRun(sessions, image, d.model, kit);
    if primary.output.Some? then Processed(Ok((primary.output.value, d)), primary.sessions)
    else
      var retry := RembgRun(primary.sessions, image, "u2net", kit);
      if retry.output.Some? then Processed(Ok((retry.output.value, Degrade(d))), retry.sessions)
      else Processed(Err(AllFailed), retry.sessions)
  }

  /**
   * When the classifier already chose rembg with `u2net`, the retry repeats the
   * very same call: it cannot rescue a failure, so the request fails.
   */
  lemma RetryWithSameModelCannotRescue(sessions: map<string, Session>, d: DetectionResult, ready: bool,
                                       image: RgbImage, kit: Toolkit)
    requires d.remover == Rembg && d.model == "u2net"
    requires RembgRun(sessions, image, "u2net", kit).output.None?
    ensures ProcessRun(sessions, d, ready, image, kit).result == Err(AllFailed)
  {
    RembgRunRepeat(sessions, image, "u2net", kit);
  }

  // ---------------------------------------------------------------- the remover object

  class HybridBackgroundRemover {
    var selfie: HandleState
    var pose: HandleState
    var face: HandleState
    var sessions: map<string, Session>

    function CurrentHandles(): Handles
      reads this
    {
      Handles(selfie, pose, face)
    }

    constructor ()
      ensures CurrentHandles() == Handles(Absent, Absent, Absent) && sessions == map[]
    {
      selfie, pose, face := Absent, Absent, Absent;
      sessions := map[];
    }

    /** `_init_mediapipe`; `ready` says whether it returned without raising. */
    method InitMediapipe(kit: Toolkit) returns (ready: bool)
      modifies this`selfie, this`pose, this`face
      ensures CurrentHandles() == InitHandles(old(CurrentHandles()), kit)
      ensures ready <==> Ready(CurrentHandles())
    {
      if selfie == Absent {
        if !kit.buildSelfie {
          return false;
        }
        selfie := Live;
      }
      if pose == Absent {
        if !kit.buildPose {
          return false;
        }
        pose := Live;
      }
      if face == Absent {
        if !kit.buildFace {
          return false;
        }
        face := Live;
      }
      ready := true;
    }

    /** `_init_rembg_session`. */
    method InitRembgSession(name: string, kit: Toolkit) returns (session: Option<Session>)
      modifies this`sessions
      ensures session == CachedSession(old(sessions), name, kit)
      ensures sessions == SessionsAfter(old(sessions), name, kit)
    {
      if name !in sessions {
        var built := kit.newSession(name);
        if built.None? {
          return None;
        }
        sessions := sessions[name := built.value];
      }
      session := Some(sessions[name]);
    }

    /**
     * `detect_image_content`. The colour conversion runs before the `try`, so
     * its failure propagates; everything after it degrades to the default.
     */
    method DetectImageContent(image: RgbImage, kit: Toolkit) returns (r: Result<DetectionResult, string>)
      modifies this`selfie, this`pose, this`face
      ensures kit.conversionError(image).Some? ==>
        r == Err(kit.conversionError(image).value) && CurrentHandles() == old(CurrentHandles())
      ensures kit.conversionError(image).None? ==>
        CurrentHandles() == InitHandles(old(CurrentHandles()), kit)
        && r == Ok(DetectContent(Observation(Ready(CurrentHandles()), kit.faces(image), kit.pose(image),
                                             image.width, image.height)))
    {
      var failure := kit.conversionError(image);
      if failure.Some? {
        return Err(failure.value);
      }
      var ready := InitMediapipe(kit);
      var obs := Observation(ready, kit.faces(image), kit.pose(image), image.width, image.height);
      r := Ok(DetectContent(obs));
    }

    /** `remove_background_rembg`. */
    method RemoveBackgroundRembg(image: RgbImage, name: string, kit: Toolkit) returns (out: Option<RgbaImage>)
      modifies this`sessions
      ensures Run(out, sessions) == RembgRun(old(sessions), image, name, kit)
    {
      var session := InitRembgSession(name, kit);
      if session.Some? {
        out := kit.remove(image, session);
      } else {
        out := kit.remove(image, None);
      }
    }

    /**
     * `remove_background_mediapipe`. A missing mask sends the image to rembg
     * from inside the `try`, so a failure there is caught and rembg is called a
     * second time with the same model.
     */
    method RemoveBackgroundMediapipe(image: RgbImage, kit: Toolkit) returns (out: Option<RgbaImage>)
      modifies this
      ensures CurrentHandles() == InitHandles(old(CurrentHandles()), kit)
      ensures Run(out, sessions) == MediapipeRun(old(sessions), Ready(CurrentHandles()), image, kit)
    {
      var ready := InitMediapipe(kit);
      if !ready || kit.conversionError(image).Some? {
        out := RemoveBackgroundRembg(image, "u2net_human_seg", kit);
        return;
      }
      match kit.selfie(image) {
        case Mask(bits) =>
          if |bits| == |image.pixels| {
            out := Some(PutAlpha(image, bits));
          } else {
            out := RemoveBackgroundRembg(image, "u2net_human_seg", kit);
          }
        case NoMask =>
          ghost var before := sessions;
          out := RemoveBackgroundRembg(image, "u2net_human_seg", kit);
          if out.None? {
            RembgRunRepeat(before, image, "u2net_human_seg", kit);
            out := RemoveBackgroundRembg(image, "u2net_human_seg", kit);
          }
        case Raised =>
          out := RemoveBackgroundRembg(image, "u2net_human_seg", kit);
      }
    }

    /** `process_image`: classify, remove, retry once with rembg `u2net`. */
    method ProcessImage(image: RgbImage, kit: Toolkit) returns (r: Result<(RgbaImage, DetectionResult), string>)
      modifies this
      ensures kit.conversionError(image).Some? ==>
        r == Err(kit.conversionError(image).value)
        && CurrentHandles() == old(CurrentHandles()) && sessions == old(sessions)
      ensures kit.conversionError(image).None? ==>
        var handles := InitHandles(old(CurrentHandles()), kit);
        var d := DetectContent(Observation(Ready(handles), kit.faces(image), kit.pose(image),
                                           image.width, image.height));
        CurrentHandles() == handles
        && Processed(r, sessions) == ProcessRun(old(sessions), d, Ready(handles), image, kit)
    {
      var detection := DetectImageContent(image, kit);
      if detection.Err? {
        return Err(detection.error);
      }
      var d := detection.value;
      var processed: Option<RgbaImage>;
      if d.remover == MediaPipe {
        processed := RemoveBackgroundMediapipe(image, kit);
      } else {
        processed := RemoveBackgroundRembg(image, d.model, kit);
      }
      if processed.Some? {
        return Ok((processed.value, d));
      }
      var fallback := RemoveBackgroundRembg(image, "u2net", kit);
      if fallback.Some? {
        r := Ok((fallback.value, d.(remover := Rembg, model := "u2net")));
      } else {
        r := Err(AllFailed);
      }
    }

    /** `cleanup`: open MediaPipe models are closed (not reset) and the session cache is emptied. */
    method Cleanup()
      modifies this
      ensures selfie == (if old(selfie) == Absent then Absent else Closed)
      ensures pose == (if old(pose) == Absent then Absent else Closed)
      ensures face == (if old(face) == Absent then Absent else Closed)
      ensures sessions == map[]
    {
      if selfie != Absent {
        selfie := Closed;
      }
      if pose != Absent {
        pose := Closed;
      }
      if face != Absent {
        face := Closed;
      }
      sessions := map[];
    }
  }
}
