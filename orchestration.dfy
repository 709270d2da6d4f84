/** The request lifecycle of the `App` component (src/App.jsx). The state is
    described by a value (`State`) with one transition function per handler;
    the class `App` holds the same state in fields that its methods update step
    by step, and each method is proved to make the transition its function
    describes. The network call is an abstract outcome, success with a response
    or failure. */
module Orchestration {
  import opened Wrappers
  import opened ImageUploader
  import opened MeasurementResults
  import MeshViewer

  const ValidationError: string := "Please enter valid height and weight values."
  const FailureError: string := "Failed to process image. Please try again."

  /** The arguments of the one inference call a valid start issues. */
  datatype Request = Request(image: File, height: real, weight: real)

  /** How the inference call ends. */
  datatype Outcome = Succeeded(data: MeasurementResult) | Failed

  /** The six `useState` values. The two number inputs hold strings; the empty
      string is `None`, any other input is the number it spells. */
  datatype State = State(
    selectedImage: Option<File>,
    height: Option<real>,
    weight: Option<real>,
    isProcessing: bool,
    result: Option<MeasurementResult>,
    error: Option<string>)

  /** The error banner only ever shows one of the two fixed messages, and no
      message is shown while a request is in flight. */
  predicate Invariant(s: State) {
    && (s.error.None? || s.error.value == ValidationError || s.error.value == FailureError)
    && (s.isProcessing ==> s.error.None?)
  }

  /** The start button is enabled: `disabled={!selectedImage || isProcessing}` negated. */
  predicate CanStart(s: State) {
    s.selectedImage.Some? && !s.isProcessing
  }

  /** `!height || !weight || height <= 0 || weight <= 0` negated. */
  predicate InputsValid(height: Option<real>, weight: Option<real>) {
    height.Some? && weight.Some? && height.value > 0.0 && weight.value > 0.0
  }

  /** The initial `useState` values. */
  function Initial(): (s: State)
    ensures s.selectedImage.None? && s.height == Some(176.0) && s.weight == Some(65.0)
    ensures !s.isProcessing && s.result.None? && s.error.None?
    ensures Invariant(s) && !CanStart(s) && InputsValid(s.height, s.weight)
  {
    State(None, Some(176.0), Some(65.0), false, None, None)
  }

  /** `handleImageSelect`: the new image (possibly none) replaces the old one, and
      the result and error of the old one are cleared. */
  function Select(s: State, image: Option<File>): (r: State)
    ensures r.selectedImage == image && r.result.None? && r.error.None?
    ensures r.height == s.height && r.weight == s.weight && r.isProcessing == s.isProcessing
    ensures Invariant(s) ==> Invariant(r)
  {
    s.(selectedImage := image, result := None, error := None)
  }

  /** The synchronous part of `handleStartInference`: the new state and the
      request it issues, if any. */
  function Start(s: State): (r: (State, Option<Request>))
    ensures r.1.Some? <==> s.selectedImage.Some? && InputsValid(s.height, s.weight)
    ensures s.selectedImage.None? ==> r == (s, None)
    ensures s.selectedImage.Some? && !InputsValid(s.height, s.weight) ==>
              r.0 == s.(error := Some(ValidationError))
    ensures r.1.Some? ==>
              && r.1.value == Request(s.selectedImage.value, s.height.value, s.weight.value)
              && r.1.value.height > 0.0 && r.1.value.weight > 0.0
              && r.0 == s.(isProcessing := true, error := None)
  {
    if s.selectedImage.None? then (s, None)
    else if !InputsValid(s.height, s.weight) then (s.(error := Some(ValidationError)), None)
    else (s.(isProcessing := true, error := None),
          Some(Request(s.selectedImage.value, s.height.value, s.weight.value)))
  }

  /** The completion of `handleStartInference`: a response replaces the result
      wholesale, a failure sets the fixed error and keeps the result; either way
      the processing flag is reset (`finally`). */
  function Finish(s: State, outcome: Outcome): (r: State)
    ensures !r.isProcessing
    ensures r.selectedImage == s.selectedImage && r.height == s.height && r.weight == s.weight
    ensures outcome.Succeeded? ==> r.result == Some(outcome.data) && r.error == s.error
    ensures outcome.Failed? ==> r.result == s.result && r.error == Some(FailureError)
  {
    match outcome
    case Succeeded(data) => s.(result := Some(data), isProcessing := false)
    case Failed => s.(error := Some(FailureError), isProcessing := false)
  }

  /** What the uploader's effect does to the App: only a forwarded file (or a
      forwarded `null`) reaches `handleImageSelect`. */
  function Deliver(s: State, e: Effect): State {
    if e.Forwarded? then Select(s, e.image) else s
  }

  /** `result?.mesh_url`, the URL the mesh viewer is given. */
  function MeshUrlOf(s: State): Option<string> {
    if s.result.Some? then s.result.value.meshUrl else None
  }

  // ----- Runs of user and network events -----

  /** An event the App can see: a drop or pick of a file list on the uploader, the
      uploader's clear button, an edit of either input, a press of the start
      button, or the end of the request in flight. */
  datatype Event =
    | Upload(files: Option<seq<File>>)
    | Clear
    | EditHeight(height: Option<real>)
    | EditWeight(weight: Option<real>)
    | Click
    | Respond(outcome: Outcome)

  /** One event. A press of a disabled button does nothing, and a response only
      arrives for a request in flight. */
  function Step(s: State, e: Event): (r: (State, Option<Request>)) {
    match e
    case Upload(files) => (Deliver(s, SelectFirst(files)), None)
    case Clear => (Deliver(s, Forwarded(None)), None)
    case EditHeight(h) => (s.(height := h), None)
    case EditWeight(w) => (s.(weight := w), None)
    case Click => if CanStart(s) then Start(s) else (s, None)
    case Respond(o) => if s.isProcessing then (Finish(s, o), None) else (s, None)
  }

  /** A run: the final state, the requests issued in order, and the number of
      responses applied. */
  datatype Trace = Trace(final: State, requests: seq<Request>, completions: nat)

  function Run(s: State, events: seq<Event>): Trace
    decreases |events|
  {
    if events == [] then Trace(s, [], 0)
    else
      var step := Step(s, events[0]);
      var rest := Run(step.0, events[1..]);
      var issued := if step.1.Some? then [step.1.value] else [];
      var applied := if events[0].Respond? && s.isProcessing then 1 else 0;
      Trace(rest.final, issued + rest.requests, applied + rest.completions)
  }

  lemma StepKeepsInvariant(s: State, e: Event)
    requires Invariant(s)
    ensures Invariant(Step(s, e).0)
  {
  }

  /** Every state reachable from an invariant state keeps the invariant. */
  lemma {:induction false} RunKeepsInvariant(s: State, events: seq<Event>)
    requires Invariant(s)
    ensures Invariant(Run(s, events).final)
    decreases |events|
  {
    if events != [] {
      StepKeepsInvariant(s, events[0]);
      RunKeepsInvariant(Step(s, events[0]).0, events[1..]);
    }
  }

  /** The selected image, if any, passed the uploader's MIME test. */
  predicate ImageAccepted(s: State) {
    s.selectedImage.Some? ==> IsImageType(s.selectedImage.value.mimeType)
  }

  /** A request is issued only by a press of the enabled button, never while
      another is in flight, and it puts the App into the processing state. */
  lemma StepIssuesOnlyWhenIdle(s: State, e: Event)
    ensures Step(s, e).1.Some? ==> e == Click && !s.isProcessing && Step(s, e).0.isProcessing
    ensures s.isProcessing ==> Step(s, Click) == (s, None)
  {
  }

  /** At most one request is in flight at any time: the requests issued so far
      are the responses applied plus the one still pending, if any. */
  lemma {:induction false} RunOneInFlight(s: State, events: seq<Event>)
    ensures var t := Run(s, events);
            |t.requests| + (if s.isProcessing then 1 else 0)
              == t.completions + (if t.final.isProcessing then 1 else 0)
    decreases |events|
  {
    if events != [] {
      RunOneInFlight(Step(s, events[0]).0, events[1..]);
    }
  }

  /** No request of any run carries a missing or non-positive height or weight,
      or an image the uploader would have rejected. */
  lemma {:induction false} RunRequestsValid(s: State, events: seq<Event>)
    requires ImageAccepted(s)
    ensures ImageAccepted(Run(s, events).final)
    ensures forall r :: r in Run(s, events).requests ==>
              r.height > 0.0 && r.weight > 0.0 && IsImageType(r.image.mimeType)
    decreases |events|
  {
    if events != [] {
      var step := Step(s, events[0]);
      if events[0].Upload? {
        ForwardsOnlyFirstImage(events[0].files);
      }
      assert ImageAccepted(step.0);
      RunRequestsValid(step.0, events[1..]);
    }
  }

  /** A file the uploader rejects leaves the App exactly as it was. */
  lemma RejectedFileChangesNothing(s: State, file: File)
    requires !IsImageType(file.mimeType)
    ensures Deliver(s, ValidateAndSelect(file)) == s
  {
  }

  /** After any selection, including a clear, no results and no mesh are shown. */
  lemma SelectionHidesStaleOutput(s: State, image: Option<File>, base: string)
    ensures Render(Select(s, image).result).None?
    ensures MeshViewer.ViewFor(base, MeshUrlOf(Select(s, image))) == MeshViewer.Placeholder
  {
  }

  /** A file the uploader rejects (a PDF, say) is never selected, so a press right
      after dropping it on a fresh page sends nothing. */
  lemma RejectedUploadSendsNothing(file: File)
    requires !IsImageType(file.mimeType)
    ensures var t := Run(Initial(), [Upload(Some([file])), Click]);
            t.requests == [] && t.final == Initial()
  {
    assert Step(Initial(), Upload(Some([file]))).0 == Initial();
    assert Run(Initial(), []) == Trace(Initial(), [], 0);
    assert Run(Initial(), [Click]) == Trace(Initial(), [], 0);
  }

  /** A failed first request: the fixed error, no result, processing over, and one
      request with the default inputs. */
  lemma FailedRequestScenario(photo: File)
    requires IsImageType(photo.mimeType)
    ensures var t := Run(Initial(), [Upload(Some([photo])), Click, Respond(Failed)]);
            && t.final.result.None? && t.final.error == Some(FailureError)
            && !t.final.isProcessing && t.requests == [Request(photo, 176.0, 65.0)]
  {
    var s1 := Select(Initial(), Some(photo));
    var s2 := Start(s1).0;
    var s3 := Finish(s2, Failed);
    assert Run(s3, []) == Trace(s3, [], 0);
    assert Run(s2, [Respond(Failed)]) == Trace(s3, [], 1);
    assert Run(s1, [Click, Respond(Failed)]) == Trace(s3, [Request(photo, 176.0, 65.0)], 1);
  }

  /** A failed retry on the same image keeps the earlier result next to the error. */
  lemma EarlierResultSurvivesFailure(photo: File, data: MeasurementResult)
    requires IsImageType(photo.mimeType)
    ensures var t := Run(Initial(), [Upload(Some([photo])), Click, Respond(Succeeded(data)),
                                     Click, Respond(Failed)]);
            && t.final.result == Some(data) && t.final.error == Some(FailureError)
            && !t.final.isProcessing && |t.requests| == 2
  {
    var s1 := Select(Initial(), Some(photo));
    var s2 := Start(s1).0;
    var s3 := Finish(s2, Succeeded(data));
    var s4 := Start(s3).0;
    var s5 := Finish(s4, Failed);
    var req := Request(photo, 176.0, 65.0);
    assert Run(s5, []) == Trace(s5, [], 0);
    assert Run(s4, [Respond(Failed)]) == Trace(s5, [], 1);
    assert Run(s3, [Click, Respond(Failed)]) == Trace(s5, [req], 1);
    assert Run(s2, [Respond(Succeeded(data)), Click, Respond(Failed)]) == Trace(s5, [req], 2);
    assert Run(s1, [Click, Respond(Succeeded(data)), Click, Respond(Failed)]) == Trace(s5, [req, req], 2);
  }

  /** Clearing a height makes the next press set the validation error and issue nothing. */
  lemma ClearedHeightBlocksRequest(photo: File)
    requires IsImageType(photo.mimeType)
    ensures var t := Run(Initial(), [Upload(Some([photo])), EditHeight(None), Click]);
            && t.final.error == Some(ValidationError) && t.requests == []
            && !t.final.isProcessing
  {
    var s1 := Select(Initial(), Some(photo));
    var s2 := s1.(height := None);
    var s3 := Start(s2).0;
    assert Run(s3, []) == Trace(s3, [], 0);
    assert Run(s2, [Click]) == Trace(s3, [], 0);
    assert Run(s1, [EditHeight(None), Click]) == Trace(s3, [], 0);
  }

  /** The App component: the six state variables as fields. */
  class App {
    var selectedImage: Option<File>
    var height: Option<real>
    var weight: Option<real>
    var isProcessing: bool
    var result: Option<MeasurementResult>
    var error: Option<string>

    /** The current state as a value. */
    function Snapshot(): State
      reads this
    {
      State(selectedImage, height, weight, isProcessing, result, error)
    }

    constructor ()
      ensures Snapshot() == Initial()
    {
      selectedImage := None;
      height := Some(176.0);
      weight := Some(65.0);
      isProcessing := false;
      result := None;
      error := None;
    }

    method HandleImageSelect(image: Option<File>)
      modifies this
      ensures Snapshot() == Select(old(Snapshot()), image)
    {
      selectedImage := image;
      result := None;
      error := None;
    }

    /** The height input's change handler. */
    method SetHeight(h: Option<real>)
      modifies this
      ensures Snapshot() == old(Snapshot()).(height := h)
    {
      height := h;
    }

    /** The weight input's change handler. */
    method SetWeight(w: Option<real>)
      modifies this
      ensures Snapshot() == old(Snapshot()).(weight := w)
    {
      weight := w;
    }

    /** `handleStartInference` up to the `await`: returns the request it issues. */
    method HandleStartInference() returns (request: Option<Request>)
      modifies this
      ensures (Snapshot(), request) == Start(old(Snapshot()))
    {
      request := None;
      if selectedImage.None? {
        return;
      }
      if height.None? || weight.None? || height.value <= 0.0 || weight.value <= 0.0 {
        error := Some(ValidationError);
        return;
      }
      isProcessing := true;
      error := None;
      request := Some(Request(selectedImage.value, height.value, weight.value));
    }

    /** `handleStartInference` after the `await`: the `try`, `catch` and `finally`. */
    method CompleteInference(outcome: Outcome)
      modifies this
      ensures Snapshot() == Finish(old(Snapshot()), outcome)
    {
      match outcome {
        case Succeeded(data) =>
          result := Some(data);
        case Failed =>
          error := Some(FailureError);
      }
      isProcessing := false;
    }

    /** The start button: a press does nothing while it is disabled. */
    method PressStart() returns (request: Option<Request>)
      modifies this
      ensures (Snapshot(), request) == Step(old(Snapshot()), Click)
    {
      request := None;
      if selectedImage.Some? && !isProcessing {
        request := HandleStartInference();
      }
    }
  }
}
