// The recording component of the mobile client: four state cells updated
// by startRecording and stopRecording, the mapping of the gateway's reply
// onto the transcript, the render guard of the transcript panel and the
// record/stop toggle. Each awaited platform call (creating the recording,
// stopping it, reading the file, the upload, decoding the reply) is an
// outcome parameter.

module Speech {
  import opened Text
  import Gateway

  /** An audio-recording resource, known only by identity. */
  datatype Handle = Handle(id: nat)

  /** The component's state cells: recording, isRecording, transcript, error. */
  datatype View = View(recording: Option<Handle>, isRecording: bool, transcript: string, error: string)

  const Idle := View(None, false, "", "")

  const Sentinel := "Error in prediction"
  const Fallback := "Situation unclear but concerning"
  const ProcessingFailed := "Failed to process audio"

  /** The flag is only ever raised together with a handle. */
  predicate Consistent(v: View)
  {
    v.isRecording ==> v.recording.Some?
  }

  /** The awaited steps after the recording has stopped; each can throw,
      and all of them land in the same catch. */
  datatype Step = GetInfo | ReadBase64 | Fetch | ParseJson

  /** The upload either throws at some step or yields the reply's
      transcript field (absent: None). */
  datatype Upload = Threw(at: Step) | Replied(transcript: Option<string>)

  /** stopAndUnloadAsync either throws, or succeeds and getURI gives a uri
      (null: None), after which the upload runs. */
  datatype StopOutcome = StopThrew | Stopped(uri: Option<string>, upload: Upload)

  /** JavaScript truthiness of a string that may be null. */
  predicate Present(s: Option<string>)
  {
    s.Some? && s.value != ""
  }

  /** startRecording: a created recording is kept and the flag raised; a
      failure is only logged. */
  function Start(v: View, created: Option<Handle>): (r: View)
    ensures Consistent(v) ==> Consistent(r)
    ensures r.isRecording <==> created.Some? || v.isRecording
    ensures r.transcript == v.transcript && r.error == v.error
  {
    match created
    case Some(h) => v.(recording := Some(h), isRecording := true)
    case None => v
  }

  /** The reply's transcript field: a sentinel-bearing transcript becomes
      the fallback phrase, any other non-empty one is shown verbatim, and
      both clear the error; a missing or empty one changes nothing. */
  function ApplyReply(v: View, transcript: Option<string>): (r: View)
    ensures r.recording == v.recording && r.isRecording == v.isRecording
    ensures !Present(transcript) ==> r == v
    ensures Present(transcript) ==> ShowsTranscript(r)
  {
    if !Present(transcript) then v
    else if Contains(transcript.value, Sentinel) then v.(transcript := Fallback, error := "")
    else v.(transcript := transcript.value, error := "")
  }

  /** The catch path of stopRecording. */
  function Failed(v: View): (r: View)
    ensures r.recording == v.recording && r.isRecording == v.isRecording
    ensures !ShowsTranscript(r)
  {
    v.(error := ProcessingFailed, transcript := "")
  }

  /** stopRecording: without a handle nothing happens; otherwise the flag
      drops first, the handle is released once stopping succeeds, a missing
      uri ends the call, and the upload's outcome decides the result. */
  function Stop(v: View, outcome: StopOutcome): (r: View)
    ensures r == v || !r.isRecording
    ensures Consistent(v) ==> Consistent(r)
  {
    if v.recording == None then v
    else
      var stopping := v.(isRecording := false);
      match outcome
      case StopThrew => Failed(stopping)
      case Stopped(uri, upload) =>
        var released := stopping.(recording := None);
        if !Present(uri) then released
        else match upload
          case Threw(_) => Failed(released)
          case Replied(transcript) => ApplyReply(released, transcript)
  }

  /** The transcript panel's render guard. */
  predicate ShowsTranscript(v: View)
  {
    v.transcript != "" && v.error == ""
  }

  datatype Action = StartAction | StopAction

  /** What the record button calls. */
  function ButtonAction(v: View): (a: Action)
    ensures a == StopAction <==> v.isRecording
  {
    if v.isRecording then StopAction else StartAction
  }

  /** The transcript field of the gateway's JSON body. */
  function TranscriptField(body: Gateway.Body): (t: Option<string>)
    ensures t.Some? <==> Gateway.HasTranscript(body)
  {
    match body
    case Saved(_, _, transcript, _) => Some(transcript)
    case Failure(_) => None
  }

  /** Both transitions keep the flag consistent with the handle. */
  lemma TransitionsKeepConsistent(v: View, created: Option<Handle>, outcome: StopOutcome)
    requires Consistent(v)
    ensures Consistent(Start(v, created))
    ensures Consistent(Stop(v, outcome))
  {
  }

  /** A successful start records with the new handle; a failed one changes
      nothing. */
  lemma StartOutcomes(v: View, h: Handle)
    ensures Start(v, Some(h)) == v.(recording := Some(h), isRecording := true)
    ensures Start(v, None) == v
  {
  }

  /** Without a handle, stopping changes nothing. */
  lemma StopWithoutHandleIsNoop(v: View, outcome: StopOutcome)
    requires v.recording == None
    ensures Stop(v, outcome) == v
  {
  }

  /** With a handle, every path ends not recording, and the handle is
      released exactly when stopping succeeded. */
  lemma StopEndsNotRecording(v: View, outcome: StopOutcome)
    requires v.recording.Some?
    ensures !Stop(v, outcome).isRecording
    ensures Stop(v, outcome).recording == None <==> outcome.Stopped?
    ensures outcome.StopThrew? ==> Stop(v, outcome).recording == v.recording
  {
  }

  /** Any exception once stopping has begun shows the error and clears the
      transcript, which hides the panel. */
  lemma ExceptionShowsError(v: View, outcome: StopOutcome)
    requires v.recording.Some?
    requires outcome.StopThrew? || (outcome.Stopped? && Present(outcome.uri) && outcome.upload.Threw?)
    ensures Stop(v, outcome).error == ProcessingFailed && Stop(v, outcome).transcript == ""
    ensures !ShowsTranscript(Stop(v, outcome))
  {
  }

  /** The reply mapping, case by case. */
  lemma ApplyReplyCases(v: View, transcript: Option<string>)
    ensures !Present(transcript) ==> ApplyReply(v, transcript) == v
    ensures Present(transcript) && Contains(transcript.value, Sentinel) ==>
      ApplyReply(v, transcript) == v.(transcript := Fallback, error := "")
    ensures Present(transcript) && !Contains(transcript.value, Sentinel) ==>
      ApplyReply(v, transcript) == v.(transcript := transcript.value, error := "")
    ensures ApplyReply(v, transcript).recording == v.recording
    ensures ApplyReply(v, transcript).isRecording == v.isRecording
  {
  }

  /** A non-empty reply transcript always shows the panel, with no error. */
  lemma NonEmptyReplyIsShown(v: View, transcript: Option<string>)
    requires Present(transcript)
    ensures ShowsTranscript(ApplyReply(v, transcript))
  {
  }

  /** A reply starting with the sentinel, such as "Error in prediction...",
      renders as the fallback phrase with no error banner. */
  lemma SentinelRendersFallback(v: View, reply: string)
    requires Sentinel <= reply
    ensures ApplyReply(v, Some(reply)).transcript == Fallback
    ensures ShowsTranscript(ApplyReply(v, Some(reply)))
  {
    assert Contains(reply, Sentinel);
  }

  /** A reply that merely contains the sentinel anywhere is masked too. */
  lemma SentinelAnywhereIsMasked(v: View, pre: string, post: string)
    ensures ApplyReply(v, Some(pre + Sentinel + post)).transcript == Fallback
  {
    ContainsInfix(pre, Sentinel, post);
  }

  lemma {:induction false} ContainsInfix(pre: string, needle: string, post: string)
    ensures Contains(pre + needle + post, needle)
  {
    var s := pre + needle + post;
    if pre == [] {
      assert s[..|needle|] == needle;
    } else {
      assert s[1..] == pre[1..] + needle + post;
      ContainsInfix(pre[1..], needle, post);
    }
  }

  /** The gateway's 500 reply has no transcript field, so the client keeps
      its previous transcript and error: no error is shown for it. */
  lemma GatewayFailureKeepsResult(v: View, code: Option<nat>, filePath: string, collected: Gateway.Collected)
    requires code != Some(0)
    ensures ApplyReply(v, TranscriptField(Gateway.Respond(code, filePath, collected).body)) == v
  {
  }

  /** Script output without two non-blank lines reaches the client as an
      empty transcript, which also changes nothing. */
  lemma EmptyGatewayResultKeepsResult(v: View, filePath: string, chunks: seq<string>)
    requires forall k :: 0 <= k < |chunks| ==> !Gateway.Qualifies(chunks[k])
    ensures ApplyReply(v, TranscriptField(Gateway.Respond(Some(0), filePath, Gateway.Collect(chunks)).body)) == v
  {
    Gateway.NoQualifyingChunkKeepsInitial(chunks);
  }

  /** One full press cycle from idle: a successful start, then any stop,
      leaves the component not recording. */
  lemma PressCycleEndsNotRecording(h: Handle, outcome: StopOutcome)
    ensures var recording := Start(Idle, Some(h));
      ButtonAction(recording) == StopAction && !Stop(recording, outcome).isRecording
      && ButtonAction(Stop(recording, outcome)) == StartAction
  {
  }

  /** The component instance. */
  class Recorder {
    var recording: Option<Handle>
    var isRecording: bool
    var transcript: string
    var error: string

    function State(): View
      reads this
    {
      View(recording, isRecording, transcript, error)
    }

    constructor ()
      ensures State() == Idle
    {
      recording := None;
      isRecording := false;
      transcript := "";
      error := "";
    }

    /** startRecording, given what Audio.Recording.createAsync produced
        (None: it threw). */
    method StartRecording(created: Option<Handle>)
      modifies this
      ensures State() == Start(old(State()), created)
    {
      if created.Some? {
        recording := created;
        isRecording := true;
      }
    }

    /** stopRecording, given the outcomes of its awaited steps. */
    method StopRecording(outcome: StopOutcome)
      modifies this
      ensures State() == Stop(old(State()), outcome)
    {
      if recording == None {
        return;
      }
      isRecording := false;
      match outcome {
        case StopThrew =>
          error := ProcessingFailed;
          transcript := "";
        case Stopped(uri, upload) =>
          recording := None;
          if uri == None || uri == Some("") {
            return;
          }
          match upload {
            case Threw(_) =>
              error := ProcessingFailed;
              transcript := "";
            case Replied(reply) =>
              if reply.Some? && reply.value != "" {
                if Contains(reply.value, Sentinel) {
                  transcript := Fallback;
                  error := "";
                } else {
                  transcript := reply.value;
                  error := "";
                }
              }
          }
      }
    }

    /** The record button: stop while recording, start otherwise. */
    method Press(created: Option<Handle>, outcome: StopOutcome)
      modifies this
      ensures old(isRecording) ==> State() == Stop(old(State()), outcome)
      ensures !old(isRecording) ==> State() == Start(old(State()), created)
      ensures Consistent(old(State())) ==> Consistent(State())
    {
      if isRecording {
        StopRecording(outcome);
      } else {
        StartRecording(created);
      }
    }
  }
}
