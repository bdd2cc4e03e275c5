# Threat-detection voice pipeline: a Dafny model of its decision logic

The system records a short voice clip on a phone, uploads it to a small
Express gateway, and the gateway runs a Python script on the saved file. The
script sends the audio to a speech-to-text service, asks a chat model whether
the transcript is threatening ("Yes"/"No"), classifies the speaker's emotion,
combines both into a risk score, maps the score to one of five alert texts
and sends that text by SMS. The gateway reads the script's standard output,
keeps two lines as `transcript` and `threatDetected`, and replies to the
phone. The phone shows the transcript.

This project models the three pieces of that pipeline that make decisions:

- `Transcribe.dfy` (`transcribe.py`): the emotion weights, the threat flag
  (verdict stripped with Python's whitespace rules, lowercased, compared with
  `"yes"`), the weighted risk score as an exact real, the top-down alert
  ladder, `emotion_detection`'s fallback to 0, and the routing of the
  speech-to-text JSON reply with Python's own `in`/subscript semantics. The
  external services are parameters: the chat model's verdict, the emotion
  classifier's prediction, and the upload outcome.
- `Gateway.dfy` (`server/server.js`): the `/save-audio` handler. Each stdout
  chunk is split on `'\n'` and blank lines are dropped with JavaScript's
  `trim()` rules. A chunk with at least two remaining lines overwrites both
  values. A method loops over the chunks against a fold that specifies it.
  The close code then picks the success body or the 500 error body.
- `Speech.dfy` (`components/speech/SpeechRecognition.tsx`): the component's
  four state cells as a class `Recorder` whose `StartRecording`,
  `StopRecording` and `Press` methods follow the source step by step. Each
  awaited platform call is an outcome parameter. Pure transition functions
  `Start` and `Stop` specify the methods, and the lemmas are stated about
  those functions. The file also holds the render guard, the button toggle,
  and two lemmas that connect the gateway's replies to the client's state.
- `Text.dfy`: the string operations both runtimes rely on. These are
  strip/trim with the two whitespace sets, ASCII lowercasing, split/join,
  substring search, and decimal rendering of exit codes.

Behaviour of the code worth noting:

- The gateway keeps the first two non-blank lines of the last stdout chunk
  that has at least two such lines (`Gateway.LastQualifyingChunkWins`).
  Lines from different chunks are never combined, and a later chunk with
  fewer than two lines does not clear the values.
- A 500 reply from the gateway is not an exception on the client, because
  `fetch` resolves and the reply has no `transcript` field. So the client
  keeps its previous transcript and error and shows no error
  (`Speech.GatewayFailureKeepsResult`). The same holds for an empty
  transcript (`Speech.EmptyGatewayResultKeepsResult`).
- Every stop path ends with the recording flag down, but when
  `stopAndUnloadAsync` throws the handle is kept
  (`Speech.StopEndsNotRecording`).

## Model

| member | source | states |
|---|---|---|
| `Transcribe.EmotionToNumber` | transcribe.py:35-45 | the weight is 3 exactly for FEA, 2 exactly for SAD, 1 exactly for ANG, and 0 for every other code, table entry or not; so it is always in 0..3 |
| `Transcribe.EmotionDetection` | transcribe.py:137-152 | a failed prediction gives 0; a prediction gives its code's weight; the result is in 0..3 |
| `Transcribe.ThreatBinary` | transcribe.py:273 | the threat flag is 0 or 1 |
| `Transcribe.LowerIsYes` | transcribe.py:273 | lowercasing yields "yes" exactly for the three letters y, e, s in any case mix |
| `Transcribe.ThreatIffPaddedYes` | transcribe.py:273 | the flag is 1 if and only if the verdict is a case-insensitive "yes" with only Python whitespace before and after it |
| `Transcribe.ThreatIsPaddedYes` | transcribe.py:273 | a verdict that sets the flag is a whitespace-padded "yes" |
| `Transcribe.PaddedYesIsThreat` | transcribe.py:273 | a whitespace-padded "yes" sets the flag |
| `Transcribe.PaddedUpperYesIsThreat` | transcribe.py:273 | the verdict " YES\n" sets the flag |
| `Transcribe.ErrorAndPunctuatedAreNoThreat` | transcribe.py:273 | the threat check's "Error" fallback and "Yes." leave the flag at 0 |
| `Transcribe.RiskScore` | transcribe.py:276-285 | the score equals (12·threat + emotion)/15, and it lies in [0, 1] whenever the emotion is in 0..3 |
| `Transcribe.MessagesDistinct` | transcribe.py:288-297 | two alerts send the same text only if they are the same alert |
| `Transcribe.Alert.Message` | transcribe.py:288-297 | the five alert texts, one per alert; `MessagesDistinct` proves that no two alerts share a text |
| `Transcribe.DangerLevel` | transcribe.py:287-297 | the alert is CRITICAL exactly when the score is at least 0.8, and "I am safe" exactly when it is below 0.2 |
| `Transcribe.DangerLevelCountsThresholds` | transcribe.py:288-297 | the severity of the ladder's first match equals the number of thresholds 0.8, 0.6, 0.4, 0.2 that the score reaches |
| `Transcribe.ThresholdsMetMonotone` | transcribe.py:288-297 | a higher score reaches at least as many thresholds |
| `Transcribe.DangerLevelMonotone` | transcribe.py:288-297 | a higher score never yields a less severe alert |
| `Transcribe.YesIsCritical` | transcribe.py:273-289 | a "yes" verdict gives the CRITICAL alert whatever the emotion prediction |
| `Transcribe.NoThreatAtMostCaution` | transcribe.py:273-297 | without a "yes" verdict the alert is at most CAUTION, and it is CAUTION exactly when the predicted emotion is FEA |
| `Transcribe.AlertFor` | transcribe.py:242-244 | the alert for a verdict and a prediction is CRITICAL exactly when the verdict sets the threat flag |
| `Transcribe.In` | transcribe.py:236 | Python `key in x` raises exactly for a number, boolean or null |
| `Transcribe.Subscript` | transcribe.py:237 | Python `x[key]` gives a value exactly for an object that holds the key |
| `Transcribe.HasNestedText` | transcribe.py:236 | the test is true exactly for an object whose "response" member contains "text" (as a key, element or substring); it raises exactly for a number, boolean or null reply, a list reply holding "response", a string reply containing "response", and an object whose "response" member is a number, boolean or null |
| `Transcribe.Route` | transcribe.py:236-259 | the threat verdict is returned exactly for an object reply whose "response" is an object with a "text" key, and it carries the alert for the verdict and prediction; the top-level text is returned as it is exactly when the nested test is false and the reply is an object with a "text" key; None is returned exactly when both tests are false; every other reply raises |
| `Transcribe.TranscribeAudioAsWritten` | transcribe.py:225-269 | as written, a failed request raises, and a reply that is not JSON returns None |
| `Transcribe.TranscribeAudio` | transcribe.py:225-269 | with the handler's evident intent, a failed request or a non-JSON reply returns None, and a threat result carries the verdict and the alert for that verdict and prediction |
| `Transcribe.RequestFailureFinding` | transcribe.py:265-269 | the two versions differ exactly on a failed request: as written it raises, corrected it returns None |
| `Transcribe.NestedTextTakesPrecedence` | transcribe.py:236-252 | an object reply with a nested response.text yields the threat verdict, whatever the top level holds |
| `Transcribe.TopLevelTextAsIs` | transcribe.py:253-256 | without a usable nested text, a top-level text is returned unchanged |
| `Transcribe.NoTextField` | transcribe.py:257-259 | an object reply with neither text gives None |
| `Transcribe.MalformedResponseRaises` | transcribe.py:236-237 | a "response" member that is null, or a string containing "text", raises instead of falling back |
| `Transcribe.ScalarReplyRaises` | transcribe.py:236 | a reply that decodes to a number, boolean or null raises |
| `Text.TrimStartRemovesPrefix` | transcribe.py:273 | stripping the front removes a whitespace prefix and stops at the first other character |
| `Text.TrimEndRemovesSuffix` | transcribe.py:273 | stripping the back removes a whitespace suffix and stops at the last other character |
| `Text.StripSplitsPadding` | transcribe.py:273 | the stripped text is a middle part of the input, padded on both sides only by whitespace |
| `Text.StripOfPadded` | server/server.js:50 | stripping whitespace padding from an unpadded core gives back the core |
| `Text.Strip` | transcribe.py:273 | the stripped text is no longer than the input and neither starts nor ends with whitespace |
| `Text.LowerChar` | transcribe.py:273 | each upper-case ASCII letter becomes its own lower-case letter (code point plus 32), and every other character is unchanged |
| `Text.Lower` | transcribe.py:273 | lowercasing keeps the length and maps each character on its own |
| `Text.Split` | server/server.js:50 | a split always yields at least one piece; `JoinSplit` and `SplitJoin` pin down the pieces |
| `Text.SplitPiecesFree` | server/server.js:50 | no piece of a split contains the separator |
| `Text.JoinSplit` | server/server.js:50 | joining the pieces of a split with the separator restores the text |
| `Text.SplitJoin` | server/server.js:50 | splitting a join of separator-free pieces restores the pieces |
| `Text.Contains` | components/speech/SpeechRecognition.tsx:99 | a needle is never found in a shorter string |
| `Text.ContainsFound` | components/speech/SpeechRecognition.tsx:99 | a found needle occurs at some position of the string |
| `Text.Decimal` | server/server.js:64 | the rendering is a non-empty run of decimal digits with no leading zero |
| `Text.DecimalRoundTrip` | server/server.js:64 | reading the decimal rendering of an exit code back gives the code |
| `Gateway.NonBlankMembers` | server/server.js:50 | a piece is kept exactly when its trimmed form is non-empty |
| `Gateway.NonBlankAppend` | server/server.js:50 | filtering distributes over concatenation, so kept lines keep their order |
| `Gateway.NonBlankKeepsAll` | server/server.js:50 | lines that are all non-blank are kept unchanged and untrimmed |
| `Gateway.CandidateLines` | server/server.js:50 | every candidate line of a chunk is non-blank and holds no `'\n'` |
| `Gateway.CandidateLinesMembers` | server/server.js:50 | the candidate lines are exactly the non-blank `'\n'`-free pieces of the chunk |
| `Gateway.Absorb` | server/server.js:51-54 | a chunk with fewer than two candidate lines leaves both values unchanged |
| `Gateway.Collect` | server/server.js:47-55 | after the chunks, the values are either both still "" or the first two candidate lines of some chunk that has at least two |
| `Gateway.CollectOutput` | server/server.js:44-55 | the loop over the stdout chunks ends with the values the fold Collect assigns to them |
| `Gateway.LastQualifyingChunkWins` | server/server.js:47-55 | the final values are the first two candidate lines of the last chunk that has at least two; later lines and other chunks are ignored |
| `Gateway.NoQualifyingChunkKeepsInitial` | server/server.js:44-51 | if no chunk has two candidate lines, both values stay "" |
| `Gateway.HelloSafeLines` | server/server.js:47-54 | the output "hello\nSAFE\n" gives transcript "hello" and threat "SAFE" |
| `Gateway.HelloSafePieces` | server/server.js:50 | "hello\nSAFE\n" splits into "hello", "SAFE" and "" |
| `Gateway.HelloSafeKept` | server/server.js:50 | of those pieces, "hello" and "SAFE" are kept |
| `Gateway.CloseMessage` | server/server.js:62-64 | the rejection message starts with "Python process exited with code ", and it ends in "null" exactly when the close code is null (a process killed by a signal) |
| `Gateway.CloseMessageNamesCode` | server/server.js:64 | after that prefix the message holds only digits, and they read back as the exit code |
| `Gateway.Respond` | server/server.js:61-80 | status 200 exactly for exit code 0, with the body holding success, the path and the collected values; otherwise status 500 with the rejection message and no transcript field |
| `Gateway.SaveAudio` | server/server.js:31-81 | a failed write answers 500 with the thrown message; otherwise the answer is Respond applied to the close code and the values collected from the chunks |
| `Gateway.ShortOutputGivesEmptyFields` | server/server.js:44-77 | with exit code 0 and no chunk of two non-blank lines, the reply is a success with empty transcript and threat |
| `Speech.ButtonAction` | components/speech/SpeechRecognition.tsx:148 | the button calls stop exactly while recording, and start otherwise |
| `Speech.TranscriptField` | components/speech/SpeechRecognition.tsx:97-98 | the reply has a transcript field exactly when the gateway sent its success body |
| `Speech.Start` | components/speech/SpeechRecognition.tsx:49-54 | starting keeps "recording implies a handle", raises the flag exactly when a recording was created (or it was already up), and leaves transcript and error alone |
| `Speech.Stop` | components/speech/SpeechRecognition.tsx:57-122 | stopping either changes nothing or ends with the flag down, and keeps "recording implies a handle" |
| `Speech.ApplyReply` | components/speech/SpeechRecognition.tsx:98-106 | a missing or empty reply transcript changes nothing; a present one always shows the panel; the handle and flag are untouched |
| `Speech.Failed` | components/speech/SpeechRecognition.tsx:109-111 | the catch path hides the panel and leaves the handle and flag untouched |
| `Speech.ShowsTranscript` | components/speech/SpeechRecognition.tsx:159 | the panel is rendered when the transcript is non-empty and there is no error; `NonEmptyReplyIsShown` and `ExceptionShowsError` state when that holds |
| `Speech.TransitionsKeepConsistent` | components/speech/SpeechRecognition.tsx:49-64 | start and stop both keep "recording implies a handle" |
| `Speech.StartOutcomes` | components/speech/SpeechRecognition.tsx:49-54 | a successful start stores the new handle and sets recording, with transcript and error untouched; a failed start changes nothing |
| `Speech.StopWithoutHandleIsNoop` | components/speech/SpeechRecognition.tsx:58 | stopping without a handle changes no state |
| `Speech.StopEndsNotRecording` | components/speech/SpeechRecognition.tsx:61-64 | with a handle, every stop path ends not recording; the handle is cleared exactly when stopping succeeded, and kept when it threw |
| `Speech.ExceptionShowsError` | components/speech/SpeechRecognition.tsx:109-111 | an exception once stopping has begun sets the error to "Failed to process audio", clears the transcript, and hides the panel |
| `Speech.ApplyReplyCases` | components/speech/SpeechRecognition.tsx:98-106 | a missing or empty transcript changes nothing; one containing "Error in prediction" becomes the fallback phrase; any other is copied verbatim; both of those clear the error; the handle and flag are untouched |
| `Speech.NonEmptyReplyIsShown` | components/speech/SpeechRecognition.tsx:98-106 | any non-empty reply transcript ends with the panel shown |
| `Speech.SentinelRendersFallback` | components/speech/SpeechRecognition.tsx:99-102 | a reply starting with "Error in prediction" renders as "Situation unclear but concerning" with no error banner |
| `Speech.SentinelAnywhereIsMasked` | components/speech/SpeechRecognition.tsx:99 | the sentinel anywhere inside the reply is enough to mask it |
| `Speech.ContainsInfix` | components/speech/SpeechRecognition.tsx:99 | `includes` finds a needle placed anywhere in a string |
| `Speech.GatewayFailureKeepsResult` | components/speech/SpeechRecognition.tsx:97-98 | the gateway's 500 reply, for any nonzero or null exit code, leaves the client's transcript and error as they were |
| `Speech.EmptyGatewayResultKeepsResult` | components/speech/SpeechRecognition.tsx:98 | a successful reply whose script output had no two-line chunk also leaves transcript and error unchanged |
| `Speech.PressCycleEndsNotRecording` | components/speech/SpeechRecognition.tsx:148 | from idle, a successful start turns the button to stop, and any stop turns it back to start |
| `Speech.Recorder.constructor` | components/speech/SpeechRecognition.tsx:9-12 | the component starts idle: no handle, not recording, empty transcript and error |
| `Speech.Recorder.StartRecording` | components/speech/SpeechRecognition.tsx:23-55 | the new state is Start of the old state and the creation outcome |
| `Speech.Recorder.StopRecording` | components/speech/SpeechRecognition.tsx:57-122 | the new state is Stop of the old state and the outcomes of the awaited steps |
| `Speech.Recorder.Press` | components/speech/SpeechRecognition.tsx:148 | pressing stops while recording and starts otherwise, and keeps "recording implies a handle" |

## Findings

| source | as written | input that shows it | evidently intended | confidence | as-written member | corrected member |
|---|---|---|---|---|---|---|
| transcribe.py:265-269 | the `RequestException` handler prints `response.status_code`, but `response` is unbound when `requests.post` itself raised, so the handler raises `UnboundLocalError`, which only the top-level `except Exception` (line 310) catches; `return None` is unreachable | `requests.post` raising a connection error | log the failure and return None | high; not executed | `Transcribe.TranscribeAudioAsWritten` (exhibited by `Transcribe.RequestFailureFinding`) | `Transcribe.TranscribeAudio` |

## Left out

- Text.Lower: lowercases ASCII letters only. Python's `lower()` also maps non-ASCII letters. No non-ASCII character lowercases to y, e or s, so the comparison with "yes" is unaffected.
- Transcribe.RiskScore: uses exact reals, not IEEE doubles. For threat 0 or 1 and emotion 0..3, the only scores on a threshold are 0.2 and 0.8, and both are exact in doubles. So the ladder gives the same alert.
- JSON numbers in the speech-to-text reply are modelled as integers. The routing only compares numbers with strings, so their values never matter.
- Audio feature extraction, model loading and emotion inference (transcribe.py:47-113) are floating-point library code. `EmotionDetection` takes the prediction (a code, or a failure) as input. A failure to load the model files is not modelled.
- The OpenAI chat call, the RapidAPI Whisper upload and the Twilio SMS (transcribe.py:172-199, 201-227) are network clients. The verdict, the upload outcome and the decoded reply are inputs. The SMS text is the `alert` of the `Threat` result.
- The script's top level (transcribe.py:155-156, 299-311) is not modelled. That covers the module-level `emotion_detection` call, the argument-count check, and the handlers for `FileNotFoundError` and other exceptions. It also covers everything the script prints. The lines the script writes to stdout are not tied to the gateway's two-line contract.
- TranscribeAudio: has no missing-file outcome. `os.path.getsize` (transcribe.py:205) and `open` (transcribe.py:209) run inside `transcribe_audio` before the request, and raise `FileNotFoundError` for a missing file. The model starts at the request and assumes the file exists.
- TranscribeAudio: does not model the Twilio `Client(...)` constructor at transcribe.py:173. It sits outside `send_twilio_message`'s `try`, so with missing credentials it raises out of `transcribe_audio`, where the model returns a `Threat` result.
- TranscribeAudio: does not model the module-level `OpenAI(...)` constructor at transcribe.py:164, which can raise the same way before `transcribe_audio` runs.
- Base64 decoding, `path.join` (including the unsanitised filename), `fs.writeFileSync` and `spawn` are library and OS calls. The write is an outcome parameter. The spawned process is its stdout chunks and its close code.
- A spawn failure is not modelled. It raises an `'error'` event that has no listener.
- Express setup, CORS, the logging middleware, `GET /` and `listen` (server/server.js:7-29, 84-90) are server plumbing.
- Concurrent uploads racing on the same file, the timing of stream events, and re-entrant presses while an upload is in flight are concurrency. Chunks are an ordered sequence, and each method runs to completion.
- The client's reply `transcript` is modelled as absent or a string, which is all the gateway sends. Other JSON types are not modelled.
- Rendering and styles, the permission and audio-mode setup, `testServerConnection`, and the request's fixed server address and file name (components/speech/SpeechRecognition.tsx:14-21, 84-95, 124-139, 141-232) are UI and I/O. Only the render guard (line 159) and the button toggle (line 148) are modelled.
- app/+html.tsx is a layout wrapper with no logic.
