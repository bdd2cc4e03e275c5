// The /save-audio handler of the gateway server: the audio is written to a
// file, the transcription script runs on it, the first two non-blank lines
// of each stdout chunk are kept, and the script's exit code chooses between
// the success body and a 500 error body. Writing the file and running the
// script are external: their outcomes are parameters, and the script's
// stdout arrives as an ordered sequence of chunks.

module Gateway {
  import opened Text

  /** The pieces of a split that the handler keeps: those whose trimmed form
      is non-empty, in order and untrimmed. */
  function NonBlank(pieces: seq<string>): (kept: seq<string>)
    ensures |kept| <= |pieces|
    ensures forall k :: 0 <= k < |kept| ==> !Blank(kept[k]) && kept[k] in pieces
  {
    if pieces == [] then []
    else (if Blank(pieces[0]) then [] else [pieces[0]]) + NonBlank(pieces[1..])
  }

  /** JavaScript truthiness of line.trim(). */
  predicate Blank(line: string)
  {
    Strip(Js, line) == ""
  }

  /** A piece is kept exactly when it is non-blank. */
  lemma {:induction false} NonBlankMembers(pieces: seq<string>, p: string)
    ensures p in NonBlank(pieces) <==> p in pieces && !Blank(p)
  {
    if pieces != [] {
      NonBlankMembers(pieces[1..], p);
      assert pieces == [pieces[0]] + pieces[1..];
    }
  }

  /** Filtering distributes over concatenation, so the kept pieces keep
      their relative order. */
  lemma {:induction false} NonBlankAppend(a: seq<string>, b: seq<string>)
    ensures NonBlank(a + b) == NonBlank(a) + NonBlank(b)
  {
    if a != [] {
      assert (a + b)[1..] == a[1..] + b;
      NonBlankAppend(a[1..], b);
    } else {
      assert a + b == b;
    }
  }

  /** Pieces that are all non-blank are kept as they are. */
  lemma {:induction false} NonBlankKeepsAll(pieces: seq<string>)
    requires forall k :: 0 <= k < |pieces| ==> !Blank(pieces[k])
    ensures NonBlank(pieces) == pieces
  {
    if pieces != [] {
      NonBlankKeepsAll(pieces[1..]);
    }
  }

  /** output.split('\n').filter(line => line.trim()) for one chunk. */
  function CandidateLines(chunk: string): (lines: seq<string>)
    ensures forall k :: 0 <= k < |lines| ==> !Blank(lines[k]) && '\n' !in lines[k]
  {
    var pieces := Split(chunk, '\n');
    SplitPiecesFree(chunk, '\n');
    NonBlank(pieces)
  }

  /** The candidate lines are exactly the non-blank '\n'-free segments of
      the chunk. */
  lemma CandidateLinesMembers(chunk: string, line: string)
    ensures line in CandidateLines(chunk) <==> line in Split(chunk, '\n') && !Blank(line)
    ensures line in CandidateLines(chunk) ==> '\n' !in line
  {
    NonBlankMembers(Split(chunk, '\n'), line);
    SplitPiecesFree(chunk, '\n');
  }

  /** The handler's two accumulated values, transcriptData and threatResult. */
  datatype Collected = Collected(transcript: string, threat: string)

  const Initial := Collected("", "")

  /** A chunk qualifies when it holds at least two candidate lines. */
  predicate Qualifies(chunk: string)
  {
    |CandidateLines(chunk)| >= 2
  }

  /** One 'data' event: a qualifying chunk overwrites both values with its
      first two candidate lines; any other chunk changes nothing. */
  function Absorb(acc: Collected, chunk: string): (r: Collected)
    ensures !Qualifies(chunk) ==> r == acc
  {
    var lines := CandidateLines(chunk);
    if |lines| >= 2 then Collected(lines[0], lines[1]) else acc
  }

  /** The values after the given chunks, in arrival order. */
  function Collect(chunks: seq<string>): (r: Collected)
    ensures r == Initial || exists j :: (0 <= j < |chunks| && Qualifies(chunks[j])
      && r == Collected(CandidateLines(chunks[j])[0], CandidateLines(chunks[j])[1]))
  {
    if chunks == [] then Initial else Absorb(Collect(chunks[..|chunks| - 1]), chunks[|chunks| - 1])
  }

  /** The 'data' handler run over every chunk, as the stream delivers them. */
  method CollectOutput(chunks: seq<string>) returns (transcript: string, threat: string)
    ensures Collected(transcript, threat) == Collect(chunks)
  {
    transcript, threat := "", "";
    var i := 0;
    while i < |chunks|
      invariant 0 <= i <= |chunks|
      invariant Collected(transcript, threat) == Collect(chunks[..i])
    {
      var lines := CandidateLines(chunks[i]);
      if |lines| >= 2 {
        transcript := lines[0];
        threat := lines[1];
      }
      assert chunks[..i + 1][..i] == chunks[..i];
      i := i + 1;
    }
    assert chunks[..|chunks|] == chunks;
  }

  /** The final values come from the last qualifying chunk, and from its
      first two candidate lines only. */
  lemma {:induction false} LastQualifyingChunkWins(chunks: seq<string>, j: nat)
    requires j < |chunks| && Qualifies(chunks[j])
    requires forall k :: j < k < |chunks| ==> !Qualifies(chunks[k])
    ensures Collect(chunks) == Collected(CandidateLines(chunks[j])[0], CandidateLines(chunks[j])[1])
  {
    var n := |chunks|;
    var prefix := chunks[..n - 1];
    if j < n - 1 {
      assert forall k :: j < k < |prefix| ==> prefix[k] == chunks[k];
      LastQualifyingChunkWins(prefix, j);
    }
  }

  /** Without a qualifying chunk both values stay empty. */
  lemma {:induction false} NoQualifyingChunkKeepsInitial(chunks: seq<string>)
    requires forall k :: 0 <= k < |chunks| ==> !Qualifies(chunks[k])
    ensures Collect(chunks) == Initial
  {
    if chunks != [] {
      var prefix := chunks[..|chunks| - 1];
      assert forall k :: 0 <= k < |prefix| ==> prefix[k] == chunks[k];
      NoQualifyingChunkKeepsInitial(prefix);
    }
  }

  /** A chunk "hello\nSAFE\n" yields the lines "hello" and "SAFE". */
  lemma HelloSafeLines(chunk: string)
    requires chunk == "hello\nSAFE\n"
    ensures CandidateLines(chunk) == ["hello", "SAFE"]
    ensures Collect([chunk]) == Collected("hello", "SAFE")
  {
    HelloSafePieces(chunk);
    HelloSafeKept(["hello", "SAFE", ""]);
    assert [chunk][..0] == [];
  }

  lemma HelloSafePieces(chunk: string)
    requires chunk == "hello\nSAFE\n"
    ensures Split(chunk, '\n') == ["hello", "SAFE", ""]
  {
    var pieces := ["hello", "SAFE", ""];
    assert Join(pieces, '\n') == chunk;
    SplitJoin(pieces, '\n');
  }

  lemma HelloSafeKept(pieces: seq<string>)
    requires pieces == ["hello", "SAFE", ""]
    ensures NonBlank(pieces) == ["hello", "SAFE"]
  {
    StripOfPadded(Js, "", "hello", "");
    assert "" + "hello" + "" == "hello";
    StripOfPadded(Js, "", "SAFE", "");
    assert "" + "SAFE" + "" == "SAFE";
    assert pieces == ["hello", "SAFE"] + [""];
    NonBlankAppend(["hello", "SAFE"], [""]);
    NonBlankKeepsAll(["hello", "SAFE"]);
  }

  /** The JSON body the handler sends. */
  datatype Body =
    | Saved(success: bool, path: string, transcript: string, threatDetected: string)
    | Failure(error: string)

  datatype Response = Response(status: nat, body: Body)

  /** Only the success body has a transcript field. */
  predicate HasTranscript(body: Body)
  {
    body.Saved?
  }

  const ExitPrefix := "Python process exited with code "

  /** The rejection message for a close code; a process killed by a signal
      closes with a null code. */
  function CloseMessage(code: Option<nat>): (m: string)
    ensures ExitPrefix <= m
    ensures code == None <==> m == ExitPrefix + "null"
  {
    ExitPrefix + (match code
      case None => "null"
      case Some(n) =>
        var digits := Decimal(n);
        assert (ExitPrefix + digits)[|ExitPrefix|] != (ExitPrefix + "null")[|ExitPrefix|];
        digits)
  }

  /** The exit code can be read back from the message. */
  lemma CloseMessageNamesCode(n: nat)
    ensures var m := CloseMessage(Some(n));
      forall i :: |ExitPrefix| <= i < |m| ==> '0' <= m[i] <= '9'
    ensures DecimalValue(CloseMessage(Some(n))[|ExitPrefix|..]) == n
  {
    var m := CloseMessage(Some(n));
    assert m[|ExitPrefix|..] == Decimal(n);
    DecimalRoundTrip(n);
  }

  /** The response once the script has closed: exit code 0 sends the success
      body with the collected values; anything else sends 500 and the
      rejection message, with no transcript. */
  function Respond(code: Option<nat>, filePath: string, collected: Collected): (r: Response)
    ensures r.status == 200 <==> code == Some(0)
    ensures r.status != 200 ==> r.status == 500 && !HasTranscript(r.body)
    ensures HasTranscript(r.body) <==> r.status == 200
    ensures r.status == 200 ==>
      r.body == Saved(true, filePath, collected.transcript, collected.threat)
    ensures r.status == 500 ==> r.body == Failure(CloseMessage(code))
  {
    if code != Some(0) then Response(500, Failure(CloseMessage(code)))
    else Response(200, Saved(true, filePath, collected.transcript, collected.threat))
  }

  /** Writing the decoded audio either succeeds or throws with a message. */
  datatype WriteOutcome = Written | WriteThrew(message: string)

  /** The whole /save-audio handler: write the file, collect the script's
      output, then answer according to its exit code. */
  method SaveAudio(filePath: string, write: WriteOutcome, chunks: seq<string>, code: Option<nat>)
    returns (r: Response)
    ensures write.WriteThrew? ==> r == Response(500, Failure(write.message))
    ensures write == Written ==> r == Respond(code, filePath, Collect(chunks))
  {
    if write.WriteThrew? {
      return Response(500, Failure(write.message));
    }
    var transcript, threat := CollectOutput(chunks);
    r := Respond(code, filePath, Collected(transcript, threat));
  }

  /** Script output with fewer than two non-blank lines per chunk degrades
      to empty fields rather than an error. */
  lemma ShortOutputGivesEmptyFields(filePath: string, chunks: seq<string>)
    requires forall k :: 0 <= k < |chunks| ==> !Qualifies(chunks[k])
    ensures Respond(Some(0), filePath, Collect(chunks)) == Response(200, Saved(true, filePath, "", ""))
  {
    NoQualifyingChunkKeepsInitial(chunks);
  }
}
