/**
 * What BotHandler.ProcessVideoAsync does for one message: choose the file
 * name, build the temporary file name, and run the announce, download,
 * upload, send and delete steps, any of which may throw. The network and the
 * file system are replaced by the list of effects the steps perform, and the
 * step that throws is a parameter.
 */
module Relay {
  import opened Wrappers
  import opened Text
  import opened Media

  /** The name made up for a document that has no usable file name. */
  function SynthesizedName(id: int): string
  {
    "video_" + IntToDecimal(id) + ".mp4"
  }

  /**
   * The file name used for the relay: the document's own name unless it is
   * null or white space, else one made from the document id. No document
   * means no relay, hence no name.
   */
  function FileName(m: Message): (r: Option<string>)
    ensures r.Some? <==> DocumentOf(m).Some?
    ensures r.Some? ==> !IsNullOrWhiteSpace(Some(r.value))
  {
    match DocumentOf(m)
    case None => None
    case Some(d) =>
      if IsNullOrWhiteSpace(d.filename) then
        var name := SynthesizedName(d.id);
        assert !IsWhiteSpace(name[0]);
        Some(name)
      else Some(d.filename.value)
  }

  /** A document name that is not blank is used as it is. */
  lemma GivenNameIsKept(m: Message, d: Document)
    requires DocumentOf(m) == Some(d)
    requires !IsNullOrWhiteSpace(d.filename)
    ensures FileName(m) == d.filename
  {
  }

  /** A blank or missing document name is replaced by one made from the document id. */
  lemma BlankNameIsSynthesized(m: Message, d: Document)
    requires DocumentOf(m) == Some(d)
    requires IsNullOrWhiteSpace(d.filename)
    ensures FileName(m) == Some(SynthesizedName(d.id))
  {
  }

  /**
   * The made-up name is "video_", the document id and ".mp4", and the id can
   * be read back from the middle of the name.
   */
  lemma SynthesizedNameHoldsId(id: int)
    ensures var name := SynthesizedName(id);
      && StartsWith(name, "video_") && EndsWith(name, ".mp4")
      && ParseInt(name[6..|name| - 4]) == Some(id)
  {
    var name := SynthesizedName(id);
    assert name[6..|name| - 4] == IntToDecimal(id);
    assert name[..6] == "video_";
    assert name[|name| - 4..] == ".mp4";
    IntToDecimalRoundTrip(id);
  }

  /** Two documents without names never get the same made-up name. */
  lemma SynthesizedNamesDiffer(id1: int, id2: int)
    requires id1 != id2
    ensures SynthesizedName(id1) != SynthesizedName(id2)
  {
    var n1, n2 := SynthesizedName(id1), SynthesizedName(id2);
    if n1 == n2 {
      assert n1[6..|n1| - 4] == IntToDecimal(id1);
      assert n2[6..|n2| - 4] == IntToDecimal(id2);
      IntToDecimalInjective(id1, id2);
    }
  }

  /** The temporary file name: a fresh token, an underscore, then the file name. */
  function TempName(token: string, fileName: string): (r: string)
    ensures StartsWith(r, token)
    ensures EndsWith(r, "_" + fileName)
  {
    var r := token + "_" + fileName;
    assert r[..|token|] == token;
    assert r[|r| - |"_" + fileName|..] == "_" + fileName;
    r
  }

  /** Distinct tokens give distinct temporary names for the same file name. */
  lemma TempNamesDiffer(token1: string, token2: string, fileName: string)
    requires token1 != token2
    ensures TempName(token1, fileName) != TempName(token2, fileName)
  {
  }

  /**
   * Distinct tokens of one length (a GUID's "D" form is always 36
   * characters) give distinct temporary names, whatever the file names.
   */
  lemma EqualLengthTokensNeverCollide(token1: string, token2: string, fileName1: string, fileName2: string)
    requires |token1| == |token2| && token1 != token2
    ensures TempName(token1, fileName1) != TempName(token2, fileName2)
  {
  }

  /** Without the equal-length condition two names can meet: "a" + "_b_c" and "a_b" + "_c". */
  lemma TokensOfDifferentLengthsCanCollide()
    ensures TempName("a", "b_c") == TempName("a_b", "c")
  {
    assert TempName("a", "b_c") == "a_b_c";
  }

  /** The steps inside the try block, in the order the code runs them. */
  datatype Stage = Announce | OpenTemp | Download | Upload | SendVideo | DeleteTemp

  /** Which step throws, with the exception's message; NoFault when none does. */
  datatype Fault = NoFault | FailsAt(stage: Stage, reason: string)

  /** An observable effect of a step that completed. */
  datatype Effect =
    | SendText(to: InputPeer, text: string, replyTo: int)
    | CreateFile(name: string)
    | DownloadInto(documentId: int, name: string)
    | UploadFrom(name: string)
    | SendMedia(to: InputPeer, replyTo: int)  // the uploaded file, as media of the client library's choosing
    | DeleteFile(name: string)

  /**
   * How the call ends: no document (returns at once), relayed, failure
   * reported to the chat, or failure whose error notice itself threw, so the
   * exception leaves ProcessVideoAsync.
   */
  datatype Outcome = NoDocument | Relayed | Reported(reason: string) | Escaped(reason: string)

  datatype Attempt = Attempt(outcome: Outcome, effects: seq<Effect>)

  /** The number of steps that complete before the given one. */
  function StageIndex(s: Stage): nat
  {
    match s
    case Announce => 0
    case OpenTemp => 1
    case Download => 2
    case Upload => 3
    case SendVideo => 4
    case DeleteTemp => 5
  }

  /** The effects of the try block when no step throws. */
  function Plan(m: Message, d: Document, peer: InputPeer, fileName: string, temp: string): (p: seq<Effect>)
    ensures |p| == 6
  {
    [ SendText(peer, "Processing: " + fileName + "...", m.id),
      CreateFile(temp),
      DownloadInto(d.id, temp),
      UploadFrom(temp),
      SendMedia(peer, m.id),
      DeleteFile(temp) ]
  }

  /**
   * One call of ProcessVideoAsync for message `m` replying to `peer`, with
   * `token` standing for the fresh GUID, `fault` for the step that throws, and
   * `noticeDelivered` telling whether the error notice goes through.
   */
  function ProcessVideo(m: Message, peer: InputPeer, token: string, fault: Fault, noticeDelivered: bool): (a: Attempt)
    ensures a.outcome == NoDocument <==> DocumentOf(m).None?
    ensures a.outcome == Relayed <==> DocumentOf(m).Some? && fault == NoFault
    ensures a.outcome.Reported? <==> DocumentOf(m).Some? && fault.FailsAt? && noticeDelivered
    ensures a.outcome.Escaped? <==> DocumentOf(m).Some? && fault.FailsAt? && !noticeDelivered
    ensures a.outcome.NoDocument? ==> a.effects == []
  {
    match DocumentOf(m)
    case None => Attempt(NoDocument, [])
    case Some(d) =>
      var fileName := FileName(m).value;
      var plan := Plan(m, d, peer, fileName, TempName(token, fileName));
      match fault
      case NoFault => Attempt(Relayed, plan)
      case FailsAt(stage, reason) =>
        var done := plan[..StageIndex(stage)];
        if noticeDelivered then Attempt(Reported(reason), done + [SendText(peer, "Error: " + reason, m.id)])
        else Attempt(Escaped(reason), done)
  }

  /** A temporary file that was created and never deleted. */
  predicate LeavesFile(effects: seq<Effect>, name: string)
  {
    CreateFile(name) in effects && DeleteFile(name) !in effects
  }

  /** A message without a document performs nothing and relays nothing. */
  lemma NoDocumentNoEffects(m: Message, peer: InputPeer, token: string, fault: Fault, noticeDelivered: bool)
    requires DocumentOf(m).None?
    ensures ProcessVideo(m, peer, token, fault, noticeDelivered) == Attempt(NoDocument, [])
  {
  }

  /**
   * With a document, the relay succeeds exactly when no step throws, and then
   * it announces, downloads into the temporary file, uploads it, sends the
   * uploaded file as media replying to the original message and deletes the
   * file, in that order.
   */
  lemma RelayedExactlyWithoutFault(m: Message, d: Document, peer: InputPeer, token: string, fault: Fault, noticeDelivered: bool)
    requires DocumentOf(m) == Some(d)
    ensures var a := ProcessVideo(m, peer, token, fault, noticeDelivered);
      && (a.outcome == Relayed <==> fault == NoFault)
      && (fault == NoFault ==>
            var temp := TempName(token, FileName(m).value);
            |a.effects| == 6
            && a.effects[0] == SendText(peer, "Processing: " + FileName(m).value + "...", m.id)
            && a.effects[1] == CreateFile(temp) && a.effects[2] == DownloadInto(d.id, temp)
            && a.effects[3] == UploadFrom(temp) && a.effects[4] == SendMedia(peer, m.id)
            && a.effects[5] == DeleteFile(temp))
  {
  }

  /**
   * A failing step is reported by a notice threaded to the original message,
   * after exactly the steps before it; if the notice itself fails the
   * exception escapes.
   */
  lemma FailureIsReported(m: Message, d: Document, peer: InputPeer, token: string, stage: Stage, reason: string, noticeDelivered: bool)
    requires DocumentOf(m) == Some(d)
    ensures var a := ProcessVideo(m, peer, token, FailsAt(stage, reason), noticeDelivered);
      && StageIndex(stage) <= |a.effects|
      && a.effects[..StageIndex(stage)] == ProcessVideo(m, peer, token, NoFault, noticeDelivered).effects[..StageIndex(stage)]
      && (noticeDelivered ==>
            a.outcome == Reported(reason)
            && |a.effects| == StageIndex(stage) + 1
            && a.effects[|a.effects| - 1] == SendText(peer, "Error: " + reason, m.id))
      && (!noticeDelivered ==> a.outcome == Escaped(reason) && |a.effects| == StageIndex(stage))
  {
  }

  /**
   * Every message the relay sends goes to the peer it was given and replies
   * to the message being relayed, so one item's relay never speaks for another.
   */
  lemma EffectsStayOnTheirThread(m: Message, peer: InputPeer, token: string, fault: Fault, noticeDelivered: bool)
    ensures forall e :: e in ProcessVideo(m, peer, token, fault, noticeDelivered).effects ==>
      (e.SendText? ==> e.to == peer && e.replyTo == m.id) &&
      (e.SendMedia? ==> e.to == peer && e.replyTo == m.id)
  {
  }

  /**
   * The temporary file is deleted only on the success path: it is left
   * behind exactly when the download, the upload, the send or the delete
   * itself throws.
   */
  lemma {:induction false} TempFileLeftBehind(m: Message, d: Document, peer: InputPeer, token: string, fault: Fault, noticeDelivered: bool)
    requires DocumentOf(m) == Some(d)
    ensures var temp := TempName(token, FileName(m).value);
      LeavesFile(ProcessVideo(m, peer, token, fault, noticeDelivered).effects, temp) <==>
        fault.FailsAt? && fault.stage in {Download, Upload, SendVideo, DeleteTemp}
  {
    var fileName := FileName(m).value;
    var temp := TempName(token, fileName);
    var plan := Plan(m, d, peer, fileName, temp);
    var a := ProcessVideo(m, peer, token, fault, noticeDelivered);
    if fault.FailsAt? {
      var done := plan[..StageIndex(fault.stage)];
      var notice := SendText(peer, "Error: " + fault.reason, m.id);
      assert a.effects == done || a.effects == done + [notice];
      assert DeleteFile(temp) !in done;
      if fault.stage in {Announce, OpenTemp} {
        assert CreateFile(temp) !in done;
      } else {
        assert done[1] == CreateFile(temp);
      }
    } else {
      assert a.effects[5] == DeleteFile(temp);
    }
  }
}
