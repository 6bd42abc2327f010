/**
 * Which external calls `lambda_handler` makes on which path, stated over
 * the effect trace of `Handler.LambdaHandler`.
 */
module HandlerProperties {
  import opened Wrappers
  import opened PySemantics
  import opened Mail
  import opened Transcribe
  import opened Card
  import opened Handler

  datatype Kind = KFetchMail | KUpload | KStartJob | KPollJob | KFetchTranscript | KCreateCard | KLog

  function KindOf(e: Effect): Kind
  {
    match e
    case FetchMail(_, _) => KFetchMail
    case Upload(_, _, _, _, _) => KUpload
    case StartJob(_, _, _, _) => KStartJob
    case PollJob(_) => KPollJob
    case FetchTranscript(_) => KFetchTranscript
    case CreateCard(_, _) => KCreateCard
    case Log(_) => KLog
  }

  /** The kinds of effect that occur somewhere in a trace. */
  function Kinds(t: seq<Effect>): set<Kind>
  {
    if t == [] then {} else {KindOf(t[0])} + Kinds(t[1..])
  }

  lemma {:induction false} KindsAppend(a: seq<Effect>, b: seq<Effect>)
    ensures Kinds(a + b) == Kinds(a) + Kinds(b)
  {
    if a == [] {
      assert a + b == b;
    } else {
      assert (a + b)[1..] == a[1..] + b;
      KindsAppend(a[1..], b);
    }
  }

  lemma KindsOne(e: Effect)
    ensures Kinds([e]) == {KindOf(e)}
  {
    assert [e][1..] == [];
  }

  /** Polling issues status queries and log lines and nothing else. */
  lemma KindsSnoc(t: seq<Effect>, e: Effect)
    ensures Kinds(t + [e]) == Kinds(t) + {KindOf(e)}
  {
    KindsOne(e);
    KindsAppend(t, [e]);
  }

  lemma {:induction false} PollsKinds(jobName: string, responses: seq<string>)
    ensures Kinds(Polls(jobName, responses)) == if responses == [] then {} else {KPollJob, KLog}
  {
    if responses != [] {
      var rest := Polls(jobName, responses[1..]);
      KindsAppend([PollJob(jobName), Log(responses[0])], rest);
      PollsKinds(jobName, responses[1..]);
    }
  }

  /** `main` is entered: the first record names an `ObjectCreated:Put`. */
  predicate RunsMain(event: Event)
  {
    EventName(event) == Some(ObjectCreatedPut)
  }

  /** `main` got as far as the parsed message. */
  predicate MailFetched(event: Event, w: World)
  {
    RunsMain(event) && BucketAndObjectKey(event).Some? && w.mail.Some?
  }

  /** The attachment gate of `main`: a truthy payload and the expected MIME type. */
  predicate PassesGate(event: Event, w: World)
  {
    MailFetched(event, w) &&
    var att := AttachmentOf(w.mail.value, w.guessType);
    Truthy(att.data) && att.mimetype == Some(ExpectedMimetype)
  }

  /** The first terminal status the service reports is `COMPLETED`. */
  predicate JobCompleted(w: World)
  {
    var r := FirstWhere(w.statuses, IsTerminal);
    r.Some? && w.statuses[r.value] == Completed
  }

  /** Nothing raises between the completed job and the card request. */
  predicate CardInputsReady(w: World, parts: seq<Part>)
  {
    w.transcript.Some? && w.config.Some? && MailContentOf(parts, w.decode).Decoded?
  }

  /**
   * Reference description of the calls an invocation makes, read off the
   * branch conditions alone.
   */
  function ExpectedKinds(event: Event, w: World): set<Kind>
  {
    if EventName(event).None? then {KLog}
    else if !RunsMain(event) then {}
    else if BucketAndObjectKey(event).None? then {KLog}
    else if !PassesGate(event, w) then {KFetchMail, KLog}
    else
      {KFetchMail, KUpload, KStartJob} +
      (if w.statuses == [] then {} else {KPollJob, KLog}) +
      (if JobCompleted(w) then {KFetchTranscript} + (if CardInputsReady(w, w.mail.value) then {KCreateCard} else {})
       else {})
  }

  lemma PublicationKinds(before: seq<Effect>, parts: seq<Part>, filename: string, w: World)
    ensures Publication(before, parts, filename, w).Returned? <==> CardInputsReady(w, parts)
    ensures !Publication(before, parts, filename, w).Polling?
    ensures Kinds(Publication(before, parts, filename, w).effects) ==
              Kinds(before) + if CardInputsReady(w, parts) then {KCreateCard} else {}
  {
    if CardInputsReady(w, parts) {
      var config := w.config.value;
      var body := MailContentOf(parts, w.decode).text;
      var params := CardParams(config, CardTitle(filename), CardDescription(w.transcript.value, body));
      KindsOne(CreateCard(config.endpoint, params));
      KindsAppend(before, [CreateCard(config.endpoint, params)]);
    }
  }

  /** The calls made up to and including the job start. */
  lemma StartedKinds(before: seq<Effect>, upload: Effect, start: Effect)
    requires upload.Upload? && start.StartJob?
    ensures Kinds(before + [upload, start]) == Kinds(before) + {KUpload, KStartJob}
  {
    KindsOne(upload);
    KindsOne(start);
    KindsAppend(before, [upload]);
    KindsAppend(before + [upload], [start]);
    assert before + [upload, start] == before + [upload] + [start];
  }

  /** The calls made while polling up to and including a terminal status. */
  lemma PolledKinds(started: seq<Effect>, jobName: string, responses: seq<string>)
    requires responses != []
    ensures Kinds(started + Polls(jobName, responses)) == Kinds(started) + {KPollJob, KLog}
  {
    KindsAppend(started, Polls(jobName, responses));
    PollsKinds(jobName, responses);
  }

  /** The calls made once the job has reported a terminal status. */
  lemma TerminalKinds(polled: seq<Effect>, jobName: string, parts: seq<Part>, filename: string, w: World, i: nat)
    requires FirstWhere(w.statuses, IsTerminal) == Some(i)
    ensures var o := if w.statuses[i] != Completed then Returned(polled + [Log(JobFailedMessage)])
                     else Publication(polled + [FetchTranscript(jobName)], parts, filename, w);
      Kinds(o.effects) == Kinds(polled) +
        (if JobCompleted(w) then {KFetchTranscript} + (if CardInputsReady(w, parts) then {KCreateCard} else {})
         else {KLog})
  {
    if w.statuses[i] != Completed {
      KindsSnoc(polled, Log(JobFailedMessage));
    } else {
      KindsSnoc(polled, FetchTranscript(jobName));
      PublicationKinds(polled + [FetchTranscript(jobName)], parts, filename, w);
    }
  }

  lemma TranscriptionKinds(before: seq<Effect>, bucket: string, parts: seq<Part>, filename: string,
                           data: seq<byte>, w: World)
    ensures Transcription(before, bucket, parts, filename, data, w).Polling? <==>
              FirstWhere(w.statuses, IsTerminal).None?
    ensures Transcription(before, bucket, parts, filename, data, w).Raised? <==>
              JobCompleted(w) && !CardInputsReady(w, parts)
    ensures Kinds(Transcription(before, bucket, parts, filename, data, w).effects) ==
              Kinds(before) + {KUpload, KStartJob} +
              (if w.statuses == [] then {} else {KPollJob, KLog}) +
              (if JobCompleted(w) then {KFetchTranscript} + (if CardInputsReady(w, parts) then {KCreateCard} else {})
               else {})
  {
    var jobName := UniqueJobName(w.requestId);
    var upload := Upload(bucket, filename, data, ExpectedMimetype, PrivateAcl);
    var start := StartJob(jobName, MediaFileUri(bucket, filename), ExpectedMediaFormat, ExpectedLanguageCode);
    var started := before + [upload, start];
    StartedKinds(before, upload, start);
    match FirstWhere(w.statuses, IsTerminal)
    case None =>
      KindsAppend(started, Polls(jobName, w.statuses));
      PollsKinds(jobName, w.statuses);
    case Some(i) =>
      var polled := started + Polls(jobName, w.statuses[..i + 1]);
      PolledKinds(started, jobName, w.statuses[..i + 1]);
      TerminalKinds(polled, jobName, parts, filename, w, i);
      if w.statuses[i] == Completed {
        PublicationKinds(polled + [FetchTranscript(jobName)], parts, filename, w);
      }
  }

  /** The kinds of call an invocation makes are exactly those the reference description names. */
  lemma HandlerKinds(event: Event, w: World)
    ensures Kinds(LambdaHandler(event, w).effects) == ExpectedKinds(event, w)
  {
    KindsOne(Log(HandlerMessage));
    if !RunsMain(event) || BucketAndObjectKey(event).None? {
      return;
    }
    var loc := BucketAndObjectKey(event).value;
    var fetched := [FetchMail(loc.0, loc.1)];
    KindsOne(fetched[0]);
    if w.mail.None? {
      KindsAppend(fetched, [Log(HandlerMessage)]);
      return;
    }
    var parts := w.mail.value;
    var att := AttachmentOf(parts, w.guessType);
    if !Truthy(att.data) {
      KindsOne(Log(NoAttachmentMessage));
      KindsAppend(fetched, [Log(NoAttachmentMessage)]);
    } else if att.mimetype != Some(ExpectedMimetype) {
      KindsOne(Log(UnexpectedMimetypeMessage(att.mimetype)));
      KindsAppend(fetched, [Log(UnexpectedMimetypeMessage(att.mimetype))]);
    } else {
      var o := Transcription(fetched, loc.0, parts, att.filename.value, att.data.value, w);
      TranscriptionKinds(fetched, loc.0, parts, att.filename.value, att.data.value, w);
      if o.Raised? {
        KindsAppend(o.effects, [Log(HandlerMessage)]);
      }
    }
  }

  /** Upload and StartJob happen exactly when the payload is non-empty and the guessed type is `audio/x-wav`. */
  lemma UploadAndStartJobOnlyThroughGate(event: Event, w: World)
    ensures KUpload in Kinds(LambdaHandler(event, w).effects) <==> PassesGate(event, w)
    ensures KStartJob in Kinds(LambdaHandler(event, w).effects) <==> PassesGate(event, w)
  {
    HandlerKinds(event, w);
  }

  /** A card is created exactly when, past the gate, the job completes and nothing on the way raises. */
  lemma CreateCardOnlyOnCompletion(event: Event, w: World)
    ensures KCreateCard in Kinds(LambdaHandler(event, w).effects) <==>
              PassesGate(event, w) && JobCompleted(w) && CardInputsReady(w, w.mail.value)
  {
    HandlerKinds(event, w);
  }

  /** An event other than `ObjectCreated:Put`, or one whose name cannot be read, causes no external call. */
  lemma GuardBlocksOtherEvents(event: Event, w: World)
    requires !RunsMain(event)
    ensures LambdaHandler(event, w).completes
    ensures Kinds(LambdaHandler(event, w).effects) <= {KLog}
    ensures EventName(event).None? ==> LambdaHandler(event, w).effects == [Log(HandlerMessage)]
    ensures EventName(event).Some? ==> LambdaHandler(event, w).effects == []
  {
    HandlerKinds(event, w);
  }

  /**
   * Presence is decided by the payload, not the filename: an attachment
   * with a name but no bytes takes the `no attachment.` path.
   */
  lemma EmptyPayloadIsNoAttachment(event: Event, w: World)
    requires MailFetched(event, w)
    requires AttachmentOf(w.mail.value, w.guessType).data == Some([])
    ensures AttachmentOf(w.mail.value, w.guessType).filename.Some?
    ensures var loc := BucketAndObjectKey(event).value;
      LambdaHandler(event, w) == Invocation([FetchMail(loc.0, loc.1), Log(NoAttachmentMessage)], true)
  {
  }

  /**
   * An attachment whose payload does not decode to bytes (an attached
   * message, say) is reported as missing, just like an empty one.
   */
  lemma PayloadlessAttachmentIsNoAttachment(event: Event, w: World)
    requires MailFetched(event, w)
    requires AttachmentOf(w.mail.value, w.guessType).filename.Some?
    requires AttachmentOf(w.mail.value, w.guessType).data.None?
    ensures var loc := BucketAndObjectKey(event).value;
      LambdaHandler(event, w) == Invocation([FetchMail(loc.0, loc.1), Log(NoAttachmentMessage)], true)
  {
  }

  /** A payload whose guessed type is not `audio/x-wav` is logged with both types and nothing else is called. */
  lemma MimetypeMismatchOnlyLogs(event: Event, w: World)
    requires MailFetched(event, w)
    requires Truthy(AttachmentOf(w.mail.value, w.guessType).data)
    requires AttachmentOf(w.mail.value, w.guessType).mimetype != Some(ExpectedMimetype)
    ensures var loc := BucketAndObjectKey(event).value;
      var mimetype := AttachmentOf(w.mail.value, w.guessType).mimetype;
      LambdaHandler(event, w) == Invocation([FetchMail(loc.0, loc.1), Log(UnexpectedMimetypeMessage(mimetype))], true)
  {
  }

  /** A job whose first terminal status is `FAILED` ends with the failure line and no card. */
  lemma FailedJobMakesNoCard(event: Event, w: World)
    requires PassesGate(event, w)
    requires FirstWhere(w.statuses, IsTerminal).Some? && w.statuses[FirstWhere(w.statuses, IsTerminal).value] == Failed
    ensures LambdaHandler(event, w).completes
    ensures KCreateCard !in Kinds(LambdaHandler(event, w).effects)
    ensures KFetchTranscript !in Kinds(LambdaHandler(event, w).effects)
    ensures var t := LambdaHandler(event, w).effects; |t| > 0 && t[|t| - 1] == Log(JobFailedMessage)
  {
    HandlerKinds(event, w);
  }

  /**
   * The whole trace of a successful run: fetch, re-store the attachment
   * under its filename, start job `job_<request id>` on its URI, poll up to
   * the first terminal status, fetch the transcript, and create the card
   * titled from the filename and described by transcript and body.
   */
  lemma SuccessTrace(event: Event, w: World)
    requires PassesGate(event, w) && JobCompleted(w) && CardInputsReady(w, w.mail.value)
    ensures var loc := BucketAndObjectKey(event).value;
      var att := AttachmentOf(w.mail.value, w.guessType);
      var filename := att.filename.value;
      var jobName := UniqueJobName(w.requestId);
      var i := FirstWhere(w.statuses, IsTerminal).value;
      var config := w.config.value;
      var desc := CardDescription(w.transcript.value, MailContentOf(w.mail.value, w.decode).text);
      LambdaHandler(event, w) == Invocation(
        [FetchMail(loc.0, loc.1),
         Upload(loc.0, filename, att.data.value, ExpectedMimetype, PrivateAcl),
         StartJob(jobName, MediaFileUri(loc.0, filename), ExpectedMediaFormat, ExpectedLanguageCode)] +
        Polls(jobName, w.statuses[..i + 1]) +
        [FetchTranscript(jobName), CreateCard(config.endpoint, CardParams(config, CardTitle(filename), desc))],
        true)
  {
    SuccessMain(event, w);
  }

  /** `main`'s part of `SuccessTrace`. */
  lemma SuccessMain(event: Event, w: World)
    requires PassesGate(event, w) && JobCompleted(w) && CardInputsReady(w, w.mail.value)
    ensures var loc := BucketAndObjectKey(event).value;
      var att := AttachmentOf(w.mail.value, w.guessType);
      var filename := att.filename.value;
      var jobName := UniqueJobName(w.requestId);
      var i := FirstWhere(w.statuses, IsTerminal).value;
      var config := w.config.value;
      var desc := CardDescription(w.transcript.value, MailContentOf(w.mail.value, w.decode).text);
      Main(event, w) == Returned(
        [FetchMail(loc.0, loc.1),
         Upload(loc.0, filename, att.data.value, ExpectedMimetype, PrivateAcl),
         StartJob(jobName, MediaFileUri(loc.0, filename), ExpectedMediaFormat, ExpectedLanguageCode)] +
        Polls(jobName, w.statuses[..i + 1]) +
        [FetchTranscript(jobName), CreateCard(config.endpoint, CardParams(config, CardTitle(filename), desc))])
  {
    var loc := BucketAndObjectKey(event).value;
    var att := AttachmentOf(w.mail.value, w.guessType);
    var filename := att.filename.value;
    var jobName := UniqueJobName(w.requestId);
    var i := FirstWhere(w.statuses, IsTerminal).value;
    var config := w.config.value;
    var desc := CardDescription(w.transcript.value, MailContentOf(w.mail.value, w.decode).text);
    var fetched := [FetchMail(loc.0, loc.1)];
    var polled := fetched + [
      Upload(loc.0, filename, att.data.value, ExpectedMimetype, PrivateAcl),
      StartJob(jobName, MediaFileUri(loc.0, filename), ExpectedMediaFormat, ExpectedLanguageCode)] +
      Polls(jobName, w.statuses[..i + 1]) + [FetchTranscript(jobName)];
    var card := CreateCard(config.endpoint, CardParams(config, CardTitle(filename), desc));
    assert Main(event, w) == Returned(polled + [card]) by {
      assert Main(event, w) == Transcription(fetched, loc.0, w.mail.value, filename, att.data.value, w);
      CompletedTranscription(fetched, loc.0, w.mail.value, filename, att.data.value, w);
      ReadyPublication(polled, w.mail.value, filename, w);
    }
    Regroup(fetched[0], Upload(loc.0, filename, att.data.value, ExpectedMimetype, PrivateAcl),
      StartJob(jobName, MediaFileUri(loc.0, filename), ExpectedMediaFormat, ExpectedLanguageCode),
      Polls(jobName, w.statuses[..i + 1]), FetchTranscript(jobName), card);
  }

  /** Regrouping of a successful trace. */
  lemma Regroup(fetch: Effect, upload: Effect, start: Effect, polls: seq<Effect>, transcript: Effect, card: Effect)
    ensures [fetch] + [upload, start] + polls + [transcript] + [card] ==
              [fetch, upload, start] + polls + [transcript, card]
  {
    assert [fetch] + [upload, start] == [fetch, upload, start];
    assert [transcript] + [card] == [transcript, card];
  }

  /** A completed job leads from the job start through the polls to the transcript request. */
  lemma CompletedTranscription(before: seq<Effect>, bucket: string, parts: seq<Part>, filename: string,
                               data: seq<byte>, w: World)
    requires JobCompleted(w)
    ensures var jobName := UniqueJobName(w.requestId);
      var i := FirstWhere(w.statuses, IsTerminal).value;
      Transcription(before, bucket, parts, filename, data, w) ==
        Publication(before + [
          Upload(bucket, filename, data, ExpectedMimetype, PrivateAcl),
          StartJob(jobName, MediaFileUri(bucket, filename), ExpectedMediaFormat, ExpectedLanguageCode)] +
          Polls(jobName, w.statuses[..i + 1]) + [FetchTranscript(jobName)], parts, filename, w)
  {
  }

  /** With every card input present, the card request closes the trace. */
  lemma ReadyPublication(before: seq<Effect>, parts: seq<Part>, filename: string, w: World)
    requires CardInputsReady(w, parts)
    ensures var config := w.config.value;
      var desc := CardDescription(w.transcript.value, MailContentOf(parts, w.decode).text);
      Publication(before, parts, filename, w) ==
        Returned(before + [CreateCard(config.endpoint, CardParams(config, CardTitle(filename), desc))])
  {
  }

  /**
   * A completed job whose email has no text body still re-stores the audio
   * and starts the job, but the description cannot be built: the exception
   * is swallowed and the handler logs its line instead of creating a card.
   */
  lemma MissingBodyIsSwallowed(event: Event, w: World)
    requires PassesGate(event, w) && JobCompleted(w)
    requires w.transcript.Some? && w.config.Some?
    requires forall j :: 0 <= j < |w.mail.value| ==> !IsBodyPart(w.mail.value[j])
    ensures LambdaHandler(event, w).completes
    ensures {KUpload, KStartJob, KFetchTranscript} <= Kinds(LambdaHandler(event, w).effects)
    ensures KCreateCard !in Kinds(LambdaHandler(event, w).effects)
    ensures var t := LambdaHandler(event, w).effects; |t| > 0 && t[|t| - 1] == Log(HandlerMessage)
  {
    CardInputsMissingIsSwallowed(event, w);
  }

  /**
   * A text body without a charset parameter is decoded under the codec name
   * "None"; when the decoder rejects that name, the run ends in the
   * handler's log line after the audio was re-stored and transcribed.
   */
  lemma AbsentCharsetBodyMakesNoCard(event: Event, w: World, i: nat)
    requires PassesGate(event, w) && JobCompleted(w)
    requires w.transcript.Some? && w.config.Some?
    requires i < |w.mail.value| && IsBodyPart(w.mail.value[i]) && w.mail.value[i].charset.None?
    requires forall j :: 0 <= j < i ==> !IsBodyPart(w.mail.value[j])
    requires w.mail.value[i].payload.Some? ==> w.decode(w.mail.value[i].payload.value, "None").None?
    ensures {KUpload, KStartJob, KFetchTranscript} <= Kinds(LambdaHandler(event, w).effects)
    ensures KCreateCard !in Kinds(LambdaHandler(event, w).effects)
    ensures var t := LambdaHandler(event, w).effects; |t| > 0 && t[|t| - 1] == Log(HandlerMessage)
  {
    AbsentCharsetNotDecoded(w.mail.value, w.decode, i);
    CardInputsMissingIsSwallowed(event, w);
  }

  /** The body selected in `AbsentCharsetBodyMakesNoCard` does not yield text. */
  lemma AbsentCharsetNotDecoded(parts: seq<Part>, decode: (seq<byte>, string) -> Option<string>, i: nat)
    requires i < |parts| && IsBodyPart(parts[i]) && parts[i].charset.None?
    requires forall j :: 0 <= j < i ==> !IsBodyPart(parts[j])
    requires parts[i].payload.Some? ==> decode(parts[i].payload.value, "None").None?
    ensures !MailContentOf(parts, decode).Decoded?
  {
    if parts[i].payload.Some? {
      AbsentCharsetIsDecodedAsNone(parts, decode, i);
    } else {
      FirstWhereUnique(parts, IsBodyPart, i);
    }
  }

  /**
   * Past the gate, a completed job whose card inputs are not ready makes
   * `main` raise after the transcript request; the handler swallows it.
   */
  lemma CardInputsMissingIsSwallowed(event: Event, w: World)
    requires PassesGate(event, w) && JobCompleted(w) && !CardInputsReady(w, w.mail.value)
    ensures LambdaHandler(event, w).completes
    ensures {KUpload, KStartJob, KFetchTranscript} <= Kinds(LambdaHandler(event, w).effects)
    ensures KCreateCard !in Kinds(LambdaHandler(event, w).effects)
    ensures var t := LambdaHandler(event, w).effects; |t| > 0 && t[|t| - 1] == Log(HandlerMessage)
  {
    var loc := BucketAndObjectKey(event).value;
    var att := AttachmentOf(w.mail.value, w.guessType);
    TranscriptionKinds([FetchMail(loc.0, loc.1)], loc.0, w.mail.value, att.filename.value, att.data.value, w);
    HandlerKinds(event, w);
  }

  /** The handler returns on every path except a job that never reaches a terminal status. */
  lemma HandlerCompletesUnlessPollingNeverEnds(event: Event, w: World)
    ensures !LambdaHandler(event, w).completes <==>
              PassesGate(event, w) && forall j :: 0 <= j < |w.statuses| ==> !IsTerminal(w.statuses[j])
  {
    if PassesGate(event, w) {
      var loc := BucketAndObjectKey(event).value;
      var att := AttachmentOf(w.mail.value, w.guessType);
      TranscriptionKinds([FetchMail(loc.0, loc.1)], loc.0, w.mail.value, att.filename.value, att.data.value, w);
    }
  }

  /** Only the first notification record is read. */
  lemma OnlyFirstRecordRead(r: Record, rest1: seq<Record>, rest2: seq<Record>, w: World)
    ensures LambdaHandler(Event(Some([r] + rest1)), w) == LambdaHandler(Event(Some([r] + rest2)), w)
  {
    assert BucketAndObjectKey(Event(Some([r] + rest1))) == BucketAndObjectKey(Event(Some([r] + rest2)));
  }

  /** The event of the end-to-end scenario: one email stored as `mail/123`. */
  function ScenarioEvent(): Event
  {
    Event(Some([Record(Some(ObjectCreatedPut), Some("rusuden-bucket"), Some("mail/123"))]))
  }

  /** A multipart email with a text body and one WAV attachment, and a job that completes on the second poll. */
  function ScenarioWorld(statuses: seq<string>): World
  {
    World(
      "request-1",
      Some([Part("multipart", None, None, None),
            Part("text", None, Some("utf-8"), Some([1, 2, 3])),
            Part("audio", Some("20200201120530.wav"), None, Some([4, 5, 6]))]),
      f => if f == "20200201120530.wav" then Some(ExpectedMimetype) else None,
      statuses,
      Some("こんにちは"),
      Some(TrelloConfig("https://trello.example/1/cards", "key", "token", "list")),
      (b, c) => if c == "utf-8" then Some("テスト本文") else None)
  }

  /**
   * The scenario takes the success path of SuccessTrace, and the card it
   * creates is titled from the filename and described by transcript and body.
   */
  lemma EndToEndScenario()
    ensures var e, w := ScenarioEvent(), ScenarioWorld(["IN_PROGRESS", Completed]);
      PassesGate(e, w) && JobCompleted(w) && CardInputsReady(w, w.mail.value) &&
      FirstWhere(w.statuses, IsTerminal) == Some(1) &&
      CardTitle(AttachmentOf(w.mail.value, w.guessType).filename.value) == "[Rusuden]2020/02/01 12:05 着信" &&
      CardDescription(w.transcript.value, MailContentOf(w.mail.value, w.decode).text) == "こんにちは\n\nテスト本文"
  {
    var e := ScenarioEvent();
    var w := ScenarioWorld(["IN_PROGRESS", Completed]);
    var parts := w.mail.value;
    assert IsAttachmentPart(parts[2]) && !IsAttachmentPart(parts[0]) && !IsAttachmentPart(parts[1]);
    FirstWhereUnique(parts, IsAttachmentPart, 2);
    assert IsBodyPart(parts[1]) && !IsBodyPart(parts[0]);
    FirstWhereUnique(parts, IsBodyPart, 1);
    FirstWhereUnique(w.statuses, IsTerminal, 1);
    assert PassesGate(e, w);
    assert JobCompleted(w);
    assert MailContentOf(parts, w.decode) == Decoded("テスト本文");
    assert CardInputsReady(w, parts);
    CardTitleExample();
    assert AttachmentOf(parts, w.guessType).filename.value == "20200201120530.wav";
  }

  /** The same email with a job that fails: no request reaches the board. */
  lemma FailedScenarioMakesNoCard()
    ensures KCreateCard !in Kinds(LambdaHandler(ScenarioEvent(), ScenarioWorld(["IN_PROGRESS", Failed])).effects)
    ensures KStartJob in Kinds(LambdaHandler(ScenarioEvent(), ScenarioWorld(["IN_PROGRESS", Failed])).effects)
  {
    var w := ScenarioWorld(["IN_PROGRESS", Failed]);
    var parts := w.mail.value;
    assert IsAttachmentPart(parts[2]) && !IsAttachmentPart(parts[0]) && !IsAttachmentPart(parts[1]);
    FirstWhereUnique(parts, IsAttachmentPart, 2);
    FirstWhereUnique(w.statuses, IsTerminal, 1);
    assert PassesGate(ScenarioEvent(), w);
    FailedJobMakesNoCard(ScenarioEvent(), w);
    HandlerKinds(ScenarioEvent(), w);
  }
}
