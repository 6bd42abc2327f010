/**
 * `lambda_handler` and its inner `main` from `lambda_function.py`, as a
 * function from the invocation's inputs to the trace of effects it causes.
 *
 * Every collaborator is an input: the storage notification, the request id
 * of the runtime context, the walked parts of the fetched email, the
 * filename-to-MIME table, the successive statuses the transcription
 * service reports, the transcript text, the four configuration values and
 * the byte decoder. Where a collaborator can raise, its input is optional
 * and `None` stands for the exception.
 */
module Handler {
  import opened Wrappers
  import opened PySemantics
  import opened Mail
  import opened Transcribe
  import opened Card

  const ObjectCreatedPut := "ObjectCreated:Put"
  const ExpectedMimetype := "audio/x-wav"
  const PrivateAcl := "private"

  const HandlerMessage := "only invoked by 'ObjectCreated:Put'."
  const NoAttachmentMessage := "no attachment."
  const JobFailedMessage := "transcribe job terminated in 'FAILED' status."

  function UnexpectedMimetypeMessage(mimetype: Option<string>): string
  {
    "unexpected mimetype. Expected:'" + ExpectedMimetype + "' Actual:'" + Str(mimetype) + "'"
  }

  /**
   * One notification record. A field is `None` when the key path leading
   * to it (`eventName`, `s3.bucket.name`, `s3.object.key`) is missing.
   */
  datatype Record = Record(eventName: Option<string>, bucketName: Option<string>, objectKey: Option<string>)

  /** The notification; `records` is `None` when the event has no `Records` key. */
  datatype Event = Event(records: Option<seq<Record>>)

  /** `event['Records'][0]['eventName']`, or `None` when that lookup raises. */
  function EventName(event: Event): (name: Option<string>)
    ensures name.Some? ==> event.records.Some? && |event.records.value| > 0
    ensures name.Some? <==> event.records.Some? && |event.records.value| > 0 && event.records.value[0].eventName.Some?
    ensures name.Some? ==> name == event.records.value[0].eventName
  {
    match event.records
    case None => None
    case Some(rs) => if |rs| == 0 then None else rs[0].eventName
  }

  /** `get_target_bucket_name_and_object_key`: the first record's bucket and key, or `None` when a lookup raises. */
  function BucketAndObjectKey(event: Event): (loc: Option<(string, string)>)
    ensures loc.Some? <==> event.records.Some? && |event.records.value| > 0 &&
                           event.records.value[0].bucketName.Some? && event.records.value[0].objectKey.Some?
    ensures loc.Some? ==> loc.value == (event.records.value[0].bucketName.value, event.records.value[0].objectKey.value)
  {
    match event.records
    case None => None
    case Some(rs) =>
      if |rs| == 0 || rs[0].bucketName.None? || rs[0].objectKey.None? then None
      else Some((rs[0].bucketName.value, rs[0].objectKey.value))
  }

  /** What the collaborators answer during one invocation. */
  datatype World = World(
    requestId: string,                            // context.aws_request_id
    mail: Option<seq<Part>>,                      // the fetched email's parts; None if get_object or UTF-8 decoding raised
    guessType: string -> Option<string>,          // mimetypes.guess_type(filename)[0]
    statuses: seq<string>,                        // the status each successive poll reports
    transcript: Option<string>,                   // the transcript text; None if fetching or parsing it raised
    config: Option<TrelloConfig>,                 // the environment values; None if one is missing
    decode: (seq<byte>, string) -> Option<string> // bytes.decode(codec); None if it raised
  )

  /** The external calls and log lines of an invocation. */
  datatype Effect =
    | FetchMail(bucket: string, key: string)
    | Upload(bucket: string, key: string, data: seq<byte>, contentType: string, acl: string)
    | StartJob(jobName: string, mediaUri: string, mediaFormat: string, languageCode: string)
    | PollJob(jobName: string)
    | FetchTranscript(jobName: string)
    | CreateCard(endpoint: string, params: seq<(string, string)>)
    | Log(message: string)

  /** How `main` ends: it returns, it raises, or it is still polling when the status sequence runs out. */
  datatype Outcome =
    | Returned(effects: seq<Effect>)
    | Raised(effects: seq<Effect>)
    | Polling(effects: seq<Effect>)

  /** The invocation as the runtime sees it: its effects and whether the handler completes at all. */
  datatype Invocation = Invocation(effects: seq<Effect>, completes: bool)

  /** Each poll queries the job and prints the status it got. */
  function Polls(jobName: string, responses: seq<string>): (t: seq<Effect>)
    ensures |t| == 2 * |responses|
    ensures forall k :: 0 <= k < |t| ==> t[k] == if k % 2 == 0 then PollJob(jobName) else Log(responses[k / 2])
  {
    if responses == [] then []
    else [PollJob(jobName), Log(responses[0])] + Polls(jobName, responses[1..])
  }

  /** The inner `main`: fetch the email, select its attachment and gate it on presence and MIME type. */
  function Main(event: Event, w: World): (o: Outcome)
    ensures o.effects == [] <==> BucketAndObjectKey(event).None?
    ensures o.effects == [] ==> o.Raised?
    ensures BucketAndObjectKey(event).Some? ==>
              o.effects[0] == FetchMail(BucketAndObjectKey(event).value.0, BucketAndObjectKey(event).value.1)
    ensures BucketAndObjectKey(event).Some? && w.mail.None? ==> o.Raised? && |o.effects| == 1
    ensures |o.effects| > 2 <==>
              BucketAndObjectKey(event).Some? && w.mail.Some? &&
              Truthy(AttachmentOf(w.mail.value, w.guessType).data) &&
              AttachmentOf(w.mail.value, w.guessType).mimetype == Some(ExpectedMimetype)
    ensures |o.effects| > 2 ==> o.effects[1].Upload? && o.effects[1].data == AttachmentOf(w.mail.value, w.guessType).data.value
  {
    match BucketAndObjectKey(event)
    case None => Raised([])
    case Some(loc) =>
      var fetched := [FetchMail(loc.0, loc.1)];
      match w.mail
      case None => Raised(fetched)
      case Some(parts) =>
        var att := AttachmentOf(parts, w.guessType);
        if !Truthy(att.data) then
          Returned(fetched + [Log(NoAttachmentMessage)])
        else if att.mimetype != Some(ExpectedMimetype) then
          Returned(fetched + [Log(UnexpectedMimetypeMessage(att.mimetype))])
        else
          Transcription(fetched, loc.0, parts, att.filename.value, att.data.value, w)
  }

  /**
   * The audio branch of `main`: re-store the attachment under its own
   * name, start the job, poll it and branch on the terminal status.
   */
  function Transcription(before: seq<Effect>, bucket: string, parts: seq<Part>, filename: string,
                         data: seq<byte>, w: World): (o: Outcome)
    ensures |before| + 2 <= |o.effects| && o.effects[..|before|] == before
    ensures o.effects[|before|] == Upload(bucket, filename, data, ExpectedMimetype, PrivateAcl)
    ensures o.effects[|before| + 1] ==
              StartJob(UniqueJobName(w.requestId), MediaFileUri(bucket, filename), ExpectedMediaFormat, ExpectedLanguageCode)
    ensures o.Polling? <==> forall j :: 0 <= j < |w.statuses| ==> !IsTerminal(w.statuses[j])
    ensures o.Polling? ==> |o.effects| == |before| + 2 + 2 * |w.statuses|
  {
    var jobName := UniqueJobName(w.requestId);
    var started := before + [
      Upload(bucket, filename, data, ExpectedMimetype, PrivateAcl),
      StartJob(jobName, MediaFileUri(bucket, filename), ExpectedMediaFormat, ExpectedLanguageCode)];
    match FirstWhere(w.statuses, IsTerminal)
    case None => Polling(started + Polls(jobName, w.statuses))
    case Some(i) =>
      var polled := started + Polls(jobName, w.statuses[..i + 1]);
      if w.statuses[i] != Completed then
        Returned(polled + [Log(JobFailedMessage)])
      else
        Publication(polled + [FetchTranscript(jobName)], parts, filename, w)
  }

  /**
   * The `COMPLETED` branch of `main` after the transcript was requested:
   * read the configuration, build the title and the description, and
   * create the card. A missing transcript or configuration value, a body
   * the decoder rejects, and a body that is not text (`None` or `bytes`,
   * which `str + ...` refuses) all raise.
   */
  function Publication(before: seq<Effect>, parts: seq<Part>, filename: string, w: World): (o: Outcome)
    ensures !o.Polling?
    ensures o.Returned? <==> w.transcript.Some? && w.config.Some? && MailContentOf(parts, w.decode).Decoded?
    ensures o.Raised? ==> o.effects == before
    ensures o.Returned? ==>
              |o.effects| == |before| + 1 && o.effects[..|before|] == before &&
              o.effects[|before|].CreateCard? && o.effects[|before|].endpoint == w.config.value.endpoint
  {
    match (w.transcript, w.config)
    case (None, _) => Raised(before)
    case (_, None) => Raised(before)
    case (Some(text), Some(config)) =>
      match MailContentOf(parts, w.decode)
      case Decoded(body) =>
        var params := CardParams(config, CardTitle(filename), CardDescription(text, body));
        Returned(before + [CreateCard(config.endpoint, params)])
      case _ => Raised(before)
  }

  /**
   * `lambda_handler`: run `main` only for an `ObjectCreated:Put` event, and
   * turn any exception raised on the way into one log line.
   */
  function LambdaHandler(event: Event, w: World): (inv: Invocation)
    ensures EventName(event).None? ==> inv == Invocation([Log(HandlerMessage)], true)
    ensures EventName(event).Some? && EventName(event) != Some(ObjectCreatedPut) ==> inv == Invocation([], true)
    ensures !inv.completes <==> EventName(event) == Some(ObjectCreatedPut) && Main(event, w).Polling?
    ensures EventName(event) == Some(ObjectCreatedPut) ==>
              Main(event, w).effects <= inv.effects &&
              (inv.effects == Main(event, w).effects + [Log(HandlerMessage)] <==> Main(event, w).Raised?)
  {
    match EventName(event)
    case None => Invocation([Log(HandlerMessage)], true)
    case Some(name) =>
      if name != ObjectCreatedPut then Invocation([], true)
      else
        match Main(event, w)
        case Returned(t) => Invocation(t, true)
        case Raised(t) => Invocation(t + [Log(HandlerMessage)], true)
        case Polling(t) => Invocation(t, false)
  }
}
