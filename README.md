# Rusuden voicemail lambda, modelled in Dafny

The system is one AWS Lambda function (`rusuden-aws-function-00/lambda_function.py`).
An S3 `ObjectCreated:Put` notification tells it that an inbound voicemail email was stored.
It then:

1. fetches the email and takes its first attachment;
2. if the attachment is a WAV file, re-stores it under its own filename;
3. starts an Amazon Transcribe job on it (format `wav`, language `ja-JP`) and polls until the job is `COMPLETED` or `FAILED`;
4. on success, creates a Trello card. The title is built from the filename, read as a `YYYYMMDDHHmm` timestamp. The description is the transcript, a blank line, and the email's text body.

The model keeps the parts of that file that decide or compute something, and turns every external call into an input or an effect:

- `wrappers.dfy` (`Wrappers`): `Option`.
- `pysemantics.dfy` (`PySemantics`): the Python semantics the code relies on.
  - Truthiness of optional `str`/`bytes`.
  - `str()` of a value that may be `None`.
  - Slices that clamp to the length.
  - `FirstWhere`, the "first element that qualifies" scan that both `for part in msg_obj.walk()` loops and the poll loop perform.
- `mail.dfy` (`Mail`): a parsed email is the sequence of its parts in `walk()` order. That order is the pre-order depth-first traversal of the multipart tree in section 5.1 of RFC 2046.
  - Each part has a main type, an optional filename, an optional charset and an optional payload of bytes. `get_payload(decode=True)` gives `None` for a part that holds parts of its own, such as an attached `message/rfc822`.
  - `parse_attachment` and `parse_mail_content` are loop methods (`ParseAttachment`, `ParseMailContent`), each proved equal to a specification function (`AttachmentOf`, `MailContentOf`).
  - `mimetypes.guess_type` and `bytes.decode` are function-valued inputs. The decoder returns `None` where Python would raise.
- `transcribe.dfy` (`Transcribe`):
  - `wait_for_job_completion` is a `while true` loop over the sequence of statuses that successive polls report.
  - Also here: the job name and the media URI builders.
- `card.dfy` (`Card`): the card title, the description and the six query parameters of the card request.
- `handler.dfy` (`Handler`): `main` and `lambda_handler` are a function from the invocation's inputs to a trace of effects. The effects are `FetchMail`, `Upload`, `StartJob`, `PollJob`, `FetchTranscript`, `CreateCard` and `Log`. An `Outcome` says whether `main` returned, raised (then the handler's bare `except` adds its single log line), or was still polling when the status sequence ran out.
- `handler_properties.dfy` (`HandlerProperties`): which external calls happen on which path.

Where a collaborator can raise, its input is optional, and `None` stands for the exception. This covers:

- the event's key lookups;
- `get_object` together with the UTF-8 decoding of the mail;
- fetching and parsing the transcript JSON;
- the `os.environ` lookups;
- the byte decoder.

Two behaviours of the code are easy to misread; the model follows the code:

- **The charset test in `parse_mail_content`** (`lambda_function.py:138-142`) tests `str(part.get_content_charset())`. An absent charset therefore becomes the text `"None"`, which is truthy, so the part is decoded under the codec name `"None"`. The raw-bytes branch runs only for a charset that is present and empty.
  - In CPython no codec has that name, so `decode` raises. Even the raw-bytes branch would fail later, when `create_card_discript` concatenates `str` and `bytes`.
  - So a text body without a charset parameter leads to no card. The run ends in the handler's log line, after the audio was re-stored and transcribed (`AbsentCharsetBodyMakesNoCard`).
- **Attachment presence** (`lambda_function.py:29`) is decided by the payload being non-empty, not by the filename. An attachment with a name and no bytes takes the `no attachment.` path (`EmptyPayloadIsNoAttachment`). So does a named part whose payload is `None` (`PayloadlessAttachmentIsNoAttachment`).

## Model

| member | source | states |
|---|---|---|
| `PySemantics.Slice` | rusuden-aws-function-00/lambda_function.py:232-237 | `s[lo:hi]` clamps both bounds to the length: its length is the difference of the clamped bounds, and it holds the elements of `s` from `lo`. |
| `PySemantics.FirstWhere` | rusuden-aws-function-00/lambda_function.py:110-118 | The scan returns the index of an element that qualifies, with no earlier element qualifying. It returns `None` exactly when no element qualifies. |
| `Mail.AttachmentOf` | rusuden-aws-function-00/lambda_function.py:107-126 | Data is present only with a filename, and is that part's payload, which may be `None`. With no filename the result is `(None, None, None)`. A present filename is non-empty, and the MIME type is `guess_type` of that filename alone. |
| `Mail.ParseAttachment` | rusuden-aws-function-00/lambda_function.py:110-126 | The loop returns the first non-multipart part with a truthy filename: its payload, its filename and the type guessed from that filename. Every earlier part is a container or has no filename. With no such part it returns three `None`s. The result equals `AttachmentOf`. |
| `Mail.BodyOf` | rusuden-aws-function-00/lambda_function.py:137-142 | The raw payload is returned exactly when the charset is present and empty. Otherwise a `None` payload raises (`None.decode`), and a byte payload is decoded under `str(charset)`, with a decoder failure reported under that codec name. |
| `Mail.MailContentOf` | rusuden-aws-function-00/lambda_function.py:129-142 | The implicit `None` is returned exactly when no part is a non-multipart part with a falsy filename. |
| `Mail.ParseMailContent` | rusuden-aws-function-00/lambda_function.py:129-142 | The loop returns the body of the first non-multipart part with a falsy filename, with every earlier part disqualified, or `None` when there is none. The result equals `MailContentOf`. |
| `Mail.AbsentCharsetIsDecodedAsNone` | rusuden-aws-function-00/lambda_function.py:138-140 | A selected body part without a charset is still decoded, under the codec name `"None"`. |
| `Mail.UndecodedOnlyForEmptyCharset` | rusuden-aws-function-00/lambda_function.py:138-142 | The raw-bytes result happens if and only if the selected body part declares an empty charset. |
| `Mail.AttachmentAndBodyAreDistinct` | rusuden-aws-function-00/lambda_function.py:113-137 | The attachment and the body selected from one message are never the same part. |
| `Transcribe.WaitForJobCompletion` | rusuden-aws-function-00/lambda_function.py:185-195 | Given that some response is terminal: the loop queries at least once, never returns `INIT`, and returns exactly the first response that is `COMPLETED` or `FAILED`. All earlier responses are non-terminal. |
| `Transcribe.UniqueJobName` | rusuden-aws-function-00/lambda_function.py:164-165 | The name is `job_` followed by the request id, and the request id can be read back from it. |
| `Transcribe.UniqueJobNameInjective` | rusuden-aws-function-00/lambda_function.py:164-165 | Distinct request ids give distinct job names. |
| `Transcribe.MediaFileUri` | rusuden-aws-function-00/lambda_function.py:160-161 | The URI is the S3 prefix, the bucket, `/` and the filename, each at a fixed position. |
| `Transcribe.MediaFileUriInjective` | rusuden-aws-function-00/lambda_function.py:160-161 | For bucket names without `/`, the URI determines both the bucket and the filename. |
| `Transcribe.MediaFileUriAmbiguousWithSlash` | rusuden-aws-function-00/lambda_function.py:160-161 | Without that restriction, two different bucket/filename pairs give the same URI. |
| `Card.CardTitle` | rusuden-aws-function-00/lambda_function.py:231-238 | The title starts with `[Rusuden]` and ends with ` 着信`. Its length is 16 plus the number of filename characters read, which is at most 12. |
| `Card.CardTitleLayout` | rusuden-aws-function-00/lambda_function.py:231-238 | For a filename of at least 12 characters, the title is `[Rusuden]YYYY/MM/DD HH:mm 着信` built from `fn[0:4]` ... `fn[10:12]`. |
| `Card.TitleStampRoundTrip` | rusuden-aws-function-00/lambda_function.py:230-238 | For such filenames the title is 28 characters, and reading its digit fields back gives exactly the first 12 characters. |
| `Card.CardTitleReadsTwelveCharacters` | rusuden-aws-function-00/lambda_function.py:231-238 | The title of a filename equals the title of its first 12 characters, so the rest of the name (the extension included) never matters. |
| `Card.CardTitleExample` | rusuden-aws-function-00/lambda_function.py:230 | `20200201120530.wav` gives `[Rusuden]2020/02/01 12:05 着信`. |
| `Card.CardTitleShortFilename` | rusuden-aws-function-00/lambda_function.py:231-238 | Short filenames give clamped, truncated fields and no error: `2020` gives `[Rusuden]2020// : 着信`, and the empty name gives `[Rusuden]// : 着信`. |
| `Card.CardDescription` | rusuden-aws-function-00/lambda_function.py:241-245 | The description splits into the transcript, a blank line (`\n\n`) and the mail content, at fixed positions. |
| `Card.CardParams` | rusuden-aws-function-00/lambda_function.py:256-263 | The request carries six parameters, `key, token, idList, pos, name, desc` in that order. `pos` is `top`, `name` is the title and `desc` is the description. |
| `Handler.EventName` | rusuden-aws-function-00/lambda_function.py:277 | The event name is read exactly when `Records` exists, is non-empty and its first record has an `eventName`, and it is that first record's name. |
| `Handler.BucketAndObjectKey` | rusuden-aws-function-00/lambda_function.py:86-91 | Bucket and key come from the first record. The lookup fails exactly when a key on either path is missing. |
| `Handler.Polls` | rusuden-aws-function-00/lambda_function.py:187-192 | Each poll contributes two effects: the status query for the job, then the log line of the status it reported, in the order of the responses (`HandlerProperties.PollsKinds` gives its kinds). |
| `Handler.Main` | rusuden-aws-function-00/lambda_function.py:19-83 | A failed event lookup raises before any call. Otherwise the mail fetch is the first effect, and a mail that cannot be fetched raises right after it. More than the fetch and one log line happen exactly when the payload is truthy and guessed as `audio/x-wav`, and then the next effect uploads that payload (`HandlerProperties.HandlerKinds`, `HandlerProperties.SuccessTrace`). |
| `Handler.Transcription` | rusuden-aws-function-00/lambda_function.py:30-76 | The audio branch keeps the earlier trace, then uploads the attachment under its filename (type `audio/x-wav`, private ACL) and starts job `job_<request id>` on its URI. It keeps polling exactly when no response is terminal, with one query and one log line per response (`HandlerProperties.TranscriptionKinds`). |
| `Handler.Publication` | rusuden-aws-function-00/lambda_function.py:51-74 | After the transcript request, `main` returns exactly when transcript, configuration and a decoded text body are all present, with one card request to the configured endpoint. Otherwise it raises with no further call, and it never blocks (`HandlerProperties.PublicationKinds`). |
| `Handler.LambdaHandler` | rusuden-aws-function-00/lambda_function.py:276-280 | An unreadable event name yields only the handler's log line. Another event name yields nothing. For `ObjectCreated:Put` the trace extends `main`'s, by the log line exactly when `main` raised, and the invocation fails to return exactly when `main` is still polling (`HandlerProperties.HandlerKinds`, `HandlerProperties.GuardBlocksOtherEvents`). |
| `HandlerProperties.PollsKinds` | rusuden-aws-function-00/lambda_function.py:187-194 | Polling makes status queries and log lines and nothing else. |
| `HandlerProperties.PublicationKinds` | rusuden-aws-function-00/lambda_function.py:52-74 | After the transcript request, `main` returns with a card exactly when transcript, configuration and a decoded text body are all present. Otherwise it raises, and it never blocks. |
| `HandlerProperties.TranscriptionKinds` | rusuden-aws-function-00/lambda_function.py:31-76 | The audio branch always uploads and starts the job. It blocks exactly when no response is terminal, and raises exactly when the job completed but the card inputs are not ready. Its calls are those of `ExpectedKinds`. |
| `HandlerProperties.HandlerKinds` | rusuden-aws-function-00/lambda_function.py:19-83 | The kinds of call in an invocation's trace equal `ExpectedKinds`, a reference description read off the branch conditions alone. |
| `HandlerProperties.UploadAndStartJobOnlyThroughGate` | rusuden-aws-function-00/lambda_function.py:29-46 | Upload and StartJob happen if and only if `main` runs, the mail is fetched, the payload is non-empty and the guessed type is `audio/x-wav`. |
| `HandlerProperties.CreateCardOnlyOnCompletion` | rusuden-aws-function-00/lambda_function.py:51-74 | A card is created if and only if the gate passes, the first terminal status is `COMPLETED`, and nothing on the card path raises. |
| `HandlerProperties.GuardBlocksOtherEvents` | rusuden-aws-function-00/lambda_function.py:276-280 | An event that is not exactly `ObjectCreated:Put` makes no call. An event whose name cannot be read yields only the handler's log line. |
| `HandlerProperties.EmptyPayloadIsNoAttachment` | rusuden-aws-function-00/lambda_function.py:28-83 | A named attachment with an empty payload gives the trace fetch, then `no attachment.`. |
| `HandlerProperties.PayloadlessAttachmentIsNoAttachment` | rusuden-aws-function-00/lambda_function.py:28-83 | A named attachment whose payload is `None` gives the trace fetch, then `no attachment.`. |
| `HandlerProperties.MimetypeMismatchOnlyLogs` | rusuden-aws-function-00/lambda_function.py:77-81 | A non-WAV guessed type gives the trace fetch, then the message naming expected and actual type (`None` printed as `None`). |
| `HandlerProperties.FailedJobMakesNoCard` | rusuden-aws-function-00/lambda_function.py:75-76 | A first terminal status of `FAILED` ends with the failure message: no transcript request, no card, and the handler returns. |
| `HandlerProperties.SuccessMain` | rusuden-aws-function-00/lambda_function.py:20-74 | On the success path `main` returns the trace that `SuccessTrace` spells out. |
| `HandlerProperties.SuccessTrace` | rusuden-aws-function-00/lambda_function.py:21-74 | The whole trace of a successful run, step by step: fetch; upload under the filename (private ACL, type `audio/x-wav`); `StartJob("job_"+id, uri, "wav", "ja-JP")`; polls up to the first terminal status; transcript fetch; the card. |
| `HandlerProperties.MissingBodyIsSwallowed` | rusuden-aws-function-00/lambda_function.py:64-66 | With no text body, the upload, the job and the transcript fetch still happen. The concatenation then raises, no card is created, and the run ends with the handler's log line. |
| `HandlerProperties.CardInputsMissingIsSwallowed` | rusuden-aws-function-00/lambda_function.py:51-74 | When the job completed but the transcript, the configuration or a decoded text body is missing, the upload, the job and the transcript fetch still happen, no card is created, and the handler's log line ends the run. |
| `HandlerProperties.AbsentCharsetBodyMakesNoCard` | rusuden-aws-function-00/lambda_function.py:138-140 | A body without a charset goes to the decoder as `"None"`. If the decoder rejects that name, or the payload is `None`, no card is created and the handler's log line ends the run. |
| `HandlerProperties.HandlerCompletesUnlessPollingNeverEnds` | rusuden-aws-function-00/lambda_function.py:185-195 | The handler returns on every path except one: the gate passed and no response is terminal. |
| `HandlerProperties.OnlyFirstRecordRead` | rusuden-aws-function-00/lambda_function.py:87 | Records after the first do not change the invocation. |
| `HandlerProperties.EndToEndScenario` | rusuden-aws-function-00/lambda_function.py:19-83 | A multipart email with a text body and `20200201120530.wav`, with a job that completes on the second poll, takes the success path. Its card is titled `[Rusuden]2020/02/01 12:05 着信` and described `こんにちは\n\nテスト本文`. |
| `HandlerProperties.FailedScenarioMakesNoCard` | rusuden-aws-function-00/lambda_function.py:75-76 | The same email with a job that fails starts the job but creates no card. |

## Left out

- S3 `get_object` and `put_object`, and Transcribe's `start_transcription_job` and `get_transcription_job` (lines 94-98, 145-157, 168-182, 198-204). These are foreign service calls. They appear only as effects, and their responses as inputs.
  - A failure of `put_object`, `start_transcription_job`, the status poll or the Trello request is not modelled: those calls are taken to succeed.
  - The failures of `get_object` and of the transcript lookup are modelled, as `None` inputs.
- `email.message_from_string` and the UTF-8 and charset decoding (lines 101-104, 140). This is a library MIME parser. The walked part sequence is an input, and `bytes.decode` is an input function.
- `mimetypes.guess_type` (line 124). This is a library table, kept as an uninterpreted input function. Only the gate value `audio/x-wav` matters.
- `urllib` requests, `json.loads` and `urllib.parse.urlencode` (lines 207-218, 248-274). These are network and foreign encoding.
  - The transcript text is an input.
  - The card request is modelled as its endpoint and its six parameters, before URL encoding.
  - The dummy request body is not modelled.
- `time.sleep(10)` (line 188). This is a real-time delay. Each iteration of the loop is one element of the status sequence.
- The `os.environ` lookups (lines 221-228). The four values are one optional input; `None` means one of them is missing.
- `print` output. It appears as `Log` effects.
- Concurrent invocations of the Lambda runtime and the module-level client singletons (lines 16-17). They are outside a single invocation.
- `Transcribe.WaitForJobCompletion`: the loop has no bound in the source. The method therefore requires that some response is terminal. In the handler trace, a status sequence without a terminal response is reported as a run that never returns.
