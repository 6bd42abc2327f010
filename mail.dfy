/**
 * The two scans over a parsed email in `lambda_function.py`:
 * `parse_attachment` (first non-container part that has a filename) and
 * `parse_mail_content` (first non-container part without one).
 *
 * The email library's parser is not modelled: a message is given as the
 * sequence of its parts in `walk()` order, the pre-order depth-first
 * traversal of the multipart tree of section 5.1 of RFC 2046, containers
 * included. `mimetypes.guess_type` and `bytes.decode` are passed in as
 * functions.
 */
module Mail {
  import opened Wrappers
  import opened PySemantics

  newtype byte = x: int | 0 <= x < 256

  /**
   * One node of the walked message: `get_content_maintype()`,
   * `get_filename()`, `get_content_charset()` and `get_payload(decode=True)`.
   * The payload is `None` for a part that holds parts of its own without
   * being `multipart`, such as an attached `message/rfc822`.
   */
  datatype Part = Part(maintype: string, filename: Option<string>, charset: Option<string>, payload: Option<seq<byte>>)

  /** A multipart node is a container, not content, and both scans skip it. */
  predicate IsContainer(p: Part)
  {
    p.maintype == "multipart"
  }

  /** `parse_attachment` stops at a content part whose filename is truthy. */
  predicate IsAttachmentPart(p: Part)
  {
    !IsContainer(p) && Truthy(p.filename)
  }

  /** `parse_mail_content` stops at a content part whose filename is falsy (absent or empty). */
  predicate IsBodyPart(p: Part)
  {
    !IsContainer(p) && !Truthy(p.filename)
  }

  /** The triple `(data, filename, mimetype)` that `parse_attachment` returns. */
  datatype Attachment = Attachment(data: Option<seq<byte>>, filename: Option<string>, mimetype: Option<string>)

  /** What `parse_attachment` returns, as a function of the walked parts. */
  function AttachmentOf(parts: seq<Part>, guessType: string -> Option<string>): (a: Attachment)
    ensures a.data.Some? ==> a.filename.Some?
    ensures a.filename.None? ==> a == Attachment(None, None, None)
    ensures a.filename.Some? ==> a.filename.value != "" && a.mimetype == guessType(a.filename.value)
    ensures a.filename.None? <==> forall j :: 0 <= j < |parts| ==> !IsAttachmentPart(parts[j])
  {
    match FirstWhere(parts, IsAttachmentPart)
    case None => Attachment(None, None, None)
    case Some(i) => Attachment(parts[i].payload, parts[i].filename, guessType(parts[i].filename.value))
  }

  /**
   * `parse_attachment`: walk the parts, skip containers, return the first
   * part that has a non-empty filename with the MIME type guessed from that
   * filename alone; `(None, None, None)` when there is none.
   */
  method ParseAttachment(parts: seq<Part>, guessType: string -> Option<string>)
    returns (data: Option<seq<byte>>, filename: Option<string>, mimetype: Option<string>)
    ensures filename.None? ==> data.None? && mimetype.None?
    ensures filename.None? <==> forall j :: 0 <= j < |parts| ==> !IsAttachmentPart(parts[j])
    ensures filename.Some? ==>
      exists i :: 0 <= i < |parts| && IsAttachmentPart(parts[i]) &&
        (forall j :: 0 <= j < i ==> !IsAttachmentPart(parts[j])) &&
        data == parts[i].payload && filename == parts[i].filename &&
        mimetype == guessType(parts[i].filename.value)
    ensures Attachment(data, filename, mimetype) == AttachmentOf(parts, guessType)
  {
    var i := 0;
    while i < |parts|
      invariant 0 <= i <= |parts|
      invariant forall j :: 0 <= j < i ==> !IsAttachmentPart(parts[j])
    {
      var part := parts[i];
      if part.maintype == "multipart" {
        i := i + 1;
        continue;
      }
      var name := part.filename;
      if name.Some? && name.value != "" {
        FirstWhereUnique(parts, IsAttachmentPart, i);
        return part.payload, name, guessType(name.value);
      }
      i := i + 1;
    }
    return None, None, None;
  }

  /** What `parse_mail_content` hands back: a Python `str`, the raw payload, the implicit `None`, or an exception. */
  datatype MailContent =
    | NoContent                             // no body part: the function falls off its end
    | Decoded(text: string)                 // `payload.decode(charset)` succeeded
    | Undecoded(payload: Option<seq<byte>>) // the raw-payload branch for a falsy charset text
    | DecodeFailed(codec: string)           // `payload.decode(codec)` raised
    | NoPayload                             // `None.decode(...)` raised

  /**
   * The body branch for one part: the charset test is on `str(charset)`,
   * so an absent charset becomes the codec name "None" and is still decoded.
   */
  function BodyOf(p: Part, decode: (seq<byte>, string) -> Option<string>): (c: MailContent)
    ensures c.Undecoded? <==> p.charset == Some("")
    ensures c.Undecoded? ==> c.payload == p.payload
    ensures c.NoPayload? <==> p.charset != Some("") && p.payload.None?
    ensures !c.Undecoded? && p.payload.Some? ==>
              match decode(p.payload.value, Str(p.charset))
              case Some(t) => c == Decoded(t)
              case None => c == DecodeFailed(Str(p.charset))
  {
    var charset := Str(p.charset);
    if charset != "" then
      match p.payload
      case None => NoPayload
      case Some(bytes) =>
        match decode(bytes, charset)
        case Some(t) => Decoded(t)
        case None => DecodeFailed(charset)
    else
      Undecoded(p.payload)
  }

  /** What `parse_mail_content` returns, as a function of the walked parts. */
  function MailContentOf(parts: seq<Part>, decode: (seq<byte>, string) -> Option<string>): (c: MailContent)
    ensures c.NoContent? <==> forall j :: 0 <= j < |parts| ==> !IsBodyPart(parts[j])
  {
    match FirstWhere(parts, IsBodyPart)
    case None => NoContent
    case Some(i) => BodyOf(parts[i], decode)
  }

  /**
   * `parse_mail_content`: walk the parts, skip containers, and decode the
   * first part without a filename using `str()` of its charset.
   */
  method ParseMailContent(parts: seq<Part>, decode: (seq<byte>, string) -> Option<string>)
    returns (content: MailContent)
    ensures content.NoContent? <==> forall j :: 0 <= j < |parts| ==> !IsBodyPart(parts[j])
    ensures !content.NoContent? ==>
      exists i :: 0 <= i < |parts| && IsBodyPart(parts[i]) &&
        (forall j :: 0 <= j < i ==> !IsBodyPart(parts[j])) &&
        content == BodyOf(parts[i], decode)
    ensures content == MailContentOf(parts, decode)
  {
    var i := 0;
    while i < |parts|
      invariant 0 <= i <= |parts|
      invariant forall j :: 0 <= j < i ==> !IsBodyPart(parts[j])
    {
      var part := parts[i];
      if part.maintype == "multipart" {
        i := i + 1;
        continue;
      }
      var name := part.filename;
      if !(name.Some? && name.value != "") {
        FirstWhereUnique(parts, IsBodyPart, i);
        var charset := Str(part.charset);
        if charset != "" {
          if part.payload.None? {
            return NoPayload;
          }
          var decoded := decode(part.payload.value, charset);
          if decoded.Some? {
            return Decoded(decoded.value);
          }
          return DecodeFailed(charset);
        } else {
          return Undecoded(part.payload);
        }
      }
      i := i + 1;
    }
    return NoContent;
  }

  /**
   * A part with a charset parameter that is absent still goes to the
   * decoder, under the codec name "None"; the raw-bytes branch is taken
   * only for a charset that is present and empty.
   */
  lemma AbsentCharsetIsDecodedAsNone(parts: seq<Part>, decode: (seq<byte>, string) -> Option<string>, i: nat)
    requires i < |parts| && IsBodyPart(parts[i]) && parts[i].charset.None? && parts[i].payload.Some?
    requires forall j :: 0 <= j < i ==> !IsBodyPart(parts[j])
    ensures MailContentOf(parts, decode) ==
      match decode(parts[i].payload.value, "None")
      case Some(t) => Decoded(t)
      case None => DecodeFailed("None")
  {
    FirstWhereUnique(parts, IsBodyPart, i);
  }

  /** The raw-bytes result happens exactly when the selected body part declares an empty charset. */
  lemma UndecodedOnlyForEmptyCharset(parts: seq<Part>, decode: (seq<byte>, string) -> Option<string>)
    ensures MailContentOf(parts, decode).Undecoded? <==>
      exists i :: 0 <= i < |parts| && IsBodyPart(parts[i]) &&
        (forall j :: 0 <= j < i ==> !IsBodyPart(parts[j])) && parts[i].charset == Some("")
  {
    match FirstWhere(parts, IsBodyPart)
    case None =>
    case Some(i) =>
      forall k | 0 <= k < |parts| && IsBodyPart(parts[k]) && (forall j :: 0 <= j < k ==> !IsBodyPart(parts[j]))
        ensures k == i
      {
        FirstWhereUnique(parts, IsBodyPart, k);
      }
  }

  /** The attachment and the body are never the same part. */
  lemma AttachmentAndBodyAreDistinct(parts: seq<Part>)
    requires FirstWhere(parts, IsAttachmentPart).Some? && FirstWhere(parts, IsBodyPart).Some?
    ensures FirstWhere(parts, IsAttachmentPart) != FirstWhere(parts, IsBodyPart)
  {
  }
}
