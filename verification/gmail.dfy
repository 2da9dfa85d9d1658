/**
  The e-mail built for the Gmail API (`add_attachment`, `build_message`). The file system is
  reached only through `FileSystem` (existence test and `mimetypes.guess_type`); file contents
  and the MIME byte serialisation stay abstract: an attachment is identified by its path, and
  `as_bytes()` is the parameter `serialise`.
*/
module Gmail {
  import opened Wrappers
  import opened Text
  import opened Encoding

  /** The pair `mimetypes.guess_type(path)` returns. */
  datatype Guess = Guess(contentType: Option<string>, encoding: Option<string>)

  /** What the code asks of the file system. */
  datatype FileSystem = FileSystem(isFile: string -> bool, guessType: string -> Guess)

  /** The MIME class chosen for an attachment. */
  datatype MimeClass = MimeTextPart | MimeImagePart | MimeAudioPart | MimeApplicationPart | MimeBasePart

  /** An attached file: its content type halves and source path. */
  datatype Attachment = Attachment(mainType: string, subType: string, path: string)
  {
    /** The MIME class the part is built with. */
    function Class(): MimeClass
    {
      ClassOf(mainType)
    }

    /** The `Content-Disposition` file name: the base name of the path. */
    function Filename(): string
    {
      LastSegment(path, '/')
    }
  }

  datatype Part = BodyText(text: string) | File(attachment: Attachment)

  /** A `MIMEText` holding the body, or a `MIMEMultipart` with its parts; `headers` are the ones the code sets. */
  datatype Message =
    | Plain(body: string, headers: seq<(string, string)>)
    | Multipart(parts: seq<Part>, headers: seq<(string, string)>)

  const OctetStream: string := "application/octet-stream"

  /** The content type: the guess, unless there is none or the file is compressed (an encoding was guessed). */
  function ContentType(g: Guess): (ct: string)
    ensures g.contentType.None? || g.encoding.Some? ==> ct == OctetStream
    ensures g.contentType.Some? && g.encoding.None? ==> ct == g.contentType.value
  {
    if g.contentType.None? || g.encoding.Some? then OctetStream else g.contentType.value
  }

  /** The MIME class for a main type. */
  function ClassOf(mainType: string): MimeClass
  {
    if mainType == "text" then MimeTextPart
    else if mainType == "image" then MimeImagePart
    else if mainType == "audio" then MimeAudioPart
    else if mainType == "application" then MimeApplicationPart
    else MimeBasePart
  }

  /**
    The part `add_attachment` builds for `path`: the content type split at its first `/`
    (`Err` where the unpacking fails), the class by main type, the base name as file name.
  */
  function AttachmentFor(path: string, fs: FileSystem): (r: Result<Attachment>)
  {
    match SplitFirst(ContentType(fs.guessType(path)), '/')
    case None => Err("not enough values to unpack")
    case Some((main, sub)) => Ok(Attachment(main, sub, path))
  }

  /**
    The part succeeds exactly when the content type has a `/`; it is then split at the first `/`,
    and the file name is the path's last segment.
  */
  lemma AttachmentForParts(path: string, fs: FileSystem)
    ensures var ct := ContentType(fs.guessType(path));
      AttachmentFor(path, fs).Ok? <==> '/' in ct
    ensures AttachmentFor(path, fs).Ok? ==>
      var a := AttachmentFor(path, fs).value;
      ContentType(fs.guessType(path)) == a.mainType + "/" + a.subType && '/' !in a.mainType
      && a.path == path && a.Filename() == LastSegment(path, '/') && '/' !in a.Filename()
  {
    LastSegmentIsSuffix(path, '/');
  }

  /**
    `add_attachment(message, path)`: a copy of the message with the new part after the existing
    ones (the argument itself is a value and stays as it was). Only a multipart message takes
    parts; `MIMEText` refuses them.
  */
  function AddAttachment(message: Message, path: string, fs: FileSystem): (r: Result<Message>)
    ensures r.Ok? <==> message.Multipart? && AttachmentFor(path, fs).Ok?
    ensures r.Ok? ==> r.value == Multipart(message.parts + [File(AttachmentFor(path, fs).value)], message.headers)
  {
    if message.Plain? then Err("Attach is not valid on a message with a non-multipart payload")
    else
      var a := AttachmentFor(path, fs);
      if a.Err? then Err(a.error) else Ok(Multipart(message.parts + [File(a.value)], message.headers))
  }

  /** The error `build_message` raises for a missing file. */
  function NotFoundMessage(path: string): string
  {
    "File " + path + " not found"
  }

  /** One path of the loop: the error for a missing file, else the part `add_attachment` builds. */
  function PathPart(path: string, fs: FileSystem): (r: Result<Attachment>)
    ensures !fs.isFile(path) ==> r == Err(NotFoundMessage(path))
    ensures fs.isFile(path) ==> r == AttachmentFor(path, fs)
  {
    if !fs.isFile(path) then Err(NotFoundMessage(path)) else AttachmentFor(path, fs)
  }

  /** `PathPart` for a fixed file system, as a function of the path. */
  function PartOf(fs: FileSystem): string -> Result<Attachment>
  {
    p => PathPart(p, fs)
  }

  /** The parts of `paths`, in order, stopping at the first error. */
  function Collect(paths: seq<string>, part: string -> Result<Attachment>): (r: Result<seq<Attachment>>)
    decreases |paths|
  {
    if |paths| == 0 then Ok([])
    else
      var a := part(paths[0]);
      if a.Err? then Err(a.error)
      else
        var rest := Collect(paths[1..], part);
        if rest.Err? then rest else Ok([a.value] + rest.value)
  }

  /**
    The attachments of `paths`, in order, each checked for existence first; the first missing
    file or unreadable content type is the error.
  */
  function AttachmentsFor(paths: seq<string>, fs: FileSystem): (r: Result<seq<Attachment>>)
  {
    Collect(paths, PartOf(fs))
  }

  /** A file that exists and whose content type splits. */
  predicate Attachable(path: string, fs: FileSystem)
  {
    fs.isFile(path) && AttachmentFor(path, fs).Ok?
  }

  /** Collecting succeeds exactly when every part does; the parts are then one per path, in order. */
  lemma {:induction false} CollectOrder(paths: seq<string>, part: string -> Result<Attachment>)
    ensures Collect(paths, part).Ok? <==> forall i :: 0 <= i < |paths| ==> part(paths[i]).Ok?
    ensures Collect(paths, part).Ok? ==>
      var r := Collect(paths, part).value;
      |r| == |paths| && forall i :: 0 <= i < |paths| ==> r[i] == part(paths[i]).value
    decreases |paths|
  {
    if |paths| > 0 {
      CollectOrder(paths[1..], part);
      assert forall i :: 1 <= i < |paths| ==> paths[i] == paths[1..][i - 1];
    }
  }

  /** All attachments succeed exactly when every file is attachable; they are then one per path, in order. */
  lemma AttachmentsForOrder(paths: seq<string>, fs: FileSystem)
    ensures AttachmentsFor(paths, fs).Ok? <==> forall i :: 0 <= i < |paths| ==> Attachable(paths[i], fs)
    ensures AttachmentsFor(paths, fs).Ok? ==>
      var r := AttachmentsFor(paths, fs).value;
      |r| == |paths| && forall i :: 0 <= i < |paths| ==> r[i] == AttachmentFor(paths[i], fs).value
  {
    CollectOrder(paths, PartOf(fs));
    assert forall i :: 0 <= i < |paths| ==> PartOf(fs)(paths[i]) == PathPart(paths[i], fs);
  }

  /** What one more part does to a successful list: extends it, or stops at its error. */
  function Extend(prefix: seq<Attachment>, part: Result<Attachment>): (r: Result<seq<Attachment>>)
    ensures part.Err? ==> r == Err(part.error)
    ensures part.Ok? ==> r.Ok? && |r.value| == |prefix| + 1 && r.value[..|prefix|] == prefix && r.value[|prefix|] == part.value
  {
    if part.Err? then Err(part.error) else Ok(prefix + [part.value])
  }

  /** Putting a part in front of the prefix commutes with extending it. */
  lemma ExtendCons(first: Attachment, tail: seq<Attachment>, part: Result<Attachment>)
    ensures var out := Extend(tail, part);
      Extend([first] + tail, part) == if out.Err? then out else Ok([first] + out.value)
  {
    if part.Ok? {
      assert [first] + (tail + [part.value]) == ([first] + tail) + [part.value];
    }
  }

  lemma CollectSingle(p: string, part: string -> Result<Attachment>)
    ensures Collect([p], part) == Extend([], part(p))
  {
    var single := [p];
    assert single[0] == p;
    assert single[1..] == [];
    var a := part(p);
    if a.Ok? {
      assert Collect(single[1..], part) == Ok([]);
      assert [a.value] + [] == [a.value] == [] + [a.value];
      assert Collect(single, part) == Ok([a.value] + []);
    }
  }

  /** One step of the induction below: the first path's part is put in front of the rest. */
  lemma CollectStep(paths: seq<string>, p: string, part: string -> Result<Attachment>)
    requires |paths| > 0 && Collect(paths, part).Ok?
    requires Collect(paths[1..], part).Ok?
    requires Collect(paths[1..] + [p], part) == Extend(Collect(paths[1..], part).value, part(p))
    ensures Collect(paths + [p], part) == Extend(Collect(paths, part).value, part(p))
  {
    var first := part(paths[0]).value;
    var tail := Collect(paths[1..], part).value;
    var whole := paths + [p];
    assert whole[0] == paths[0];
    assert whole[1..] == paths[1..] + [p];
    var tailOut := Extend(tail, part(p));
    assert Collect(whole, part) == if tailOut.Err? then tailOut else Ok([first] + tailOut.value);
    assert Collect(paths, part).value == [first] + tail;
    ExtendCons(first, tail, part(p));
  }

  /** Collecting one more path extends the parts or stops at its error. */
  lemma {:induction false} CollectSnoc(paths: seq<string>, p: string, part: string -> Result<Attachment>)
    requires Collect(paths, part).Ok?
    ensures Collect(paths + [p], part) == Extend(Collect(paths, part).value, part(p))
    decreases |paths|
  {
    if |paths| == 0 {
      assert paths + [p] == [p];
      CollectSingle(p, part);
    } else {
      assert Collect(paths[1..], part).Ok?;
      CollectSnoc(paths[1..], p, part);
      CollectStep(paths, p, part);
    }
  }

  /** The attachments of one more path of a list. */
  lemma PrefixStep(paths: seq<string>, i: nat, fs: FileSystem)
    requires i < |paths| && AttachmentsFor(paths[..i], fs).Ok?
    ensures AttachmentsFor(paths[..i + 1], fs) == Extend(AttachmentsFor(paths[..i], fs).value, PathPart(paths[i], fs))
  {
    var pre, p := paths[..i], paths[i];
    assert paths[..i + 1] == pre + [p];
    CollectSnoc(pre, p, PartOf(fs));
    assert PartOf(fs)(p) == PathPart(p, fs);
  }

  /** An error in a prefix is the error of the whole list. */
  lemma {:induction false} CollectErrPrefix(paths: seq<string>, i: nat, part: string -> Result<Attachment>)
    requires i <= |paths| && Collect(paths[..i], part).Err?
    ensures Collect(paths, part) == Collect(paths[..i], part)
    decreases i
  {
    assert i > 0 && paths[..i][0] == paths[0];
    var a := part(paths[0]);
    if a.Ok? {
      var rest := paths[1..];
      assert paths[..i][1..] == rest[..i - 1];
      assert Collect(rest[..i - 1], part).Err?;
      CollectErrPrefix(rest, i - 1, part);
      assert Collect(paths, part) == Collect(rest, part);
      assert Collect(paths[..i], part) == Collect(rest[..i - 1], part);
    } else {
      assert Collect(paths, part) == Err(a.error) == Collect(paths[..i], part);
    }
  }

  function Files(attachments: seq<Attachment>): (r: seq<Part>)
    ensures |r| == |attachments| && forall i :: 0 <= i < |r| ==> r[i] == File(attachments[i])
  {
    if |attachments| == 0 then [] else [File(attachments[0])] + Files(attachments[1..])
  }

  lemma FilesSnoc(attachments: seq<Attachment>, a: Attachment)
    ensures Files(attachments + [a]) == Files(attachments) + [File(a)]
  {
    assert |Files(attachments + [a])| == |Files(attachments) + [File(a)]|;
  }

  /** The three headers `build_message` sets, in order: recipient, sender, subject. */
  function Headers(recipient: string, sender: string, subject: string): seq<(string, string)>
  {
    [("to", recipient), ("from", sender), ("subject", subject)]
  }

  /** The message `build_message` produces, or the error it raises. */
  function MessageFor(recipient: string, subject: string, body: string, attachments: seq<string>,
                      sender: string, fs: FileSystem): Result<Message>
  {
    if |attachments| == 0 then Ok(Plain(body, Headers(recipient, sender, subject)))
    else match AttachmentsFor(attachments, fs)
      case Err(e) => Err(e)
      case Ok(files) => Ok(Multipart([BodyText(body)] + Files(files), Headers(recipient, sender, subject)))
  }

  /**
    The message is built exactly when every attachment is an existing file with a usable content
    type; it is then the plain body without attachments, or the body part followed by one file part
    per path, in the given order, under the recipient, sender and subject headers.
  */
  lemma MessageShape(recipient: string, subject: string, body: string, attachments: seq<string>,
                     sender: string, fs: FileSystem)
    ensures var m := MessageFor(recipient, subject, body, attachments, sender, fs);
      && (m.Ok? <==> forall i :: 0 <= i < |attachments| ==> Attachable(attachments[i], fs))
      && (|attachments| == 0 ==> m == Ok(Plain(body, Headers(recipient, sender, subject))))
      && (|attachments| > 0 && m.Ok? ==>
            && m.value.Multipart? && m.value.headers == Headers(recipient, sender, subject)
            && |m.value.parts| == |attachments| + 1 && m.value.parts[0] == BodyText(body)
            && forall i :: 0 <= i < |attachments| ==> m.value.parts[i + 1] == File(AttachmentFor(attachments[i], fs).value))
  {
    AttachmentsForOrder(attachments, fs);
  }

  /** One round of `build_message`'s loop, on the message holding the parts of the first `i` paths. */
  lemma AttachStep(attachments: seq<string>, i: nat, body: string, fs: FileSystem)
    requires i < |attachments| && AttachmentsFor(attachments[..i], fs).Ok?
    ensures var path := attachments[i];
      var next := AddAttachment(Multipart([BodyText(body)] + Files(AttachmentsFor(attachments[..i], fs).value), []), path, fs);
      && (!fs.isFile(path) ==> AttachmentsFor(attachments, fs) == Err(NotFoundMessage(path)))
      && (fs.isFile(path) && next.Err? ==> AttachmentsFor(attachments, fs) == Err(next.error))
      && (fs.isFile(path) && next.Ok? ==>
            && AttachmentsFor(attachments[..i + 1], fs).Ok?
            && next.value == Multipart([BodyText(body)] + Files(AttachmentsFor(attachments[..i + 1], fs).value), []))
  {
    var path := attachments[i];
    var prev := AttachmentsFor(attachments[..i], fs).value;
    PrefixStep(attachments, i, fs);
    if !fs.isFile(path) || AttachmentFor(path, fs).Err? {
      CollectErrPrefix(attachments, i + 1, PartOf(fs));
    } else {
      var file := AttachmentFor(path, fs).value;
      FilesSnoc(prev, file);
      assert AttachmentsFor(attachments[..i + 1], fs).value == prev + [file];
      assert ([BodyText(body)] + Files(prev)) + [File(file)] == [BodyText(body)] + Files(prev + [file]);
    }
  }

  /**
    `build_message` up to the payload: a plain text message without attachments; otherwise a
    multipart message with the body first and then each file in the given order, stopping at the
    first missing file. `sender` is the configured system address.
  */
  method BuildMessage(recipient: string, subject: string, body: string, attachments: seq<string>,
                      sender: string, fs: FileSystem)
    returns (r: Result<Message>)
    ensures r == MessageFor(recipient, subject, body, attachments, sender, fs)
  {
    var headers := Headers(recipient, sender, subject);
    var message: Message;
    if |attachments| == 0 {
      message := Plain(body, []);
      assert [] + headers == headers;
    } else {
      message := Multipart([BodyText(body)], []);
      var i := 0;
      while i < |attachments|
        invariant 0 <= i <= |attachments|
        invariant AttachmentsFor(attachments[..i], fs).Ok?
        invariant message == Multipart([BodyText(body)] + Files(AttachmentsFor(attachments[..i], fs).value), [])
      {
        var path := attachments[i];
        AttachStep(attachments, i, body, fs);
        if !fs.isFile(path) {
          return Err(NotFoundMessage(path));
        }
        var next := AddAttachment(message, path, fs);
        if next.Err? {
          return Err(next.error);
        }
        message := next.value;
        i := i + 1;
      }
      assert attachments[..i] == attachments;
      assert message == Multipart([BodyText(body)] + Files(AttachmentsFor(attachments, fs).value), []);
      assert [] + headers == headers;
    }
    r := Ok(message.(headers := message.headers + headers));
  }

  /** The API payload: `{"raw": <URL-safe Base64 of the serialised message>}`. */
  function Payload(message: Message, serialise: Message -> seq<byte>): (p: map<string, string>)
    ensures p.Keys == {"raw"}
    ensures |p["raw"]| == 4 * ((|serialise(message)| + 2) / 3)
  {
    map["raw" := Base64Encode(serialise(message), true)]
  }

  /** The receiving side gets back exactly the serialised message. */
  lemma PayloadDecodes(message: Message, serialise: Message -> seq<byte>)
    ensures Base64Decode(Payload(message, serialise)["raw"], true) == Some(serialise(message))
  {
    Base64RoundTrip(serialise(message), true);
  }
}
