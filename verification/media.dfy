/** `MediaHandler`: which messages carry media, the file extension taken from
    the mimetype, and the file name. The download and the file system are not
    modelled: the download's outcome is a parameter, and the result is the
    file name rather than its dated directory. */
module Media {
  import opened Wrappers
  import Text
  import Js

  const MediaTypes: seq<string> := ["imageMessage", "videoMessage", "audioMessage", "documentMessage", "stickerMessage"]

  /** The TypeError of reading a segment that `split('/')` did not produce. */
  const NoSubtype := "Cannot read properties of undefined (reading 'split')"

  /** The TypeError of calling `split` on a mimetype that is not a string. */
  const SplitNotAFunction := "mimetype.split is not a function"

  /** The TypeError of reading `mimetype` from a null or undefined value. */
  const NoMimetypeProperty := "Cannot read properties of null (reading 'mimetype')"

  /** The value of a property of `message.message`: null or undefined, on
      which reading `mimetype` throws, or any other value together with its
      `mimetype` property (`Undefined` when it has none). */
  datatype FieldValue = Nullish | Present(mimetype: Js.Value)

  /** One property of `message.message`: its key and its value. */
  datatype Field = Field(key: string, value: FieldValue)

  /** `message.message`: not an object, or an object's properties in key order. */
  datatype Content = NotAnObject | Fields(fields: seq<Field>)

  /** An incoming message; `content` is `None` when `message.message` is falsy. */
  datatype Message = Message(content: Option<Content>, keyId: string)

  /** What `saveMedia` returned, and whether it started a download. */
  datatype SaveRun = SaveRun(saved: Option<string>, downloaded: bool)

  /** The extension used when the mimetype gives none. */
  function DefaultExtension(messageType: string): (ext: string)
    ensures ext in {"jpg", "mp4", "mp3", "bin", "webp"}
    ensures messageType !in MediaTypes ==> ext == "bin"
  {
    match messageType
    case "imageMessage" => "jpg"
    case "videoMessage" => "mp4"
    case "audioMessage" => "mp3"
    case "documentMessage" => "bin"
    case "stickerMessage" => "webp"
    case _ => "bin"
  }

  /** A default extension is a non-empty word without `/` or `;`. */
  lemma DefaultExtensionIsPlain(messageType: string)
    ensures var ext := DefaultExtension(messageType); ext != "" && '/' !in ext && ';' !in ext
  {
    var ext := DefaultExtension(messageType);
    assert ext == "jpg" || ext == "mp4" || ext == "mp3" || ext == "bin" || ext == "webp";
  }

  /** `getExtension`: a falsy mimetype gives the type's default. A string one
      gives its second `/`-segment cut at the first `;`, or the default when
      that is empty, and throws without a `/`. Any other truthy value has no
      `split` and throws. */
  function GetExtension(messageType: string, mimetype: Js.Value): (r: Result<string, string>)
    ensures !Js.Truthy(mimetype) ==> r == Success(DefaultExtension(messageType))
    ensures Js.Truthy(mimetype) ==> (r.Failure? <==> !mimetype.Str? || '/' !in mimetype.s)
    ensures r.Failure? ==> r.error == if mimetype.Str? then NoSubtype else SplitNotAFunction
    ensures r.Success? ==> r.value != "" && '/' !in r.value && ';' !in r.value
  {
    DefaultExtensionIsPlain(messageType);
    if !Js.Truthy(mimetype) then Success(DefaultExtension(messageType))
    else if !mimetype.Str? then Failure(SplitNotAFunction)
    else
      var segments := Text.Split(mimetype.s, '/');
      if |segments| < 2 then
        assert segments == [mimetype.s];
        Failure(NoSubtype)
      else
        var ext := Text.Split(segments[1], ';')[0];
        Text.SplitFirstKeepsOut(segments[1], ';', '/');
        if ext != "" then Success(ext) else Success(DefaultExtension(messageType))
  }

  /** `type/subtype` gives `subtype`. */
  lemma ExtensionOfPlainMime(messageType: string, kind: string, subtype: string)
    requires '/' !in kind && '/' !in subtype && ';' !in subtype && subtype != ""
    ensures GetExtension(messageType, Js.Str(kind + "/" + subtype)) == Success(subtype)
  {
    Text.SplitAt(kind, '/', subtype);
    Text.SplitNone(subtype, '/');
    Text.SplitNone(subtype, ';');
  }

  /** `type/subtype;parameters` gives `subtype`, whatever the parameters
      hold: a `/` inside them only shortens the second segment after the
      `;`. */
  lemma ExtensionOfMimeWithParameters(messageType: string, kind: string, subtype: string, parameters: string)
    requires '/' !in kind && '/' !in subtype
    requires ';' !in subtype && subtype != ""
    ensures GetExtension(messageType, Js.Str(kind + "/" + subtype + ";" + parameters)) == Success(subtype)
  {
    SubtypeSegment(kind, subtype, parameters);
  }

  /** The second `/`-segment of `type/subtype;parameters`, cut at `;`, is
      `subtype`. */
  lemma SubtypeSegment(kind: string, subtype: string, parameters: string)
    requires '/' !in kind && '/' !in subtype && ';' !in subtype
    ensures var segments := Text.Split(kind + "/" + subtype + ";" + parameters, '/');
            |segments| >= 2 && Text.Split(segments[1], ';')[0] == subtype
  {
    var rest := subtype + ";" + parameters;
    assert kind + "/" + subtype + ";" + parameters == kind + ['/'] + rest;
    Text.SplitAt(kind, '/', rest);
    Text.SplitFirstOfPrefix(subtype + ";", parameters, '/');
    var first := Text.Split(parameters, '/')[0];
    assert Text.Split(rest, '/')[0] == subtype + [';'] + first;
    Text.SplitAt(subtype, ';', first);
  }

  /** `type/` has an empty subtype, so the type's default is used. */
  lemma ExtensionOfEmptySubtype(messageType: string, kind: string)
    requires '/' !in kind && kind != ""
    ensures GetExtension(messageType, Js.Str(kind + "/")) == Success(DefaultExtension(messageType))
  {
    assert kind + "/" == kind + ['/'] + "";
    Text.SplitAt(kind, '/', "");
    Text.SplitNone("", '/');
    Text.SplitNone("", ';');
  }

  /** The extension of a media property: reading `mimetype` of a null value
      throws before `getExtension` runs. */
  function FieldExtension(field: Field): (r: Result<string, string>)
    ensures field.value.Nullish? ==> r == Failure(NoMimetypeProperty)
    ensures field.value.Present? ==> r == GetExtension(field.key, field.value.mimetype)
  {
    match field.value
    case Nullish => Failure(NoMimetypeProperty)
    case Present(mimetype) => GetExtension(field.key, mimetype)
  }

  /** The message's first property names one of the media types. */
  predicate IsMedia(m: Option<Message>) {
    && m.Some?
    && m.value.content.Some?
    && m.value.content.value.Fields?
    && |m.value.content.value.fields| > 0
    && m.value.content.value.fields[0].key in MediaTypes
  }

  /** `saveMedia`: null without a media message, and then nothing is
      downloaded; for a media message, the file `<key id>.<extension>` if the
      download and the extension both succeed, null otherwise (every throw
      inside the `try` is caught and gives null). */
  function SaveMedia(message: Option<Message>, downloadFailure: Option<string>): (run: SaveRun)
    ensures run.downloaded <==> IsMedia(message)
    ensures !IsMedia(message) ==> run.saved.None?
    ensures IsMedia(message) ==>
              var ext := FieldExtension(message.value.content.value.fields[0]);
              && (run.saved.Some? <==> downloadFailure.None? && ext.Success?)
              && (run.saved.Some? ==> run.saved.value == message.value.keyId + "." + ext.value)
  {
    if !IsMedia(message) then SaveRun(None, false)
    else if downloadFailure.Some? then SaveRun(None, true)
    else match FieldExtension(message.value.content.value.fields[0])
      case Failure(_) => SaveRun(None, true)
      case Success(ext) => SaveRun(Some(message.value.keyId + "." + ext), true)
  }

  /** A media property whose value is null, or whose mimetype is truthy but
      not a string, is downloaded and then not saved. */
  lemma MalformedMediaNotSaved(key: string, value: FieldValue, keyId: string)
    requires key in MediaTypes
    requires value.Nullish? || (Js.Truthy(value.mimetype) && !value.mimetype.Str?)
    ensures var run := SaveMedia(Some(Message(Some(Fields([Field(key, value)])), keyId)), None);
            run.downloaded && run.saved.None?
  {
  }
}
