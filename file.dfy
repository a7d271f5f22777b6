/** Attachments (bhaicord/models/file.py): a `File` to upload, with its
    defaults and the dict describing it in a payload's `attachments`, and the
    `Attachment` built from a received dict. */
module Files {
  import opened Wrappers
  import opened PyValues
  import PyDict
  import PyStrings

  /** What `fp` is: a string, a text stream (its lines), a binary stream (its
      bytes), or anything else. */
  datatype FileSource =
    | StrSource(s: string)
    | TextStream(lines: seq<string>)
    | BinaryStream(data: seq<byte>)
    | OtherSource

  /** The `content` attribute. */
  datatype Content = TextContent(text: string) | BinaryContent(data: seq<byte>) | NoContent

  datatype File = File(fp: FileSource, filename: string, description: Value, content: Content)

  const DEFAULT_FILENAME: string := "no_file_name.txt"

  /** `_set_file_content`: a text stream is read line by line and joined, a string
      is the content itself, a binary stream is read; anything else has None. */
  function ContentOf(fp: FileSource): (r: Content)
    ensures fp.StrSource? ==> r == TextContent(fp.s)
    ensures fp.OtherSource? <==> r.NoContent?
  {
    match fp
    case TextStream(lines) => TextContent(PyStrings.Join(lines, ""))
    case StrSource(s) => TextContent(s)
    case BinaryStream(data) => BinaryContent(data)
    case OtherSource => NoContent
  }

  /** `File(fp, filename=..., description=...)` with absent arguments defaulted. */
  function NewFile(fp: FileSource, filename: Option<string>, description: Option<Value>): (r: File)
    ensures r.fp == fp
    ensures r.filename == if filename.Some? then filename.value else DEFAULT_FILENAME
    ensures r.description == if description.Some? then description.value else VNone
    ensures r.content == ContentOf(fp)
  {
    File(fp, if filename.Some? then filename.value else DEFAULT_FILENAME,
         if description.Some? then description.value else VNone, ContentOf(fp))
  }

  /** `to_dict(index)`: exactly the keys id, filename and description. */
  function ToDict(f: File, index: int): (r: seq<(string, Value)>)
    ensures PyDict.Keys(r) == ["id", "filename", "description"]
    ensures Index(VDict(r), "id") == Ok(VInt(index))
    ensures Index(VDict(r), "filename") == Ok(VStr(f.filename))
    ensures Index(VDict(r), "description") == Ok(f.description)
  {
    var d := [("id", VInt(index)), ("filename", VStr(f.filename)), ("description", f.description)];
    PyDict.LookupAt(d, 0);
    PyDict.LookupAt(d, 1);
    PyDict.LookupAt(d, 2);
    d
  }

  datatype Attachment = Attachment(
    id: Value, filename: Value, description: Value, contentType: Value,
    size: Value, url: Value, proxyUrl: Value, height: Value, width: Value)

  /** `Attachment(data)`: `id` and `filename` are required, every other field is
      None when absent. */
  function NewAttachment(data: Value): (r: Result<Attachment>)
    ensures r.Ok? <==> data.VDict? && "id" in PyDict.Keys(data.entries) && "filename" in PyDict.Keys(data.entries)
    ensures data.VDict? && "id" !in PyDict.Keys(data.entries) ==> r.Err? && r.error.kind == KeyError
    ensures !data.VDict? ==> r.Err? && r.error.kind == TypeError
    ensures r.Ok? ==> r.value.id == Index(data, "id").value && r.value.filename == Index(data, "filename").value
    ensures r.Ok? ==> var keys := PyDict.Keys(data.entries);
      && ("description" !in keys ==> r.value.description == VNone)
      && ("content_type" !in keys ==> r.value.contentType == VNone)
      && ("size" !in keys ==> r.value.size == VNone)
      && ("url" !in keys ==> r.value.url == VNone)
      && ("proxy_url" !in keys ==> r.value.proxyUrl == VNone)
      && ("height" !in keys ==> r.value.height == VNone)
      && ("width" !in keys ==> r.value.width == VNone)
  {
    match Index(data, "id")
    case Err(e) => Err(e)
    case Ok(id) =>
      match Index(data, "filename")
      case Err(e) => Err(e)
      case Ok(filename) =>
        Ok(Attachment(id, filename, Get1(data, "description").value, Get1(data, "content_type").value,
                      Get1(data, "size").value, Get1(data, "url").value, Get1(data, "proxy_url").value,
                      Get1(data, "height").value, Get1(data, "width").value))
  }

  /** An attachment read back from a file's own `to_dict` has that file's index,
      name and description, and nothing else. */
  lemma AttachmentOfFileDict(f: File, index: int)
    ensures var a := NewAttachment(VDict(ToDict(f, index)));
      && a.Ok?
      && a.value == Attachment(VInt(index), VStr(f.filename), f.description, VNone, VNone, VNone, VNone, VNone, VNone)
  {
    var d := ToDict(f, index);
    var absent := ["content_type", "size", "url", "proxy_url", "height", "width"];
    forall key | key in absent ensures PyDict.Lookup(d, key).None? {
      assert key !in PyDict.Keys(d);
    }
    assert Get1(VDict(d), "description") == Index(VDict(d), "description");
  }
}
