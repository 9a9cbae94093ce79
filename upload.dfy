/**
 * The upload route of the web app: a multipart form's `file` field is written into the
 * `public/workspace` directory under a sanitised name.
 *
 * JavaScript strings are sequences of UTF-16 code units, and the sanitising regular expression
 * (no `u` flag) replaces code unit by code unit, so names are sequences of `CodeUnit` here.
 */
module Upload {
  import opened Common

  newtype CodeUnit = x: int | 0 <= x < 0x1_0000

  type Name = seq<CodeUnit>

  const Underscore: CodeUnit := 0x5F
  const Dot: CodeUnit := 0x2E
  const Hyphen: CodeUnit := 0x2D

  /** `[a-zA-Z0-9.-]`: the code units a stored file name keeps. */
  predicate Allowed(c: CodeUnit) {
    ('a' as int <= c as int <= 'z' as int) || ('A' as int <= c as int <= 'Z' as int)
    || ('0' as int <= c as int <= '9' as int) || c == Dot || c == Hyphen
  }

  /** `name.replace(/[^a-zA-Z0-9.-]/g, '_')`. */
  function Sanitize(name: Name): (r: Name)
    ensures |r| == |name|
    ensures forall i :: 0 <= i < |name| ==> r[i] == if Allowed(name[i]) then name[i] else Underscore
  {
    seq(|name|, i requires 0 <= i < |name| => if Allowed(name[i]) then name[i] else Underscore)
  }

  /**
   * A sanitised name holds only `[a-zA-Z0-9._-]`; sanitising it again changes nothing; and a name
   * is left as it is exactly when it already holds only those code units.
   */
  lemma SanitizeProperties(name: Name)
    ensures forall i :: 0 <= i < |name| ==> Allowed(Sanitize(name)[i]) || Sanitize(name)[i] == Underscore
    ensures Sanitize(Sanitize(name)) == Sanitize(name)
    ensures Sanitize(name) == name <==> forall i :: 0 <= i < |name| ==> Allowed(name[i]) || name[i] == Underscore
  {
    if Sanitize(name) == name {
      forall i | 0 <= i < |name| ensures Allowed(name[i]) || name[i] == Underscore {
        assert Sanitize(name)[i] == name[i];
      }
    }
  }

  /** No path separator survives, so the target is always a direct entry of the workspace. */
  lemma SanitizedHasNoSeparator(name: Name)
    ensures forall i :: 0 <= i < |name| ==> Sanitize(name)[i] != '/' as int as CodeUnit && Sanitize(name)[i] != '\\' as int as CodeUnit
  {
  }

  /** `formData.get('file')`: absent, a plain text field, or an uploaded file. */
  datatype FormField = NoField | TextField(value: Name) | FileField(name: Name, bytes: seq<bv8>)

  /** The JSON replies of the route. */
  datatype Reply =
    | Uploaded(filename: Name)   // 200, `{ filename, message: 'File uploaded successfully' }`
    | NoFileUploaded             // 400, `{ error: 'No file uploaded' }`
    | UploadError                // 500, `{ error: 'Error uploading file' }`

  function Status(r: Reply): int {
    match r
    case Uploaded(_) => 200
    case NoFileUploaded => 400
    case UploadError => 500
  }

  /** The workspace directory: absent, or the files it holds by name. */
  type Workspace = Option<map<Name, seq<bv8>>>

  /** The route's reply (`None` when the handler itself throws) and the workspace afterwards. */
  datatype Outcome = Outcome(reply: Option<Reply>, workspace: Workspace)

  /** `path.join(workspace, name)` names the directory itself (or its parent) for these names. */
  predicate NamesDirectory(name: Name) {
    name == [] || name == [Dot] || name == [Dot, Dot]
  }

  /** `writeFile`: fails when the directory is missing or the path names a directory. */
  function Write(ws: Workspace, name: Name, bytes: seq<bv8>): Workspace {
    if ws.None? || NamesDirectory(name) then ws else Some(ws.value[name := bytes])
  }

  /**
   * The handler with `NextResponse` imported and the workspace directory created before the write,
   * as its comment says: no file (an empty text field is falsy) is a 400; a non-empty text field has
   * no `arrayBuffer` and is a 500; a file is written under its sanitised name and that name returned.
   */
  function Post(field: FormField, ws: Workspace): (o: Outcome) {
    match field
    case NoField => Outcome(Some(NoFileUploaded), ws)
    case TextField(v) => Outcome(Some(if v == [] then NoFileUploaded else UploadError), ws)
    case FileField(name, bytes) =>
      var dir := if ws.Some? then ws else Some(map[]);
      var safe := Sanitize(name);
      if NamesDirectory(safe) then Outcome(Some(UploadError), dir)
      else Outcome(Some(Uploaded(safe)), Write(dir, safe, bytes))
  }

  /**
   * Nothing is written without a file; a 200 reply names exactly the file that was written, with
   * the uploaded bytes, and nothing else in the workspace changes.
   */
  lemma PostContract(field: FormField, ws: Workspace)
    ensures !field.FileField? ==> Post(field, ws).workspace == ws
    ensures field == NoField || field == TextField([]) ==> Post(field, ws).reply == Some(NoFileUploaded)
    ensures Post(field, ws).reply.Some?
    ensures Post(field, ws).reply.value.Uploaded? ==>
      field.FileField? && Post(field, ws).reply.value.filename == Sanitize(field.name)
      && Post(field, ws).workspace.Some?
      && Post(field, ws).workspace.value == (if ws.Some? then ws.value else map[])[Sanitize(field.name) := field.bytes]
    ensures field.FileField? && !NamesDirectory(Sanitize(field.name)) ==> Post(field, ws).reply.value.Uploaded?
  {
  }

  /**
   * The handler as written: `NextResponse` is not imported, so every `return NextResponse.json(...)`
   * throws, and so does the one in the `catch`; the directory is never created (`mkdir` is imported
   * but not called), so a write into a missing workspace fails.
   */
  function PostAsWritten(field: FormField, ws: Workspace): Outcome {
    match field
    case NoField => Outcome(None, ws)
    case TextField(_) => Outcome(None, ws)
    case FileField(name, bytes) => Outcome(None, Write(ws, Sanitize(name), bytes))
  }

  /** As written, no request gets a reply, not even the 400 for a missing file. */
  lemma AsWrittenNeverReplies(field: FormField, ws: Workspace)
    ensures PostAsWritten(field, ws).reply == None
    ensures Post(NoField, ws).reply == Some(NoFileUploaded) && Status(Post(NoField, ws).reply.value) == 400
  {
  }

  /** As written, an upload into a missing workspace stores nothing; with the directory created, it is stored. */
  lemma AsWrittenLosesFirstUpload(bytes: seq<bv8>)
    ensures var name: Name := ['a' as int as CodeUnit];
      PostAsWritten(FileField(name, bytes), None).workspace == None
      && Post(FileField(name, bytes), None) == Outcome(Some(Uploaded(name)), Some(map[name := bytes]))
  {
    var name: Name := ['a' as int as CodeUnit];
    assert Sanitize(name) == name;
  }
}
