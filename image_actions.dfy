/** The request builders of the image thunks (src/redux/actions/imageActions.ts)
    and the endpoint constants they use (src/services/endPoints/endPoints.ts).
    A thunk either rejects before any request, or describes the one request
    it sends; the server's reply comes back as a parameter. */
module ImageActions {
  import opened Wrappers
  import opened Text

  /** A browser `File`, as far as the client looks at it. */
  datatype File = File(name: string, size: nat)

  /** An upload record as the server returns it. */
  datatype Upload = Upload(id: string, title: string, imageUrl: string, order: int)

  /** One entry of the bulk-upload input. */
  datatype UploadItem = UploadItem(title: string, image: File)

  /** A multipart form field; `JsonList` is `JSON.stringify` of a list of
      strings, kept as the list. */
  datatype FormField =
    | FileField(name: string, file: File)
    | TextField(name: string, text: string)
    | JsonList(name: string, items: seq<string>)

  datatype HttpCall =
    | Get(path: string)
    | Post(path: string, form: seq<FormField>)
    | Put(path: string, form: seq<FormField>)
    | Delete(path: string)

  const UploadsPath := "/uploads"
  const UploadByIdPath := "/uploads/:id"
  const RearrangePath := "/uploads/rearrange"
  const IdPlaceholder := ":id"
  const InvalidIdMessage := "Invalid upload ID"

  /** The guard `!id || id === 'undefined' || id === 'null'`. */
  predicate IsInvalidId(id: string)
  {
    id == "" || id == "undefined" || id == "null"
  }

  /** The replacement text of `String.prototype.replace` with a string
      pattern: `$$`, `$&`, `` $` `` and `$'` are expanded; any other `$` is
      kept as it is (a string pattern has no capture groups). */
  function Expand(rep: string, matched: string, before: string, after: string): (r: string)
    ensures (forall i :: 0 <= i < |rep| ==> rep[i] != '$') ==> r == rep
  {
    if rep == [] then []
    else if rep[0] == '$' && |rep| >= 2 && rep[1] == '$' then "$" + Expand(rep[2..], matched, before, after)
    else if rep[0] == '$' && |rep| >= 2 && rep[1] == '&' then matched + Expand(rep[2..], matched, before, after)
    else if rep[0] == '$' && |rep| >= 2 && rep[1] == '`' then before + Expand(rep[2..], matched, before, after)
    else if rep[0] == '$' && |rep| >= 2 && rep[1] == '\'' then after + Expand(rep[2..], matched, before, after)
    else [rep[0]] + Expand(rep[1..], matched, before, after)
  }

  /** `s.replace(pat, rep)`: only the first occurrence is replaced. */
  function ReplaceFirst(s: string, pat: string, rep: string): (r: string)
    ensures IndexOf(s, pat).None? ==> r == s
    ensures IndexOf(s, pat).Some? ==>
      var i := IndexOf(s, pat).value;
      var tail := s[i + |pat|..];
      |r| >= i + |tail| && r[..i] == s[..i] && r[|r| - |tail|..] == tail
    ensures IndexOf(s, pat).Some? && (forall k :: 0 <= k < |rep| ==> rep[k] != '$') ==>
      var i := IndexOf(s, pat).value;
      r == s[..i] + rep + s[i + |pat|..]
  {
    match IndexOf(s, pat)
    case None => s
    case Some(i) => s[..i] + Expand(rep, pat, s[..i], s[i + |pat|..]) + s[i + |pat|..]
  }

  /** `imageEndPoints.editUpload.replace(':id', id)`, also the delete path. */
  function UploadPath(id: string): (path: string)
    ensures "/uploads/" <= path
  {
    PlaceholderPosition();
    assert UploadByIdPath[..9] == "/uploads/";
    ReplaceFirst(UploadByIdPath, IdPlaceholder, id)
  }

  lemma PlaceholderPosition()
    ensures IndexOf(UploadByIdPath, IdPlaceholder) == Some(9)
  {
    var s := UploadByIdPath;
    assert OccursAt(s, IdPlaceholder, 9);
    forall j | 0 <= j < 9
      ensures !OccursAt(s, IdPlaceholder, j)
    {
      assert s[j] != ':';
      assert j + 3 <= |s| ==> s[j..j + 3][0] == s[j];
    }
  }

  /** For an id without `$`, the path is "/uploads/" followed by the id. */
  lemma UploadPathAppendsId(id: string)
    requires forall i :: 0 <= i < |id| ==> id[i] != '$'
    ensures UploadPath(id) == "/uploads/" + id
  {
    PlaceholderPosition();
    var s := UploadByIdPath;
    assert s[..9] == "/uploads/";
    assert s[12..] == "";
  }

  /** `$&` in an id stands for the matched placeholder, so the path keeps
      `:id` literally. */
  lemma DollarAmpersandIdKeepsPlaceholder()
    ensures UploadPath("$&") == UploadByIdPath
  {
    PlaceholderPosition();
    var s := UploadByIdPath;
    var e := Expand("$&", IdPlaceholder, s[..9], s[12..]);
    assert e == IdPlaceholder + Expand("", IdPlaceholder, s[..9], s[12..]);
    assert ReplaceFirst(s, IdPlaceholder, "$&") == s[..9] + e + s[12..];
    assert s[..9] + IdPlaceholder + s[12..] == s;
  }

  /** The form of `bulkUploadImages`: an `images` field per upload, in input
      order, then one `titles` field listing the titles in the same order. */
  method BuildBulkForm(uploads: seq<UploadItem>) returns (form: seq<FormField>)
    ensures |form| == |uploads| + 1
    ensures forall i :: 0 <= i < |uploads| ==> form[i] == FileField("images", uploads[i].image)
    ensures form[|uploads|].JsonList? && form[|uploads|].name == "titles"
    ensures |form[|uploads|].items| == |uploads|
    ensures forall i :: 0 <= i < |uploads| ==> form[|uploads|].items[i] == uploads[i].title
  {
    form := [];
    var titles: seq<string> := [];
    var i := 0;
    while i < |uploads|
      invariant 0 <= i <= |uploads|
      invariant |form| == |titles| == i
      invariant forall k :: 0 <= k < i ==> form[k] == FileField("images", uploads[k].image)
      invariant forall k :: 0 <= k < i ==> titles[k] == uploads[k].title
    {
      form := form + [FileField("images", uploads[i].image)];
      titles := titles + [uploads[i].title];
      i := i + 1;
    }
    form := form + [JsonList("titles", titles)];
  }

  /** The bulk-upload request. */
  method BulkUploadRequest(uploads: seq<UploadItem>) returns (call: HttpCall)
    ensures call.Post? && call.path == UploadsPath && |call.form| == |uploads| + 1
    ensures forall i :: 0 <= i < |uploads| ==> call.form[i] == FileField("images", uploads[i].image)
    ensures call.form[|uploads|] == JsonList("titles", seq(|uploads|, i requires 0 <= i < |uploads| => uploads[i].title))
  {
    var form := BuildBulkForm(uploads);
    call := Post(UploadsPath, form);
  }

  /** The form of `editUpload`: `title` only when non-empty, `image` only
      when given. */
  function EditForm(title: Option<string>, image: Option<File>): (form: seq<FormField>)
    ensures TextField("title", if title.Some? then title.value else "") in form <==> Truthy(title)
    ensures (exists f :: FileField("image", f) in form) <==> image.Some?
    ensures image.Some? ==> FileField("image", image.value) in form
    ensures |form| == (if Truthy(title) then 1 else 0) + (if image.Some? then 1 else 0)
  {
    (if Truthy(title) then [TextField("title", title.value)] else [])
    + (if image.Some? then [FileField("image", image.value)] else [])
  }

  /** `editUpload`: the id guard, then a PUT to the upload's path. */
  function EditUploadRequest(id: string, title: Option<string>, image: Option<File>): (r: Result<HttpCall, string>)
    ensures r.Err? <==> IsInvalidId(id)
    ensures r.Err? ==> r.error == InvalidIdMessage
    ensures r.Ok? ==> r.value == Put(UploadPath(id), EditForm(title, image))
  {
    if IsInvalidId(id) then Err(InvalidIdMessage) else Ok(Put(UploadPath(id), EditForm(title, image)))
  }

  /** `deleteUpload`: the same guard and message, then a DELETE. */
  function DeleteUploadRequest(id: string): (r: Result<HttpCall, string>)
    ensures r.Err? <==> IsInvalidId(id)
    ensures r.Err? ==> r.error == InvalidIdMessage
    ensures r.Ok? ==> r.value == Delete(UploadPath(id))
  {
    if IsInvalidId(id) then Err(InvalidIdMessage) else Ok(Delete(UploadPath(id)))
  }

  /** The guarded requests target "/uploads/" + id for an ordinary id. */
  lemma GuardedRequestsTargetId(id: string, title: Option<string>, image: Option<File>)
    requires !IsInvalidId(id)
    requires forall i :: 0 <= i < |id| ==> id[i] != '$'
    ensures EditUploadRequest(id, title, image).Ok?
    ensures EditUploadRequest(id, title, image).value.path == "/uploads/" + id
    ensures DeleteUploadRequest(id) == Ok(Delete("/uploads/" + id))
  {
    UploadPathAppendsId(id);
  }

  /** The five thunks and their fixed fallback messages. */
  datatype Operation = BulkUpload | GetUploads | EditUpload | DeleteUpload | RearrangeUploads

  function DefaultMessage(op: Operation): (m: string)
    ensures m != ""
  {
    match op
    case BulkUpload => "Bulk upload failed"
    case GetUploads => "Failed to fetch uploads"
    case EditUpload => "Edit upload failed"
    case DeleteUpload => "Delete upload failed"
    case RearrangeUploads => "Rearrange uploads failed"
  }

  /** `error.response?.data?.message || <default>`: the rejection message. */
  function FailureMessage(op: Operation, serverMessage: Option<string>): (m: string)
    ensures m != ""
    ensures Truthy(serverMessage) ==> m == serverMessage.value
    ensures !Truthy(serverMessage) ==> m == DefaultMessage(op)
  {
    OrElse(serverMessage, DefaultMessage(op))
  }
}
