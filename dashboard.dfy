/** The gallery page's state (src/components/Dashboard.tsx): the staged upload
    (`selectedFiles` and `titles`, two arrays that the upload modal keeps
    index-aligned), the gallery list `uploads`, the edited item and the error
    banner. Handlers are methods; the server's reply to a thunk is a
    parameter of the method that handles it.

    `titles` never gets a hole: the handlers keep `selectedFiles` at most one
    longer than `titles`, and titles are only typed for staged files, so an
    index assignment writes at most one past the end (see
    `HandleTitleChange`). The one `undefined` that can enter `titles` is the
    value `splice` inserts when a file is dragged from a position past the
    end of `titles`. It is modelled as the empty string: the upload payload
    reads it through `titles[i] || …`, which treats both alike, and the
    remove button's `filter` keeps an explicit `undefined` in place just as
    it keeps `""`. */
module Dashboard {
  import opened Wrappers
  import opened Text
  import opened Seqs
  import opened ImageActions

  const MaxFileCount := 10
  const MaxFileSize := 10 * 1024 * 1024
  const TooManyFilesMessage := "Maximum 10 files allowed"
  const OversizeMessage := "Some files exceed 10MB limit"
  const OversizeEditMessage := "File exceeds 10MB limit"
  const NoFilesMessage := "No files selected"
  const NoImageMessage := "No image selected for editing"

  predicate WithinLimit(f: File) { f.size <= MaxFileSize }

  /** `files.filter((file) => file.size <= MAX_FILE_SIZE)`. */
  function AcceptedFiles(files: seq<File>): (valid: seq<File>)
    ensures forall f :: f in valid ==> f in files && WithinLimit(f)
    ensures forall f :: f in files && WithinLimit(f) ==> f in valid
    ensures |valid| == |files| <==> forall i :: 0 <= i < |files| ==> WithinLimit(files[i])
    ensures |valid| <= |files|
  {
    Filter(files, WithinLimit)
  }

  /** `validFiles.map(() => "")`. */
  function Blank(n: nat): (r: seq<string>)
    ensures |r| == n && forall i :: 0 <= i < n ==> r[i] == ""
  {
    seq(n, _ => "")
  }

  /** `newTitles[index] = value` on a copy: inside the array one entry
      changes; past its end the array grows, with holes in between. */
  function AssignTitle(titles: seq<string>, index: nat, value: string): (r: seq<string>)
    ensures |r| == if index < |titles| then |titles| else index + 1
    ensures r[index] == value
    ensures forall i :: 0 <= i < |titles| && i != index ==> r[i] == titles[i]
    ensures forall i :: |titles| <= i < |r| && i != index ==> r[i] == ""
  {
    if index < |titles| then titles[index := value] else titles + Blank(index - |titles|) + [value]
  }

  /** The title sent for staged file `i`: `titles[i] || \`Image ${i + 1}\``. */
  function TitleFor(titles: seq<string>, i: nat): (t: string)
    ensures t != ""
    ensures i < |titles| && titles[i] != "" ==> t == titles[i]
    ensures (i >= |titles| || titles[i] == "") ==> t == "Image " + Decimal(i + 1)
  {
    if i < |titles| && titles[i] != "" then titles[i] else "Image " + Decimal(i + 1)
  }

  /** `selectedFiles.map((file, index) => ({ title: …, image: file }))`. */
  function UploadData(files: seq<File>, titles: seq<string>): (items: seq<UploadItem>)
    ensures |items| == |files|
    ensures forall i :: 0 <= i < |files| ==> items[i].image == files[i] && items[i].title == TitleFor(titles, i)
    ensures forall i :: 0 <= i < |files| ==> items[i].title != ""
  {
    seq(|files|, i requires 0 <= i < |files| => UploadItem(TitleFor(titles, i), files[i]))
  }

  /** `uploads.map((u) => u.id === updated.id ? updated : u)`. */
  function ReplaceById(uploads: seq<Upload>, updated: Upload): (r: seq<Upload>)
    ensures |r| == |uploads|
    ensures forall i :: 0 <= i < |uploads| ==> r[i].id == uploads[i].id
    ensures forall i :: 0 <= i < |uploads| && uploads[i].id == updated.id ==> r[i] == updated
    ensures forall i :: 0 <= i < |uploads| && uploads[i].id != updated.id ==> r[i] == uploads[i]
  {
    seq(|uploads|, i requires 0 <= i < |uploads| => if uploads[i].id == updated.id then updated else uploads[i])
  }

  predicate HasOtherId(id: string, u: Upload) { u.id != id }

  /** `uploads.filter((u) => u.id !== id)`. */
  function DeleteById(uploads: seq<Upload>, id: string): (r: seq<Upload>)
    ensures forall u :: u in r ==> u in uploads && u.id != id
    ensures forall u :: u in uploads && u.id != id ==> u in r
    ensures multiset(r) <= multiset(uploads)
  {
    Filter(uploads, u => HasOtherId(id, u))
  }

  predicate Matches(term: string, u: Upload)
  {
    Includes(Lower(u.title), Lower(term))
  }

  /** The gallery's search filter: titles that contain the term, ignoring
      the case of ASCII letters. */
  function Search(uploads: seq<Upload>, term: string): (r: seq<Upload>)
    ensures forall u :: u in r ==> u in uploads && Matches(term, u)
    ensures forall u :: u in uploads && Matches(term, u) ==> u in r
    ensures multiset(r) <= multiset(uploads)
  {
    Filter(uploads, u => Matches(term, u))
  }

  lemma {:induction false} FilterKeepsAll<T>(s: seq<T>, p: T -> bool)
    requires forall i :: 0 <= i < |s| ==> p(s[i])
    ensures Filter(s, p) == s
  {
    if s != [] {
      FilterKeepsAll(s[1..], p);
    }
  }

  /** An empty search box shows the whole gallery, in order. */
  lemma EmptySearchShowsAll(uploads: seq<Upload>)
    ensures Search(uploads, "") == uploads
  {
    forall i | 0 <= i < |uploads|
      ensures Matches("", uploads[i])
    {
      IncludesEmpty(Lower(uploads[i].title));
    }
    FilterKeepsAll(uploads, u => Matches("", u));
  }

  /** Search keeps the gallery's order: searching a concatenation searches
      each part. */
  lemma SearchKeepsOrder(a: seq<Upload>, b: seq<Upload>, term: string)
    ensures Search(a + b, term) == Search(a, term) + Search(b, term)
  {
    FilterAppend(a, b, u => Matches(term, u));
  }

  /** Applying the same edit twice changes nothing more. */
  lemma ReplaceByIdIdempotent(uploads: seq<Upload>, updated: Upload)
    ensures ReplaceById(ReplaceById(uploads, updated), updated) == ReplaceById(uploads, updated)
  {
  }

  /** Deleting an id after editing it leaves what deleting alone leaves. */
  lemma {:induction false} DeleteAfterReplace(uploads: seq<Upload>, updated: Upload)
    ensures DeleteById(ReplaceById(uploads, updated), updated.id) == DeleteById(uploads, updated.id)
  {
    if uploads != [] {
      var r := ReplaceById(uploads, updated);
      assert r[1..] == ReplaceById(uploads[1..], updated);
      DeleteAfterReplace(uploads[1..], updated);
    }
  }

  /** Removing staged item `i` from two aligned arrays keeps them aligned. */
  lemma RemoveKeepsAlignment<A, B>(a: seq<A>, b: seq<B>, i: nat)
    requires |a| == |b|
    ensures |RemoveAt(a, i)| == |RemoveAt(b, i)|
    ensures Zip(RemoveAt(a, i), RemoveAt(b, i)) == RemoveAt(Zip(a, b), i)
  {
  }

  /** A drag moves a file and its title together: both arrays keep their
      length and contents, and the file/title pairs are the old pairs,
      reordered the same way. */
  lemma DragKeepsPairs(files: seq<File>, titles: seq<string>, source: nat, to: nat)
    requires |files| == |titles| && source < |files|
    ensures |Reorder(files, source, to, NoFile)| == |Reorder(titles, source, to, "")| == |files|
    ensures multiset(Reorder(files, source, to, NoFile)) == multiset(files)
    ensures multiset(Reorder(titles, source, to, "")) == multiset(titles)
    ensures Zip(Reorder(files, source, to, NoFile), Reorder(titles, source, to, ""))
         == Reorder(Zip(files, titles), source, to, (NoFile, ""))
  {
    ReorderIsPermutation(files, source, to, NoFile);
    ReorderIsPermutation(titles, source, to, "");
    ReorderKeepsAlignment(files, titles, source, to, NoFile, "");
  }

  /** What `handleEditUpload` dispatches. */
  datatype EditInput = EditInput(id: string, title: Option<string>, image: Option<File>)

  const NoFile := File("", 0)

  class Dashboard {
    var uploads: seq<Upload>
    var selectedFiles: seq<File>
    var titles: seq<string>
    var selectedImage: Option<Upload>
    var searchTerm: string
    var error: Option<string>
    /** Set while a request is in flight; it disables the Upload button. */
    var loading: bool

    constructor ()
      ensures uploads == [] && selectedFiles == [] && titles == []
      ensures selectedImage == None && searchTerm == "" && error == None
      ensures NoTitleGap() && !loading
    {
      uploads, selectedFiles, titles := [], [], [];
      selectedImage, searchTerm, error := None, "", None;
      loading := false;
    }

    /** The uploads the gallery shows. */
    function Visible(): (r: seq<Upload>)
      reads this
      ensures forall u :: u in r <==> u in uploads && Matches(searchTerm, u)
    {
      Search(uploads, searchTerm)
    }

    /** The fetch on mount, up to the dispatch: `setLoading(true)`. */
    method StartFetchUploads()
      modifies this
      ensures old(NoTitleGap()) ==> NoTitleGap()
      ensures loading
      ensures uploads == old(uploads) && selectedFiles == old(selectedFiles) && titles == old(titles)
      ensures selectedImage == old(selectedImage) && searchTerm == old(searchTerm) && error == old(error)
    {
      loading := true;
    }

    /** The fetch on mount: `uploads` becomes the returned list when it is an
        array and the empty list otherwise; a failure shows its message. */
    method FinishFetchUploads(reply: Result<Option<seq<Upload>>, Option<string>>)
      modifies this
      ensures old(NoTitleGap()) ==> NoTitleGap()
      ensures selectedFiles == old(selectedFiles) && titles == old(titles)
      ensures selectedImage == old(selectedImage) && searchTerm == old(searchTerm)
      ensures reply.Ok? && reply.value.Some? ==> uploads == reply.value.value && error == None
      ensures reply.Ok? && reply.value.None? ==> uploads == [] && error == None
      ensures reply.Err? ==> uploads == old(uploads) && error == Some(FailureMessage(GetUploads, reply.error))
      ensures !loading
    {
      loading := false;
      match reply
      case Ok(list) =>
        uploads := if list.Some? then list.value else [];
        error := None;
      case Err(message) =>
        error := Some(FailureMessage(GetUploads, message));
    }

    /** `selectedFiles` is at most one entry longer than `titles`, so a title
        typed for a staged file is written inside `titles` or just past its
        end, never further out: no hole can arise. Every handler keeps it. */
    predicate NoTitleGap()
      reads this
    {
      |selectedFiles| <= |titles| + 1
    }

    /** Both staging arrays have one entry per staged file. */
    predicate Aligned()
      reads this
    {
      |selectedFiles| == |titles|
    }

    /** `handleFileSelect`: over ten files is refused outright; otherwise the
        oversized files are dropped, with a warning when any was. */
    method HandleFileSelect(files: seq<File>)
      modifies this
      ensures old(NoTitleGap()) ==> NoTitleGap()
      ensures loading == old(loading)
      ensures uploads == old(uploads) && selectedImage == old(selectedImage) && searchTerm == old(searchTerm)
      ensures |files| > MaxFileCount ==>
        selectedFiles == old(selectedFiles) && titles == old(titles) && error == Some(TooManyFilesMessage)
      ensures |files| <= MaxFileCount ==>
        && selectedFiles == AcceptedFiles(files) && titles == Blank(|selectedFiles|) && Aligned()
        && error == if exists i :: 0 <= i < |files| && !WithinLimit(files[i]) then Some(OversizeMessage) else old(error)
    {
      if |files| > MaxFileCount {
        error := Some(TooManyFilesMessage);
        return;
      }
      var valid := AcceptedFiles(files);
      if |valid| != |files| {
        error := Some(OversizeMessage);
      }
      selectedFiles := valid;
      titles := Blank(|valid|);
    }

    /** `handleEditFileSelect`: stages the one file of the edit modal; the
        titles are left as they are. */
    method HandleEditFileSelect(file: Option<File>)
      modifies this
      ensures old(NoTitleGap()) ==> NoTitleGap()
      ensures loading == old(loading)
      ensures uploads == old(uploads) && titles == old(titles) && selectedImage == old(selectedImage)
      ensures searchTerm == old(searchTerm)
      ensures file.None? ==> selectedFiles == old(selectedFiles) && error == old(error)
      ensures file.Some? && !WithinLimit(file.value) ==>
        selectedFiles == old(selectedFiles) && error == Some(OversizeEditMessage)
      ensures file.Some? && WithinLimit(file.value) ==> selectedFiles == [file.value] && error == old(error)
    {
      if file.Some? {
        if !WithinLimit(file.value) {
          error := Some(OversizeEditMessage);
          return;
        }
        selectedFiles := [file.value];
      }
    }

    /** `handleTitleChange`. */
    method HandleTitleChange(index: nat, value: string)
      modifies this
      ensures old(NoTitleGap()) ==> NoTitleGap()
      ensures loading == old(loading)
      ensures titles == AssignTitle(old(titles), index, value)
      ensures old(Aligned()) && index < |selectedFiles| ==> Aligned()
      ensures old(NoTitleGap()) && index < |selectedFiles| ==>
        || (index < |old(titles)| && titles == old(titles)[index := value])
        || (index == |old(titles)| && titles == old(titles) + [value])
      ensures uploads == old(uploads) && selectedFiles == old(selectedFiles)
      ensures selectedImage == old(selectedImage) && searchTerm == old(searchTerm) && error == old(error)
    {
      titles := AssignTitle(titles, index, value);
    }

    /** `handleFileDragEnd`: without a destination nothing moves; otherwise
        the dragged file and its title move to the destination together
        (see `DragKeepsPairs`). */
    method HandleFileDragEnd(source: nat, destination: Option<nat>)
      requires source < |selectedFiles|
      modifies this
      ensures old(NoTitleGap()) ==> NoTitleGap()
      ensures loading == old(loading)
      ensures uploads == old(uploads) && selectedImage == old(selectedImage)
      ensures searchTerm == old(searchTerm) && error == old(error)
      ensures destination.None? ==> selectedFiles == old(selectedFiles) && titles == old(titles)
      ensures destination.Some? ==>
        && selectedFiles == Reorder(old(selectedFiles), source, destination.value, NoFile)
        && titles == Reorder(old(titles), source, destination.value, "")
    {
      if destination.None? {
        return;
      }
      var to := destination.value;
      selectedFiles := Reorder(selectedFiles, source, to, NoFile);
      titles := Reorder(titles, source, to, "");
    }

    /** The remove button of staged item `index`. */
    method RemoveStaged(index: nat)
      modifies this
      ensures old(NoTitleGap()) ==> NoTitleGap()
      ensures loading == old(loading)
      ensures selectedFiles == RemoveAt(old(selectedFiles), index)
      ensures titles == RemoveAt(old(titles), index)
      ensures old(Aligned()) ==> Aligned() && Zip(selectedFiles, titles) == RemoveAt(Zip(old(selectedFiles), old(titles)), index)
      ensures uploads == old(uploads) && selectedImage == old(selectedImage)
      ensures searchTerm == old(searchTerm) && error == old(error)
    {
      if Aligned() {
        RemoveKeepsAlignment(selectedFiles, titles, index);
      }
      selectedFiles := RemoveAt(selectedFiles, index);
      titles := RemoveAt(titles, index);
    }

    /** The upload modal's cancel button. */
    method CancelUpload()
      modifies this
      ensures old(NoTitleGap()) ==> NoTitleGap()
      ensures loading == old(loading)
      ensures selectedFiles == [] && titles == [] && Aligned()
      ensures uploads == old(uploads) && selectedImage == old(selectedImage)
      ensures searchTerm == old(searchTerm) && error == old(error)
    {
      selectedFiles, titles := [], [];
    }

    /** The search box: `setSearchTerm(e.target.value)`. */
    method SetSearchTerm(term: string)
      modifies this
      ensures old(NoTitleGap()) ==> NoTitleGap()
      ensures loading == old(loading)
      ensures searchTerm == term
      ensures Visible() == Search(uploads, term)
      ensures uploads == old(uploads) && selectedFiles == old(selectedFiles) && titles == old(titles)
      ensures selectedImage == old(selectedImage) && error == old(error)
    {
      searchTerm := term;
    }

    /** The Edit and Delete buttons of a gallery item: `setSelectedImage(upload)`. */
    method SelectImage(u: Upload)
      modifies this
      ensures old(NoTitleGap()) ==> NoTitleGap()
      ensures loading == old(loading)
      ensures selectedImage == Some(u)
      ensures uploads == old(uploads) && selectedFiles == old(selectedFiles) && titles == old(titles)
      ensures searchTerm == old(searchTerm) && error == old(error)
    {
      selectedImage := Some(u);
    }

    /** The edit modal's title input, rendered only while an image is
        selected: `setSelectedImage({ ...selectedImage, title })`. The id is
        kept, so the edit still targets the same upload. */
    method EditTitle(value: string)
      requires selectedImage.Some?
      modifies this
      ensures old(NoTitleGap()) ==> NoTitleGap()
      ensures loading == old(loading)
      ensures selectedImage == Some(old(selectedImage).value.(title := value))
      ensures selectedImage.value.id == old(selectedImage).value.id
      ensures uploads == old(uploads) && selectedFiles == old(selectedFiles) && titles == old(titles)
      ensures searchTerm == old(searchTerm) && error == old(error)
    {
      selectedImage := Some(selectedImage.value.(title := value));
    }

    /** The edit modal's cancel button: the staged file and the selection
        are dropped. */
    method CancelEdit()
      modifies this
      ensures old(NoTitleGap()) ==> NoTitleGap()
      ensures loading == old(loading)
      ensures selectedFiles == [] && selectedImage == None
      ensures uploads == old(uploads) && titles == old(titles)
      ensures searchTerm == old(searchTerm) && error == old(error)
    {
      selectedFiles := [];
      selectedImage := None;
    }

    /** `handleBulkUpload` up to the dispatch: with nothing staged it only
        reports an error; otherwise it sends one entry per staged file. The
        handler closes over the `uploads` of the render it was created in;
        `snapshot` is that list, which the reply is later appended to. */
    method StartBulkUpload() returns (payload: Option<seq<UploadItem>>, snapshot: seq<Upload>)
      requires !loading
      modifies this
      ensures old(NoTitleGap()) ==> NoTitleGap()
      ensures uploads == old(uploads) && selectedFiles == old(selectedFiles) && titles == old(titles)
      ensures selectedImage == old(selectedImage) && searchTerm == old(searchTerm)
      ensures snapshot == uploads
      ensures selectedFiles == [] ==> payload == None && error == Some(NoFilesMessage) && !loading
      ensures selectedFiles != [] ==> payload == Some(UploadData(selectedFiles, titles)) && error == old(error) && loading
    {
      snapshot := uploads;
      if |selectedFiles| == 0 {
        error := Some(NoFilesMessage);
        payload := None;
        return;
      }
      loading := true;
      payload := Some(UploadData(selectedFiles, titles));
    }

    /** `handleBulkUpload` after the reply: the new uploads are appended to
        the list captured when the handler started (not to the current one),
        and the staging arrays emptied; or the error is shown. */
    method FinishBulkUpload(snapshot: seq<Upload>, reply: Result<seq<Upload>, Option<string>>)
      modifies this
      ensures old(NoTitleGap()) ==> NoTitleGap()
      ensures selectedImage == old(selectedImage) && searchTerm == old(searchTerm)
      ensures reply.Ok? ==>
        && uploads == snapshot + reply.value && selectedFiles == [] && titles == [] && error == None
      ensures reply.Err? ==>
        && uploads == old(uploads) && selectedFiles == old(selectedFiles) && titles == old(titles)
        && error == Some(FailureMessage(BulkUpload, reply.error))
      ensures !loading
    {
      loading := false;
      match reply
      case Ok(created) =>
        uploads := snapshot + created;
        error := None;
        selectedFiles := [];
        titles := [];
      case Err(message) =>
        error := Some(FailureMessage(BulkUpload, message));
    }

    /** `handleEditUpload` up to the dispatch; `snapshot` is the `uploads`
        the handler closes over. */
    method StartEditUpload() returns (payload: Option<EditInput>, snapshot: seq<Upload>)
      modifies this
      ensures old(NoTitleGap()) ==> NoTitleGap()
      ensures uploads == old(uploads) && selectedFiles == old(selectedFiles) && titles == old(titles)
      ensures selectedImage == old(selectedImage) && searchTerm == old(searchTerm)
      ensures snapshot == uploads
      ensures selectedImage.None? ==> payload == None && error == Some(NoImageMessage) && loading == old(loading)
      ensures selectedImage.Some? ==> loading && error == old(error) && payload == Some(EditInput(
        selectedImage.value.id, Some(selectedImage.value.title),
        if selectedFiles != [] then Some(selectedFiles[0]) else None))
    {
      snapshot := uploads;
      if selectedImage.None? {
        error := Some(NoImageMessage);
        payload := None;
        return;
      }
      loading := true;
      var image := if |selectedFiles| > 0 then Some(selectedFiles[0]) else None;
      payload := Some(EditInput(selectedImage.value.id, Some(selectedImage.value.title), image));
    }

    /** `handleEditUpload` after the reply: exactly the uploads with the
        returned id are replaced, in the list captured when the handler
        started. */
    method FinishEditUpload(snapshot: seq<Upload>, reply: Result<Upload, Option<string>>)
      modifies this
      ensures old(NoTitleGap()) ==> NoTitleGap()
      ensures titles == old(titles) && searchTerm == old(searchTerm)
      ensures reply.Ok? ==>
        && uploads == ReplaceById(snapshot, reply.value)
        && selectedFiles == [] && selectedImage == None && error == None
      ensures reply.Err? ==>
        && uploads == old(uploads) && selectedFiles == old(selectedFiles) && selectedImage == old(selectedImage)
        && error == Some(FailureMessage(EditUpload, reply.error))
      ensures !loading
    {
      loading := false;
      match reply
      case Ok(updated) =>
        uploads := ReplaceById(snapshot, updated);
        error := None;
        selectedFiles := [];
        selectedImage := None;
      case Err(message) =>
        error := Some(FailureMessage(EditUpload, message));
    }

    /** `handleDeleteUpload` with the reply: exactly the uploads with the id
        are removed. */
    method HandleDeleteUpload(id: string, reply: Result<(), Option<string>>)
      modifies this
      ensures old(NoTitleGap()) ==> NoTitleGap()
      ensures selectedFiles == old(selectedFiles) && titles == old(titles)
      ensures selectedImage == old(selectedImage) && searchTerm == old(searchTerm)
      ensures reply.Ok? ==> uploads == DeleteById(old(uploads), id) && error == None
      ensures reply.Err? ==> uploads == old(uploads) && error == Some(FailureMessage(DeleteUpload, reply.error))
      ensures !loading
    {
      loading := false;
      match reply
      case Ok(_) =>
        uploads := DeleteById(uploads, id);
        error := None;
      case Err(message) =>
        error := Some(FailureMessage(DeleteUpload, message));
    }
  }

  /** The order the page allows: the fetch on mount completes (the Upload
      button is disabled until then), a file is staged and uploaded. The
      upload handler's captured list is then the fetched one, so the
      gallery ends as the fetched uploads followed by the created ones. */
  method UploadAfterFetch(file: File, fetched: seq<Upload>, created: seq<Upload>) returns (sent: seq<UploadItem>, gallery: seq<Upload>)
    requires WithinLimit(file)
    ensures sent == [UploadItem("Image 1", file)]
    ensures gallery == fetched + created
  {
    var d := new Dashboard();
    d.StartFetchUploads();
    d.FinishFetchUploads(Ok(Some(fetched)));
    d.HandleFileSelect([file]);
    assert file in d.selectedFiles && |d.selectedFiles| == 1;
    assert d.selectedFiles == [file] && d.titles == [""];
    var payload, snapshot := d.StartBulkUpload();
    assert Decimal(1) == "1";
    assert TitleFor([""], 0) == "Image 1";
    sent := payload.value;
    d.FinishBulkUpload(snapshot, Ok(created));
    gallery := d.uploads;
  }
}
