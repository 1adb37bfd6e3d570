/**
 * The category page: the guards and the bookkeeping around uploading a
 * material (storage path, uploader name, form reset, the `uploading` flag),
 * the download guard, the unknown-category check and the "unknown size"
 * branch of the size label. Storage, database, navigation and toasts are
 * collaborators: their outcomes come in as parameters and the calls made to
 * them come out as values.
 */
module CategoryPage {
  import opened Wrappers
  import opened Strings

  /** The signed-in user, as the auth hook reports it. */
  datatype User = User(id: string, email: Option<string>)

  /** A file picked in the upload form. */
  datatype FileInfo = FileInfo(name: string, size: nat)

  /** The upload form's state. */
  datatype UploadForm = UploadForm(title: string, description: string, file: Option<FileInfo>)

  const EmptyForm: UploadForm := UploadForm("", "", None)

  /** A row of the `materials` table as the page reads it. */
  datatype Material = Material(
    id: string, title: string, description: Option<string>, category: string,
    fileUrl: Option<string>, fileName: Option<string>, fileSize: Option<int>,
    uploaderName: Option<string>, createdAt: string)

  /** The row the page inserts after a successful storage upload. */
  datatype NewMaterial = NewMaterial(
    title: string, description: string, category: Option<string>,
    fileUrl: string, fileName: string, fileSize: nat,
    uploadedBy: string, uploaderName: string)

  /** What the backend answers to one call: success or an error. */
  datatype BackendResult = Ok | Failed(message: string)

  /**
   * The calls an upload makes to the backend, in the order it makes them.
   * The listing refresh (`fetchMaterials`) after a successful upload is not
   * part of this model.
   */
  datatype BackendCall = StorageUpload(path: string, file: FileInfo) | InsertMaterial(row: NewMaterial)

  /**
   * How an upload attempt ends: sent to the sign-in page, the "Missing
   * fields" toast, the "Upload failed" toast, or the "Success!" toast
   * followed by a fresh listing.
   */
  datatype UploadOutcome = RedirectToAuth | MissingFields | UploadError | Uploaded

  /** The page state an upload touches. */
  datatype PageState = PageState(showUpload: bool, uploading: bool, form: UploadForm)

  /** One run of `handleUpload`: how it ended, the backend calls made, the state left behind. */
  datatype UploadRun = UploadRun(outcome: UploadOutcome, calls: seq<BackendCall>, after: PageState)

  /**
   * `name.split(".").pop()`: the text after the last dot, or the whole name
   * when it has no dot.
   */
  function FileExtension(name: string): (ext: string)
    ensures '.' !in ext
    ensures |ext| <= |name| && name[|name| - |ext|..] == ext
    ensures |ext| < |name| ==> name[|name| - |ext| - 1] == '.'
    ensures '.' !in name ==> ext == name
  {
    var parts := Split(name, '.');
    SplitLast(name, '.');
    parts[|parts| - 1]
  }

  /** `${user.id}/${Date.now()}.${fileExt}`, with the clock reading passed in as `now`. */
  function StoragePath(userId: string, now: nat, fileName: string): string
  {
    userId + "/" + DecimalDigits(now) + "." + FileExtension(fileName)
  }

  /**
   * `user.email?.split("@")[0] || "Anonymous"`: the part of the email before
   * its first `@`, or "Anonymous" when there is no email or that part is empty.
   */
  function UploaderName(email: Option<string>): (name: string)
    ensures name != ""
    ensures email.None? ==> name == "Anonymous"
    ensures email.Some? && (email.value == "" || email.value[0] == '@') ==> name == "Anonymous"
    ensures email.Some? && email.value != "" && email.value[0] != '@' ==>
      var e := email.value;
      '@' !in name && |name| <= |e| && e[..|name|] == name && (|name| < |e| ==> e[|name|] == '@')
  {
    match email
    case None => "Anonymous"
    case Some(e) =>
      SplitFirst(e, '@');
      var local := Split(e, '@')[0];
      if local == "" then "Anonymous" else local
  }

  /** The storage path always lies in the uploading user's own folder. */
  lemma StoragePathInUserFolder(userId: string, now: nat, fileName: string)
    ensures var path := StoragePath(userId, now, fileName);
      |path| > |userId| && path[..|userId| + 1] == userId + "/"
    ensures '/' !in userId ==> Split(StoragePath(userId, now, fileName), '/')[0] == userId
  {
    var path := StoragePath(userId, now, fileName);
    assert path[..|userId| + 1] == userId + "/";
    if '/' !in userId {
      SplitFirst(path, '/');
      assert path[..|userId|] == userId;
      MaximalPrefixUnique(path, '/', Split(path, '/')[0], userId);
    }
  }

  /** The stored object keeps the extension of the file the user picked. */
  lemma StoragePathKeepsExtension(userId: string, now: nat, fileName: string)
    ensures FileExtension(StoragePath(userId, now, fileName)) == FileExtension(fileName)
  {
    var path := StoragePath(userId, now, fileName);
    var ext := FileExtension(fileName);
    var prefix := userId + "/" + DecimalDigits(now);
    assert path == prefix + "." + ext;
    assert path[|path| - |ext|..] == ext;
    assert path[|path| - |ext| - 1] == '.';
    MaximalSuffixUnique(path, '.', FileExtension(path), ext);
  }

  /**
   * Two uploads by the same user at different clock readings get different
   * storage paths, whatever the files are called.
   */
  lemma DistinctTimesDistinctPaths(userId: string, now1: nat, now2: nat, name1: string, name2: string)
    requires now1 != now2
    ensures StoragePath(userId, now1, name1) != StoragePath(userId, now2, name2)
  {
    var d1, d2 := DecimalDigits(now1), DecimalDigits(now2);
    var e1, e2 := FileExtension(name1), FileExtension(name2);
    if StoragePath(userId, now1, name1) == StoragePath(userId, now2, name2) {
      var k := |userId| + 1;
      var rest := StoragePath(userId, now1, name1)[k..];
      assert rest == d1 + "." + e1;
      assert StoragePath(userId, now2, name2)[k..] == d2 + "." + e2;
      assert rest[..|d1|] == d1 && rest[|d1|] == '.';
      assert rest[..|d2|] == d2 && rest[|d2|] == '.';
      MaximalPrefixUnique(rest, '.', d1, d2);
      DecimalRoundTrip(now1);
      DecimalRoundTrip(now2);
    }
  }

  /** True when the guards of `handleUpload` let an upload through. */
  predicate CanUpload(st: PageState, user: Option<User>)
  {
    user.Some? && st.form.file.Some? && st.form.title != ""
  }

  /**
   * `handleUpload`: no user sends the visitor to sign in; a missing file or
   * title shows "Missing fields"; otherwise the file is stored, its public
   * URL obtained (`publicUrl`), the row inserted, and on success the form is
   * reset and hidden; `uploading` is cleared however the attempt ends.
   */
  function Upload(st: PageState, user: Option<User>, category: Option<string>, now: nat,
                  publicUrl: string -> string, stored: BackendResult, inserted: BackendResult): UploadRun
  {
    if user.None? then UploadRun(RedirectToAuth, [], st)
    else if st.form.file.None? || st.form.title == "" then UploadRun(MissingFields, [], st)
    else
      var u, file := user.value, st.form.file.value;
      var path := StoragePath(u.id, now, file.name);
      var upload := StorageUpload(path, file);
      if stored.Failed? then UploadRun(UploadError, [upload], st.(uploading := false))
      else
        var row := NewMaterial(st.form.title, st.form.description, category, publicUrl(path),
                               file.name, file.size, u.id, UploaderName(u.email));
        var calls := [upload, InsertMaterial(row)];
        if inserted.Failed? then UploadRun(UploadError, calls, st.(uploading := false))
        else UploadRun(Uploaded, calls, PageState(false, false, EmptyForm))
  }

  /** Without a signed-in user nothing is stored or inserted and nothing changes. */
  lemma UploadWithoutUserRedirects(st: PageState, category: Option<string>, now: nat,
                                  publicUrl: string -> string, stored: BackendResult, inserted: BackendResult)
    ensures Upload(st, None, category, now, publicUrl, stored, inserted) == UploadRun(RedirectToAuth, [], st)
  {
  }

  /** A missing file or an empty title is refused before `uploading` is ever set. */
  lemma UploadMissingFields(st: PageState, user: User, category: Option<string>, now: nat,
                            publicUrl: string -> string, stored: BackendResult, inserted: BackendResult)
    requires st.form.file.None? || st.form.title == ""
    ensures Upload(st, Some(user), category, now, publicUrl, stored, inserted) == UploadRun(MissingFields, [], st)
  {
  }

  /**
   * Backend calls happen exactly when the guards pass; then the first is the
   * storage upload under the user's folder, a stored file is always followed
   * by the insert and by nothing else, a failed one by nothing, `uploading`
   * ends false, and the upload succeeds exactly when both backend calls do.
   */
  lemma UploadSettles(st: PageState, user: Option<User>, category: Option<string>, now: nat,
                      publicUrl: string -> string, stored: BackendResult, inserted: BackendResult)
    ensures var r := Upload(st, user, category, now, publicUrl, stored, inserted);
      && (r.calls != [] <==> CanUpload(st, user))
      && (CanUpload(st, user) ==>
            && !r.after.uploading
            && r.calls[0] == StorageUpload(StoragePath(user.value.id, now, st.form.file.value.name), st.form.file.value)
            && (stored.Failed? ==> |r.calls| == 1)
            && (stored.Ok? ==> |r.calls| == 2 && r.calls[1].InsertMaterial?)
            && (r.outcome == Uploaded <==> stored.Ok? && inserted.Ok?)
            && (r.outcome != Uploaded ==> r.outcome == UploadError))
  {
  }

  /** A successful upload leaves an empty, hidden form; a failed one keeps what the user typed. */
  lemma UploadResetsOnlyOnSuccess(st: PageState, user: Option<User>, category: Option<string>, now: nat,
                                  publicUrl: string -> string, stored: BackendResult, inserted: BackendResult)
    ensures var r := Upload(st, user, category, now, publicUrl, stored, inserted);
      && (r.outcome == Uploaded ==> r.after == PageState(false, false, EmptyForm))
      && (r.outcome != Uploaded ==> r.after.form == st.form && r.after.showUpload == st.showUpload)
  {
  }

  /**
   * A row is inserted only after its file was stored, and it points at that
   * file: its URL is the stored path's public URL and it names the uploader.
   */
  lemma InsertedRowMatchesStoredFile(st: PageState, user: Option<User>, category: Option<string>, now: nat,
                                     publicUrl: string -> string, stored: BackendResult, inserted: BackendResult)
    ensures var r := Upload(st, user, category, now, publicUrl, stored, inserted);
      forall i :: 0 <= i < |r.calls| && r.calls[i].InsertMaterial? ==>
        && i == 1 && stored.Ok? && user.Some? && r.calls[0].StorageUpload?
        && r.calls[i].row.title == st.form.title
        && r.calls[i].row.description == st.form.description
        && r.calls[i].row.fileUrl == publicUrl(r.calls[0].path)
        && r.calls[i].row.fileName == r.calls[0].file.name
        && r.calls[i].row.fileSize == r.calls[0].file.size
        && r.calls[i].row.uploadedBy == user.value.id
        && r.calls[i].row.uploaderName == UploaderName(user.value.email)
        && r.calls[i].row.category == category
  {
  }

  /** What clicking "Download" does. */
  datatype DownloadAction = GoToAuth | OpenInNewTab(url: string) | NoAction

  /**
   * `handleDownload`: without a user, go to the sign-in page; with one, open
   * the file's URL in a new tab when the URL is present and non-empty (the
   * source tests it for truthiness), otherwise do nothing.
   */
  function HandleDownload(user: Option<User>, material: Material): (a: DownloadAction)
    ensures a == GoToAuth <==> user.None?
    ensures a.OpenInNewTab? <==> user.Some? && material.fileUrl.Some? && material.fileUrl.value != ""
    ensures a.OpenInNewTab? ==> a.url == material.fileUrl.value
  {
    if user.None? then GoToAuth
    else match material.fileUrl
      case Some(url) => if url != "" then OpenInNewTab(url) else NoAction
      case None => NoAction
  }

  /** The size label: unknown, or a kilobyte/megabyte figure of the byte count. */
  datatype SizeLabel = UnknownSize | SizeOf(bytes: int)

  /** `formatFileSize`: "Unknown size" exactly for a missing or zero size. */
  function FormatFileSize(bytes: Option<int>): (size: SizeLabel)
    ensures size == UnknownSize <==> bytes.None? || bytes.value == 0
    ensures size.SizeOf? ==> size.bytes == bytes.value
  {
    match bytes
    case None => UnknownSize
    case Some(b) => if b == 0 then UnknownSize else SizeOf(b)
  }

  /** The known categories and their headings. */
  const CategoryLabels: map<string, string> :=
    map["cloud" := "Cloud Computing", "devops" := "DevOps", "linux" := "Linux"]

  /**
   * The names every plain JavaScript object inherits from `Object.prototype`;
   * looking one of them up on an object literal yields a truthy value.
   */
  const ObjectPrototypeMembers: set<string> := {
    "constructor", "hasOwnProperty", "isPrototypeOf", "propertyIsEnumerable",
    "toLocaleString", "toString", "valueOf", "__proto__",
    "__defineGetter__", "__defineSetter__", "__lookupGetter__", "__lookupSetter__" }

  /**
   * The check `!category || !categoryLabels[category]` as written: the
   * lookup on the object literal also finds inherited members.
   */
  predicate CategoryFoundAsWritten(category: Option<string>)
  {
    category.Some? && category.value != "" &&
    (category.value in CategoryLabels || category.value in ObjectPrototypeMembers)
  }

  /** As written, the route `/category/constructor` is not reported as unknown. */
  lemma InheritedNameIsFoundAsWritten()
    ensures CategoryFoundAsWritten(Some("constructor"))
    ensures "constructor" !in CategoryLabels
  {
  }

  /** The intended check: only the three known categories are found. */
  function IsKnownCategory(category: Option<string>): (found: bool)
    ensures found <==> category.Some? && category.value in {"cloud", "devops", "linux"}
    ensures found ==> CategoryFoundAsWritten(category)
  {
    category.Some? && category.value in CategoryLabels
  }

  /** What the page renders for its route parameter. */
  datatype PageView = CategoryNotFound | CategoryListing(heading: string)

  /**
   * The page with the corrected check: "Category not found" for an unknown
   * category, otherwise the category's own heading. It agrees with the check
   * as written on every name that is not an inherited object member.
   */
  function View(category: Option<string>): (v: PageView)
    ensures v == CategoryNotFound <==> !IsKnownCategory(category)
    ensures v.CategoryListing? ==> category.Some? && category.value in CategoryLabels &&
                                   v.heading == CategoryLabels[category.value]
    ensures category.Some? && category.value !in ObjectPrototypeMembers ==>
              (v == CategoryNotFound <==> !CategoryFoundAsWritten(category))
  {
    if IsKnownCategory(category) then CategoryListing(CategoryLabels[category.value]) else CategoryNotFound
  }

  /** The category page's upload state, updated in place by its setters. */
  class CategoryView {
    const category: Option<string>
    var showUpload: bool
    var uploading: bool
    var uploadForm: UploadForm

    function State(): PageState
      reads this
    {
      PageState(showUpload, uploading, uploadForm)
    }

    constructor (category: Option<string>)
      ensures this.category == category
      ensures State() == PageState(false, false, EmptyForm)
    {
      this.category := category;
      showUpload, uploading, uploadForm := false, false, EmptyForm;
    }

    /** The "Upload Material" button: shows or hides the form, or sends a visitor to sign in. */
    method ToggleUploadForm(user: Option<User>) returns (redirect: bool)
      modifies this
      ensures redirect <==> user.None?
      ensures State() == if user.None? then old(State()) else old(State()).(showUpload := !old(showUpload))
    {
      redirect := user.None?;
      if !redirect {
        showUpload := !showUpload;
      }
    }

    /** The "Cancel" button. */
    method CancelUpload()
      modifies this
      ensures State() == old(State()).(showUpload := false)
    {
      showUpload := false;
    }

    method SetTitle(title: string)
      modifies this
      ensures State() == old(State()).(form := old(uploadForm).(title := title))
    {
      uploadForm := uploadForm.(title := title);
    }

    method SetDescription(description: string)
      modifies this
      ensures State() == old(State()).(form := old(uploadForm).(description := description))
    {
      uploadForm := uploadForm.(description := description);
    }

    /** The file input: its first file, or none. */
    method SetFile(file: Option<FileInfo>)
      modifies this
      ensures State() == old(State()).(form := old(uploadForm).(file := file))
    {
      uploadForm := uploadForm.(file := file);
    }

    /**
     * `handleUpload`, with the clock reading, the public-URL rule and the two
     * backend answers passed in.
     */
    method HandleUpload(user: Option<User>, now: nat, publicUrl: string -> string,
                        stored: BackendResult, inserted: BackendResult)
      returns (outcome: UploadOutcome, calls: seq<BackendCall>)
      modifies this
      ensures UploadRun(outcome, calls, State()) ==
              Upload(old(State()), user, category, now, publicUrl, stored, inserted)
    {
      calls := [];
      if user.None? {
        outcome := RedirectToAuth;
        return;
      }
      if uploadForm.file.None? || uploadForm.title == "" {
        outcome := MissingFields;
        return;
      }
      var u, file := user.value, uploadForm.file.value;
      uploading := true;
      var path := StoragePath(u.id, now, file.name);
      calls := calls + [StorageUpload(path, file)];
      if stored.Failed? {
        outcome := UploadError;
      } else {
        var row := NewMaterial(uploadForm.title, uploadForm.description, category, publicUrl(path),
                               file.name, file.size, u.id, UploaderName(u.email));
        calls := calls + [InsertMaterial(row)];
        if inserted.Failed? {
          outcome := UploadError;
        } else {
          outcome := Uploaded;
          showUpload := false;
          uploadForm := EmptyForm;
        }
      }
      uploading := false;
    }
  }
}
