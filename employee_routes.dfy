/** The employee router: the upload filter and size limit, and the create,
    login, list and profile-image handlers, each run against the store. */
module EmployeeRoutes {
  import opened Wrappers
  import opened Strings
  import opened Bcrypt
  import opened EmployeeModel

  /** The upload limit `fileSize`: 5 MiB. */
  const MaxFileSize: nat := 5 * 1024 * 1024

  /** A file the multipart parser received for the `profileImage` field. */
  datatype UploadedFile = UploadedFile(mimetype: string, buffer: seq<bv8>)

  datatype UploadError = OnlyImagesAllowed | FileTooLarge

  /** `favTools` as the request body carries it: absent, one string, or an
      array (a repeated form field). */
  datatype FavToolsField = ToolsAbsent | ToolsString(text: string) | ToolsArray(items: seq<string>)

  datatype CreateRequest = CreateRequest(
    name: Option<string>,
    designation: Option<string>,
    empId: Option<string>,
    favTools: FavToolsField,
    password: Option<string>,
    file: Option<UploadedFile>)

  datatype CreateError =
    | UploadRejected(reason: UploadError)
    | FavToolsTypeError
    | SaveFailed(cause: SaveError)

  datatype CreateResponse = Created(employee: Employee) | CreateFailed(error: CreateError)

  datatype LoginRequest = LoginRequest(empId: string, password: Option<string>)

  /** The fields a successful login returns. */
  datatype Profile = Profile(name: string, empId: string, designation: string, favTools: seq<string>)

  datatype LoginResponse =
    | LoggedIn(profile: Profile)
    | EmployeeNotFound
    | InvalidPassword
    | LoginFailed

  /** A record as `find().select("-password")` returns it. */
  datatype PublicEmployee = PublicEmployee(
    name: string,
    designation: string,
    empId: string,
    favTools: seq<string>,
    profileImage: Option<Image>)

  datatype ImageResponse =
    | ImageNotFound
    | ImageSent(contentType: string, contentLength: nat, body: seq<bv8>)

  /** The multer `fileFilter`. */
  predicate IsImage(f: UploadedFile)
  {
    StartsWith(f.mimetype, "image/")
  }

  /** The multer stage before the create handler: the filter sees the file
      first, then the size limit applies while it is read. */
  function CheckUpload(file: Option<UploadedFile>): (r: Option<UploadError>)
    ensures r.None? <==> file.None? || (IsImage(file.value) && |file.value.buffer| <= MaxFileSize)
    ensures file.Some? && !IsImage(file.value) ==> r == Some(OnlyImagesAllowed)
    ensures file.Some? && IsImage(file.value) && |file.value.buffer| > MaxFileSize ==> r == Some(FileTooLarge)
    ensures r == Some(FileTooLarge) ==> |file.value.buffer| > MaxFileSize
  {
    match file
    case None => None
    case Some(f) =>
      if !IsImage(f) then Some(OnlyImagesAllowed)
      else if |f.buffer| > MaxFileSize then Some(FileTooLarge)
      else None
  }

  /** `Array.isArray(favTools) ? favTools : favTools.split(",")`; an absent
      field makes `split` throw, shown as `None`. */
  function NormalizeFavTools(f: FavToolsField): (r: Option<seq<string>>)
    ensures r.None? <==> f.ToolsAbsent?
    ensures f.ToolsArray? ==> r == Some(f.items)
    ensures f.ToolsString? ==> |r.value| == Count(f.text, ',') + 1
    ensures f.ToolsString? ==> (forall i :: 0 <= i < |r.value| ==> ',' !in r.value[i])
    ensures f.ToolsString? ==> Join(r.value, ",") == f.text
  {
    match f
    case ToolsAbsent => None
    case ToolsArray(xs) => Some(xs)
    case ToolsString(s) => JoinSplit(s, ','); Some(Split(s, ','))
  }

  /** `profileImage` of the new document. */
  function ProfileImage(file: Option<UploadedFile>): (r: Option<Image>)
    ensures r.None? <==> file.None?
    ensures file.Some? ==> r.value.data == file.value.buffer && r.value.contentType == file.value.mimetype
  {
    if file.Some? then Some(Image(file.value.buffer, file.value.mimetype)) else None
  }

  /** The document the create handler saves. */
  function DraftOf(req: CreateRequest, tools: seq<string>): Draft
  {
    NewDraft(req.name, req.designation, req.empId, Some(tools), req.password, ProfileImage(req.file))
  }

  function CreateStatus(r: CreateResponse): (code: nat)
    ensures code == 201 <==> r.Created?
    ensures code == 201 || code == 500
  {
    if r.Created? then 201 else 500
  }

  function LoginStatus(r: LoginResponse): (code: nat)
    ensures code == 200 <==> r.LoggedIn?
    ensures code == 404 <==> r == EmployeeNotFound
    ensures code == 400 <==> r == InvalidPassword
    ensures code == 500 <==> r == LoginFailed
  {
    match r
    case LoggedIn(_) => 200
    case EmployeeNotFound => 404
    case InvalidPassword => 400
    case LoginFailed => 500
  }

  function ImageStatus(r: ImageResponse): (code: nat)
    ensures code == 200 <==> r.ImageSent?
    ensures code == 404 <==> r == ImageNotFound
  {
    if r.ImageSent? then 200 else 404
  }

  function ProfileOf(e: Employee): Profile
  {
    Profile(e.name, e.empId, e.designation, e.favTools)
  }

  function WithoutPassword(e: Employee): PublicEmployee
  {
    PublicEmployee(e.name, e.designation, e.empId, e.favTools, e.profileImage)
  }

  /** `POST /`. A rejected upload never reaches the handler (the catch-all
      error middleware answers 500); a missing `favTools` throws inside the
      `try`; any failure of the save ends in 500 too, and in every failure
      the collection is as it was. */
  method CreateEmployee(store: EmployeeStore, req: CreateRequest, nonce: seq<bv8>)
    returns (res: CreateResponse)
    requires store.Valid()
    modifies store
    ensures store.Valid()
    ensures CheckUpload(req.file).Some? ==> res == CreateFailed(UploadRejected(CheckUpload(req.file).value))
    ensures CheckUpload(req.file).None? && req.favTools.ToolsAbsent? ==> res == CreateFailed(FavToolsTypeError)
    ensures CheckUpload(req.file).None? && !req.favTools.ToolsAbsent? ==>
              var d := DraftOf(req, NormalizeFavTools(req.favTools).value);
              && (!Complete(d) ==> res == CreateFailed(SaveFailed(ValidationError(MissingPaths(d)))))
              && (Complete(d) && d.empId.value in old(store.records) ==>
                    res == CreateFailed(SaveFailed(DuplicateKey(d.empId.value))))
              && (Complete(d) && d.empId.value !in old(store.records) ==>
                    && res == Created(Saved(d, GenSalt(SaltRounds, nonce)))
                    && store.records == old(store.records)[d.empId.value := res.employee]
                    && store.order == old(store.order) + [d.empId.value])
    ensures res.CreateFailed? ==> store.records == old(store.records) && store.order == old(store.order)
  {
    var rejected := CheckUpload(req.file);
    if rejected.Some? {
      return CreateFailed(UploadRejected(rejected.value));
    }
    var tools := NormalizeFavTools(req.favTools);
    if tools.None? {
      return CreateFailed(FavToolsTypeError);
    }
    var saved := store.Insert(DraftOf(req, tools.value), nonce);
    match saved
    case Success(e) => res := Created(e);
    case Failure(err) => res := CreateFailed(SaveFailed(err));
  }

  /** `POST /login`. */
  method Login(store: EmployeeStore, req: LoginRequest) returns (res: LoginResponse)
    requires store.Valid()
    ensures req.empId !in store.records <==> res == EmployeeNotFound
    ensures req.empId in store.records ==>
              var e := store.records[req.empId];
              && (req.password.None? ==> res == LoginFailed)
              && (req.password.Some? && !Compare(req.password.value, e.password) ==> res == InvalidPassword)
              && (req.password.Some? && Compare(req.password.value, e.password) ==>
                    res == LoggedIn(Profile(e.name, req.empId, e.designation, e.favTools)))
  {
    var found := store.Find(req.empId);
    if found.None? {
      return EmployeeNotFound;
    }
    var e := found.value;
    if req.password.None? {
      return LoginFailed;
    }
    if !Compare(req.password.value, e.password) {
      return InvalidPassword;
    }
    res := LoggedIn(ProfileOf(e));
  }

  /** `GET /`: every stored record, in collection order, without its password. */
  method ListEmployees(store: EmployeeStore) returns (r: seq<PublicEmployee>)
    requires store.Valid()
    ensures |r| == |store.order| == |store.records|
    ensures forall i :: 0 <= i < |r| ==> r[i] == WithoutPassword(store.records[store.order[i]])
    ensures forall id :: id in store.records ==> exists i :: 0 <= i < |r| && r[i].empId == id
  {
    var ids, recs := store.order, store.records;
    DistinctKeysCount(ids, recs);
    r := seq(|ids|, i requires 0 <= i < |ids| && ids[i] in recs => WithoutPassword(recs[ids[i]]));
    forall id | id in recs ensures exists i :: 0 <= i < |r| && r[i].empId == id {
      var i :| 0 <= i < |ids| && ids[i] == id;
      assert r[i].empId == id;
    }
  }

  /** A duplicate-free key order that lists exactly the keys of a map is as
      long as the map. */
  lemma {:induction false} DistinctKeysCount(ids: seq<string>, recs: map<string, Employee>)
    requires forall id :: id in recs <==> id in ids
    requires forall i, j :: 0 <= i < j < |ids| ==> ids[i] != ids[j]
    ensures |recs| == |ids|
  {
    if ids == [] {
      assert recs.Keys == {};
    } else {
      var last := ids[|ids| - 1];
      var rest := ids[..|ids| - 1];
      var smaller := recs - {last};
      forall id ensures id in smaller <==> id in rest {
        if id in rest {
          var k :| 0 <= k < |rest| && rest[k] == id;
          assert ids[k] == id;
        }
        if id in ids && id != last {
          var k :| 0 <= k < |ids| && ids[k] == id;
          assert k < |ids| - 1;
          assert rest[k] == id;
        }
      }
      DistinctKeysCount(rest, smaller);
      assert recs.Keys == smaller.Keys + {last};
    }
  }

  /** `GET /:empId/image`. */
  method FetchProfileImage(store: EmployeeStore, empId: string) returns (res: ImageResponse)
    requires store.Valid()
    ensures res == ImageNotFound <==> empId !in store.records || store.records[empId].profileImage.None?
    ensures res.ImageSent? ==>
              var img := store.records[empId].profileImage.value;
              && res.body == img.data
              && res.contentType == img.contentType
              && res.contentLength == |img.data|
  {
    var found := store.Find(empId);
    if found.None? || found.value.profileImage.None? {
      return ImageNotFound;
    }
    var img := found.value.profileImage.value;
    res := ImageSent(img.contentType, |img.data|, img.data);
  }

  /** Creating an employee and then logging in: the login succeeds exactly
      with the password given at creation, and returns what was submitted. */
  method CreateThenLogin(store: EmployeeStore, req: CreateRequest, nonce: seq<bv8>, attempt: string)
    returns (created: CreateResponse, login: LoginResponse)
    requires store.Valid()
    requires req.empId.Some?
    modifies store
    ensures store.Valid()
    ensures created.Created? ==>
              req.name.Some? && req.designation.Some? && req.password.Some? && !req.favTools.ToolsAbsent?
    ensures created.Created? ==> (LoginStatus(login) == 200 <==> attempt == req.password.value)
    ensures created.Created? && attempt == req.password.value ==>
              login == LoggedIn(Profile(req.name.value, req.empId.value, req.designation.value,
                                        NormalizeFavTools(req.favTools).value))
    ensures created.Created? && attempt != req.password.value ==> LoginStatus(login) == 400
  {
    created := CreateEmployee(store, req, nonce);
    login := Login(store, LoginRequest(req.empId.value, Some(attempt)));
    if created.Created? {
      var d := DraftOf(req, NormalizeFavTools(req.favTools).value);
      SavedPasswordMatches(d, nonce, attempt);
    }
  }
}
