/** The backend's endpoints over an in-memory copy of its four tables. The database is
    the `Store` object; each endpoint that writes is a method that changes it and returns
    either the row it produced or the HTTPException it raises. The authenticated caller,
    which the token dependency resolves, is given as its position in the users table. */
module Backend {
  import opened Common
  import opened Models

  const UsernameTaken: Error := HttpError(400, "Username already registered")
  const EmailTaken: Error := HttpError(400, "Email already registered")
  const AdNotFound: Error := HttpError(404, "Ad not found")
  const AdAlreadyViewed: Error := HttpError(400, "Ad already viewed today")
  const UnsupportedFileType: Error := HttpError(400, "Неподдерживаемый тип файла")
  const ApplicationNotFound: Error := HttpError(404, "Application not found")

  /** The test `create_application` applies: it refuses exactly when `balance < 50`. */
  predicate AcceptsApplication(balance: int) {
    !(balance < ApplicationCost)
  }

  /** The refusal of `create_application`, which quotes the cost and the balance as floats. */
  function InsufficientFunds(balance: int): (e: Error)
    ensures e.HttpError? && e.status == 400
  {
    HttpError(400, "Недостаточно средств. Нужно " + WholeFloatToString(ApplicationCost)
                   + " монет, у вас " + WholeFloatToString(balance))
  }

  // ---------------------------------------------------------------------------
  // The ledger: what a user has earned from ad views and spent on applications.

  /** Sum of the rewards recorded in the views of user `uid`. */
  function Earned(views: seq<AdView>, uid: int): int
  {
    if views == [] then 0
    else
      var last := views[|views| - 1];
      Earned(views[..|views| - 1], uid) + (if last.userId == uid then last.rewardEarned else 0)
  }

  /** Sum of the costs of the applications of user `uid`. */
  function Spent(apps: seq<Application>, uid: int): int
  {
    if apps == [] then 0
    else
      var last := apps[|apps| - 1];
      Spent(apps[..|apps| - 1], uid) + (if last.userId == uid then last.cost else 0)
  }

  /** A user none of whose views are recorded has earned nothing. */
  lemma {:induction false} EarnedByNobody(views: seq<AdView>, uid: int)
    requires forall i :: 0 <= i < |views| ==> views[i].userId != uid
    ensures Earned(views, uid) == 0
  {
    if views != [] {
      EarnedByNobody(views[..|views| - 1], uid);
    }
  }

  /** A user who owns no application has spent nothing. */
  lemma {:induction false} SpentByNobody(apps: seq<Application>, uid: int)
    requires forall i :: 0 <= i < |apps| ==> apps[i].userId != uid
    ensures Spent(apps, uid) == 0
  {
    if apps != [] {
      SpentByNobody(apps[..|apps| - 1], uid);
    }
  }

  /** Rewriting one application without changing its owner or cost changes nobody's spending. */
  lemma {:induction false} SpentIgnoresStatus(apps: seq<Application>, k: nat, a: Application, uid: int)
    requires k < |apps| && a.userId == apps[k].userId && a.cost == apps[k].cost
    ensures Spent(apps[k := a], uid) == Spent(apps, uid)
  {
    var n := |apps|;
    var t := apps[k := a];
    if k < n - 1 {
      assert t[..n - 1] == apps[..n - 1][k := a];
      SpentIgnoresStatus(apps[..n - 1], k, a, uid);
    } else {
      assert t[..n - 1] == apps[..n - 1];
    }
  }

  /** The ledger of a history is the sum of the ledgers of its parts. */
  lemma {:induction false} EarnedConcat(a: seq<AdView>, b: seq<AdView>, uid: int)
    ensures Earned(a + b, uid) == Earned(a, uid) + Earned(b, uid)
  {
    if b != [] {
      assert (a + b)[..|a + b| - 1] == a + b[..|b| - 1];
      EarnedConcat(a, b[..|b| - 1], uid);
    } else {
      assert a + b == a;
    }
  }

  /** When every application costs the same, spending is that cost times the number owned. */
  lemma {:induction false} SpentAtFixedCost(apps: seq<Application>, uid: int)
    requires forall i :: 0 <= i < |apps| ==> apps[i].cost == ApplicationCost
    ensures Spent(apps, uid) == ApplicationCost * |OwnedBy(apps, uid)|
  {
    if apps != [] {
      SpentAtFixedCost(apps[..|apps| - 1], uid);
    }
  }

  // ---------------------------------------------------------------------------
  // The queries the endpoints issue.

  /** `Ad.is_active == True`, in table order. */
  function ActiveAds(ads: seq<Ad>): (r: seq<Ad>)
    ensures forall a :: a in r <==> a in ads && a.isActive
    ensures |r| <= |ads|
  {
    if ads == [] then []
    else ActiveAds(ads[..|ads| - 1]) + (if ads[|ads| - 1].isActive then [ads[|ads| - 1]] else [])
  }

  /** `Application.user_id == uid`, in table order. */
  function OwnedBy(apps: seq<Application>, uid: int): (r: seq<Application>)
    ensures forall a :: a in r <==> a in apps && a.userId == uid
    ensures |r| <= |apps|
  {
    if apps == [] then []
    else OwnedBy(apps[..|apps| - 1], uid) + (if apps[|apps| - 1].userId == uid then [apps[|apps| - 1]] else [])
  }

  /** `Ad.id == id, Ad.is_active == True` and `.first()`. */
  function FindActiveAd(ads: seq<Ad>, id: int): (r: Option<Ad>)
    ensures r.Some? ==> r.value in ads && r.value.id == id && r.value.isActive
    ensures r.None? <==> forall i :: 0 <= i < |ads| ==> !(ads[i].id == id && ads[i].isActive)
  {
    if ads == [] then None
    else if ads[0].id == id && ads[0].isActive then Some(ads[0])
    else FindActiveAd(ads[1..], id)
  }

  /** `Application.id == id` and `.first()`, as a position in the table. */
  function FindApplication(apps: seq<Application>, id: int): (r: Option<nat>)
    ensures r.Some? ==> r.value < |apps| && apps[r.value].id == id
    ensures r.Some? ==> forall i :: 0 <= i < r.value ==> apps[i].id != id
    ensures r.None? <==> forall i :: 0 <= i < |apps| ==> apps[i].id != id
  {
    if apps == [] then None
    else if apps[0].id == id then Some(0)
    else match FindApplication(apps[1..], id)
      case None => None
      case Some(k) => Some(k + 1)
  }

  /** The view query of `view_ad`: a view of this ad by this user on or after `today`. */
  predicate ViewedSince(views: seq<AdView>, uid: int, adId: int, today: int) {
    exists i :: 0 <= i < |views| && views[i].userId == uid && views[i].adId == adId && views[i].viewedOn >= today
  }

  predicate UsernameInUse(users: seq<User>, username: string) {
    exists i :: 0 <= i < |users| && users[i].username == username
  }

  predicate EmailInUse(users: seq<User>, email: string) {
    exists i :: 0 <= i < |users| && users[i].email == email
  }

  predicate DistinctAdIds(ads: seq<Ad>) {
    forall i, j :: 0 <= i < j < |ads| ==> ads[i].id != ads[j].id
  }

  /** The largest ad id in the table, or 0: the next autoincrement key is one more. */
  function MaxAdId(ads: seq<Ad>): (m: int)
    ensures m >= 0
    ensures forall i :: 0 <= i < |ads| ==> ads[i].id <= m
  {
    if ads == [] then 0
    else
      var rest := MaxAdId(ads[..|ads| - 1]);
      if ads[|ads| - 1].id > rest then ads[|ads| - 1].id else rest
  }

  // ---------------------------------------------------------------------------
  // GET /applications/cost

  datatype CostQuote = CostQuote(cost: int, message: string)

  function GetApplicationCost(): (q: CostQuote)
    ensures q.cost == ApplicationCost
  {
    CostQuote(ApplicationCost, "Стоимость отправки заявки: 50 монет")
  }

  // ---------------------------------------------------------------------------
  // POST /upload: classification, extension and URL. The file write is not modelled.

  const ImageTypes: seq<string> := ["image/jpeg", "image/png", "image/gif", "image/webp"]
  const VideoTypes: seq<string> :=
    ["video/mp4", "video/avi", "video/mov", "video/wmv", "video/flv", "video/webm"]
  /** `allowed_types`, in the order its items are iterated. */
  const AllowedTypes: seq<(string, seq<string>)> := [("image", ImageTypes), ("video", VideoTypes)]

  datatype UploadedFile = UploadedFile(filename: string, url: string, fileType: string, size: nat)

  /** The text after the last '.' of a name that contains one. */
  function AfterLastDot(name: string): (ext: string)
    requires '.' in name
    ensures '.' !in ext
    ensures |ext| < |name| && name[|name| - |ext| - 1..] == "." + ext
  {
    var n := |name|;
    if name[n - 1] == '.' then ""
    else
      assert name[n - 1] in name[..n - 1] + [name[n - 1]] && name == name[..n - 1] + [name[n - 1]];
      var ext := AfterLastDot(name[..n - 1]) + [name[n - 1]];
      assert name[n - |ext| - 1..] == name[..n - 1][n - 1 - (|ext| - 1) - 1..] + [name[n - 1]];
      ext
  }

  /** `filename.split('.')[-1] if '.' in filename else ''`. */
  function Extension(filename: string): (ext: string)
    ensures '.' !in filename ==> ext == ""
    ensures '.' in filename ==>
      '.' !in ext && |ext| < |filename| && filename[|filename| - |ext| - 1..] == "." + ext
  {
    if '.' in filename then AfterLastDot(filename) else ""
  }

  /** `upload_file`, given the uuid it draws and the length of the content it reads. */
  method UploadFile(contentType: string, filename: string, uuid: string, size: nat)
    returns (r: Result<UploadedFile>)
    ensures contentType !in ImageTypes && contentType !in VideoTypes ==> r == Err(UnsupportedFileType)
    ensures contentType in ImageTypes || contentType in VideoTypes ==>
      && r.Ok?
      && r.value.fileType == (if contentType in ImageTypes then "image" else "video")
      && r.value.filename == uuid + "." + Extension(filename)
      && r.value.url == "/uploads/" + r.value.filename
      && r.value.size == size
  {
    assert AllowedTypes[0] == ("image", ImageTypes) && AllowedTypes[1] == ("video", VideoTypes);
    var fileType: Option<string> := None;
    var i := 0;
    while i < |AllowedTypes|
      invariant 0 <= i <= |AllowedTypes|
      invariant forall j :: 0 <= j < i ==> contentType !in AllowedTypes[j].1
      invariant fileType.None?
    {
      if contentType in AllowedTypes[i].1 {
        fileType := Some(AllowedTypes[i].0);
        break;
      }
      i := i + 1;
    }
    if fileType.None? {
      return Err(UnsupportedFileType);
    }
    var uniqueName := uuid + "." + Extension(filename);
    r := Ok(UploadedFile(uniqueName, "/uploads/" + uniqueName, fileType.value, size));
  }

  // ---------------------------------------------------------------------------
  // The database and the endpoints that use it.

  class Store {
    var users: seq<User>
    var ads: seq<Ad>
    var views: seq<AdView>
    var applications: seq<Application>
    var nextUserId: int
    var nextAdId: int
    var nextViewId: int
    var nextApplicationId: int

    /** Keys, the foreign keys the ledger needs, the fixed price of every application,
        and the ledger itself: every balance is what its owner earned from views minus
        what they spent on applications. */
    ghost predicate Valid()
      reads this
    {
      && UniqueAccounts(users)
      && (forall i :: 0 <= i < |users| ==> users[i].id < nextUserId)
      && (forall i :: 0 <= i < |views| ==> views[i].userId < nextUserId)
      && (forall i :: 0 <= i < |applications| ==> applications[i].userId < nextUserId)
      && DistinctAdIds(ads)
      && (forall i :: 0 <= i < |ads| ==> ads[i].id < nextAdId)
      && (forall i, j :: 0 <= i < j < |applications| ==> applications[i].id != applications[j].id)
      && (forall i :: 0 <= i < |applications| ==> applications[i].id < nextApplicationId)
      && (forall i :: 0 <= i < |applications| ==> applications[i].cost == ApplicationCost)
      && Ledger()
    }

    ghost predicate Ledger()
      reads this
    {
      forall i :: 0 <= i < |users| ==>
        users[i].balance == Earned(views, users[i].id) - Spent(applications, users[i].id)
    }

    /** No ad pays a negative reward and no balance is negative. */
    predicate Solvent()
      reads this
    {
      && (forall i :: 0 <= i < |ads| ==> ads[i].rewardAmount >= 0)
      && (forall i :: 0 <= i < |users| ==> users[i].balance >= 0)
    }

    /** A database whose ads table holds `existingAds` and whose other tables are empty. */
    constructor (existingAds: seq<Ad>)
      requires DistinctAdIds(existingAds)
      ensures Valid()
      ensures users == [] && views == [] && applications == [] && ads == existingAds
    {
      users, ads, views, applications := [], existingAds, [], [];
      nextUserId, nextViewId, nextApplicationId := 1, 1, 1;
      nextAdId := MaxAdId(existingAds) + 1;
    }

    /** `db.add(Ad(...))`: the insert the seeding script performs. */
    method InsertAd(title: string, description: string, reward: int, imageUrl: Option<string>)
      returns (ad: Ad)
      requires Valid()
      modifies this
      ensures Valid()
      ensures old(Solvent()) && reward >= 0 ==> Solvent()
      ensures ad == NewAd(old(nextAdId), title, description, reward, imageUrl)
      ensures ads == old(ads) + [ad] && nextAdId == old(nextAdId) + 1
      ensures unchanged(this`users, this`views, this`applications)
      ensures unchanged(this`nextUserId, this`nextViewId, this`nextApplicationId)
    {
      ad := NewAd(nextAdId, title, description, reward, imageUrl);
      ads := ads + [ad];
      nextAdId := nextAdId + 1;
    }

    /** POST /register. The username is checked before the email. */
    method RegisterUser(email: string, username: string, hashedPassword: string)
      returns (r: Result<User>)
      requires Valid()
      modifies this
      ensures Valid()
      ensures old(Solvent()) ==> Solvent()
      ensures UsernameInUse(old(users), username) ==> r == Err(UsernameTaken) && unchanged(this)
      ensures !UsernameInUse(old(users), username) && EmailInUse(old(users), email) ==>
        r == Err(EmailTaken) && unchanged(this)
      ensures !UsernameInUse(old(users), username) && !EmailInUse(old(users), email) ==>
        && r == Ok(NewUser(old(nextUserId), email, username, hashedPassword))
        && users == old(users) + [r.value]
        && nextUserId == old(nextUserId) + 1
        && unchanged(this`ads, this`views, this`applications)
        && unchanged(this`nextAdId, this`nextViewId, this`nextApplicationId)
    {
      if UsernameInUse(users, username) {
        return Err(UsernameTaken);
      }
      if EmailInUse(users, email) {
        return Err(EmailTaken);
      }
      var u := NewUser(nextUserId, email, username, hashedPassword);
      UniqueAccountsAppend(users, u);
      EarnedByNobody(views, u.id);
      SpentByNobody(applications, u.id);
      users := users + [u];
      nextUserId := nextUserId + 1;
      r := Ok(u);
    }

    /** GET /ads. */
    method GetAds() returns (r: seq<Ad>)
      ensures r == ActiveAds(ads)
    {
      r := [];
      var i := 0;
      while i < |ads|
        invariant 0 <= i <= |ads|
        invariant r == ActiveAds(ads[..i])
      {
        assert ads[..i + 1][..i] == ads[..i];
        if ads[i].isActive {
          r := r + [ads[i]];
        }
        i := i + 1;
      }
      assert ads[..i] == ads;
    }

    /** POST /ads/view, on day `today`, by the user at position `who`. */
    method ViewAd(who: nat, adId: int, today: int) returns (r: Result<AdView>)
      requires Valid() && who < |users|
      modifies this
      ensures Valid()
      ensures old(Solvent()) ==> Solvent()
      ensures FindActiveAd(old(ads), adId).None? ==> r == Err(AdNotFound) && unchanged(this)
      ensures FindActiveAd(old(ads), adId).Some? && ViewedSince(old(views), old(users)[who].id, adId, today) ==>
        r == Err(AdAlreadyViewed) && unchanged(this)
      ensures FindActiveAd(old(ads), adId).Some? && !ViewedSince(old(views), old(users)[who].id, adId, today) ==>
        var reward := FindActiveAd(old(ads), adId).value.rewardAmount;
        && r == Ok(AdView(old(nextViewId), old(users)[who].id, adId, today, reward))
        && views == old(views) + [r.value]
        && users == old(users)[who := old(users)[who].(balance := old(users)[who].balance + reward)]
        && nextViewId == old(nextViewId) + 1
        && unchanged(this`ads, this`applications)
        && unchanged(this`nextUserId, this`nextAdId, this`nextApplicationId)
    {
      var found := FindActiveAd(ads, adId);
      if found.None? {
        return Err(AdNotFound);
      }
      var ad := found.value;
      var uid := users[who].id;
      if ViewedSince(views, uid, adId, today) {
        return Err(AdAlreadyViewed);
      }
      var v := AdView(nextViewId, uid, adId, today, ad.rewardAmount);
      ghost var oldViews := views;
      views := views + [v];
      forall u {
        EarnedConcat(oldViews, [v], u);
      }
      users := users[who := users[who].(balance := users[who].balance + ad.rewardAmount)];
      nextViewId := nextViewId + 1;
      r := Ok(v);
    }

    /** POST /applications, by the user at position `who`. */
    method CreateApplication(who: nat, title: string, description: string,
                             photoUrl: Option<string>, videoUrl: Option<string>)
      returns (r: Result<Application>)
      requires Valid() && who < |users|
      modifies this
      ensures Valid()
      ensures old(Solvent()) ==> Solvent()
      ensures !AcceptsApplication(old(users)[who].balance) ==>
        r == Err(InsufficientFunds(old(users)[who].balance)) && unchanged(this)
      ensures AcceptsApplication(old(users)[who].balance) ==>
        && r == Ok(NewApplication(old(nextApplicationId), old(users)[who].id, title, description, photoUrl, videoUrl))
        && r.value.cost == ApplicationCost && r.value.status == StatusPending
        && applications == old(applications) + [r.value]
        && users == old(users)[who := old(users)[who].(balance := old(users)[who].balance - ApplicationCost)]
        && nextApplicationId == old(nextApplicationId) + 1
        && unchanged(this`ads, this`views)
        && unchanged(this`nextUserId, this`nextAdId, this`nextViewId)
    {
      if users[who].balance < ApplicationCost {
        return Err(InsufficientFunds(users[who].balance));
      }
      var a := NewApplication(nextApplicationId, users[who].id, title, description, photoUrl, videoUrl);
      users := users[who := users[who].(balance := users[who].balance - ApplicationCost)];
      ghost var oldApps := applications;
      applications := applications + [a];
      assert applications[..|applications| - 1] == oldApps;
      nextApplicationId := nextApplicationId + 1;
      r := Ok(a);
    }

    /** GET /applications, for the user at position `who`. */
    method GetUserApplications(who: nat) returns (r: seq<Application>)
      requires who < |users|
      ensures r == OwnedBy(applications, users[who].id)
    {
      var uid := users[who].id;
      r := [];
      var i := 0;
      while i < |applications|
        invariant 0 <= i <= |applications|
        invariant r == OwnedBy(applications[..i], uid)
      {
        assert applications[..i + 1][..i] == applications[..i];
        if applications[i].userId == uid {
          r := r + [applications[i]];
        }
        i := i + 1;
      }
      assert applications[..i] == applications;
    }

    /** GET /admin/applications: every application, in table order. */
    method GetAllApplications() returns (r: seq<Application>)
      ensures |r| == |applications|
      ensures forall i :: 0 <= i < |r| ==> r[i] == applications[i]
    {
      r := [];
      var i := 0;
      while i < |applications|
        invariant 0 <= i <= |applications|
        invariant r == applications[..i]
      {
        r := r + [applications[i]];
        i := i + 1;
      }
    }

    /** PUT /admin/applications/{id}: `status_update.get("status", application.status)`,
        from whatever status the application has. */
    method UpdateApplicationStatus(applicationId: int, body: map<string, string>)
      returns (r: Result<Application>)
      requires Valid()
      modifies this
      ensures Valid()
      ensures old(Solvent()) ==> Solvent()
      ensures FindApplication(old(applications), applicationId).None? ==>
        r == Err(ApplicationNotFound) && unchanged(this)
      ensures FindApplication(old(applications), applicationId).Some? ==>
        var k := FindApplication(old(applications), applicationId).value;
        var a := old(applications)[k];
        && r == Ok(a.(status := if "status" in body then body["status"] else a.status))
        && applications == old(applications)[k := r.value]
        && unchanged(this`users, this`ads, this`views)
        && unchanged(this`nextUserId, this`nextAdId, this`nextViewId, this`nextApplicationId)
    {
      var found := FindApplication(applications, applicationId);
      if found.None? {
        return Err(ApplicationNotFound);
      }
      var k := found.value;
      var a := applications[k];
      var updated := a.(status := if "status" in body then body["status"] else a.status);
      forall uid {
        SpentIgnoresStatus(applications, k, updated, uid);
      }
      applications := applications[k := updated];
      r := Ok(updated);
    }
  }

  /** Since every application is charged the fixed 50, a balance is what its owner earned
      from views minus 50 per application they own. */
  lemma BalanceCountsApplications(db: Store, i: nat)
    requires db.Valid() && i < |db.users|
    ensures db.users[i].balance
            == Earned(db.views, db.users[i].id) - ApplicationCost * |OwnedBy(db.applications, db.users[i].id)|
  {
    SpentAtFixedCost(db.applications, db.users[i].id);
  }
}
