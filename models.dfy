/** The four tables of the backend (users, ads, ad_views, applications) as values, with
    the column defaults the ORM applies when a row is created. Float columns hold whole
    numbers of coins and are modelled as `int`; timestamps are not modelled, except the
    day on which an ad was viewed, which is an abstract day number. */
module Models {
  import opened Common

  /** The price of one application, in coins. */
  const ApplicationCost: int := 50

  const StatusPending: string := "pending"
  const StatusApproved: string := "approved"
  const StatusRejected: string := "rejected"

  datatype User = User(
    id: int,
    email: string,          // unique column
    username: string,       // unique column
    hashedPassword: string,
    balance: int,
    isActive: bool)

  datatype Ad = Ad(
    id: int,
    title: string,
    description: string,
    rewardAmount: int,
    imageUrl: Option<string>,
    isActive: bool)

  datatype AdView = AdView(
    id: int,
    userId: int,
    adId: int,
    viewedOn: int,          // the day of `viewed_at`
    rewardEarned: int)

  datatype Application = Application(
    id: int,
    userId: int,
    title: string,
    description: string,
    status: string,         // pending, approved or rejected by convention; the column is free text
    cost: int,
    photoUrl: Option<string>,
    videoUrl: Option<string>)

  /** The statuses the applications table documents. */
  predicate DocumentedStatus(s: string) {
    s == StatusPending || s == StatusApproved || s == StatusRejected
  }

  /** A user row as the ORM creates it when only the required columns are given. */
  function NewUser(id: int, email: string, username: string, hashedPassword: string): (u: User)
    ensures u.balance == 0 && u.isActive
    ensures u.id == id && u.email == email && u.username == username && u.hashedPassword == hashedPassword
  {
    User(id, email, username, hashedPassword, 0, true)
  }

  /** An ad row: active unless stated otherwise. */
  function NewAd(id: int, title: string, description: string, reward: int, imageUrl: Option<string>): (a: Ad)
    ensures a.isActive
    ensures a.id == id && a.title == title && a.description == description
    ensures a.rewardAmount == reward && a.imageUrl == imageUrl
  {
    Ad(id, title, description, reward, imageUrl, true)
  }

  /** An application row: pending, at the default cost. */
  function NewApplication(id: int, userId: int, title: string, description: string,
                          photoUrl: Option<string>, videoUrl: Option<string>): (a: Application)
    ensures a.status == StatusPending && DocumentedStatus(a.status)
    ensures a.cost == ApplicationCost
    ensures a.id == id && a.userId == userId && a.title == title && a.description == description
    ensures a.photoUrl == photoUrl && a.videoUrl == videoUrl
  {
    Application(id, userId, title, description, StatusPending, ApplicationCost, photoUrl, videoUrl)
  }

  /** The unique constraints of the users table, plus the primary key. */
  predicate UniqueAccounts(users: seq<User>) {
    forall i, j :: 0 <= i < j < |users| ==>
      users[i].id != users[j].id && users[i].email != users[j].email && users[i].username != users[j].username
  }

  /** Appending a user whose id, email and username are all new keeps the table unique. */
  lemma UniqueAccountsAppend(users: seq<User>, u: User)
    requires UniqueAccounts(users)
    requires forall i :: 0 <= i < |users| ==> users[i].id != u.id
    requires forall i :: 0 <= i < |users| ==> users[i].email != u.email
    requires forall i :: 0 <= i < |users| ==> users[i].username != u.username
    ensures UniqueAccounts(users + [u])
  {
    var t := users + [u];
    forall i, j | 0 <= i < j < |t|
      ensures t[i].id != t[j].id && t[i].email != t[j].email && t[i].username != t[j].username
    {
      if j == |users| {
        assert t[j] == u && t[i] == users[i];
      } else {
        assert t[i] == users[i] && t[j] == users[j];
      }
    }
  }
}
