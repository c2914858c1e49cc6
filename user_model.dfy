/**
 * The user record: its fields, the defaults a new record gets, the fields a
 * new record must have, and the unique indexes (PAN and Aadhaar numbers are
 * sparse: only records that have one take part).
 */
module UserModel {
  import opened Wrappers
  import opened ListingRecord

  const DefaultAvatar := "https://cdn.pixabay.com/photo/2015/10/05/22/37/blank-profile-picture-973460_1280.png"

  /** A stored user. `None` is a field the document does not have. */
  datatype User = User(
    id: UserId,
    username: string,
    email: string,
    password: string,
    mobile: string,
    avatar: string,
    panNumber: Option<string>,
    panCardUrl: Option<string>,
    panVerified: bool,
    panDocumentUrl: Option<string>,
    aadharNumber: Option<string>,
    aadharDocUrl: Option<string>,
    isAadharVerified: bool,
    favorites: seq<ListingId>)

  /** A user as the API returns it: every field except the password. */
  datatype PublicUser = PublicUser(
    id: UserId,
    username: string,
    email: string,
    mobile: string,
    avatar: string,
    panNumber: Option<string>,
    panCardUrl: Option<string>,
    panVerified: bool,
    panDocumentUrl: Option<string>,
    aadharNumber: Option<string>,
    aadharDocUrl: Option<string>,
    isAadharVerified: bool,
    favorites: seq<ListingId>)

  /** `const { password, ...rest } = user._doc`. */
  function WithoutPassword(u: User): (p: PublicUser)
    ensures p.id == u.id && p.username == u.username && p.email == u.email && p.mobile == u.mobile
    ensures p.avatar == u.avatar && p.favorites == u.favorites
    ensures p.panNumber == u.panNumber && p.panCardUrl == u.panCardUrl && p.panVerified == u.panVerified
    ensures p.panDocumentUrl == u.panDocumentUrl
    ensures p.aadharNumber == u.aadharNumber && p.aadharDocUrl == u.aadharDocUrl
    ensures p.isAadharVerified == u.isAadharVerified
  {
    PublicUser(u.id, u.username, u.email, u.mobile, u.avatar, u.panNumber, u.panCardUrl, u.panVerified,
               u.panDocumentUrl, u.aadharNumber, u.aadharDocUrl, u.isAadharVerified, u.favorites)
  }

  /** The fields supplied when an account is created; an absent avatar is `None`. */
  datatype NewAccount = NewAccount(username: string, email: string, password: string, mobile: string, avatar: Option<string>)

  /** The required paths a new account leaves empty, in schema order. */
  function MissingPaths(a: NewAccount): (missing: seq<string>)
    ensures "username" in missing <==> a.username == ""
    ensures "email" in missing <==> a.email == ""
    ensures "password" in missing <==> a.password == ""
    ensures "mobile" in missing <==> a.mobile == ""
    ensures |missing| <= 4
  {
    (if a.username == "" then ["username"] else [])
    + (if a.email == "" then ["email"] else [])
    + (if a.password == "" then ["password"] else [])
    + (if a.mobile == "" then ["mobile"] else [])
  }

  /**
   * Building a new document from the schema: the required string fields must be
   * non-empty, the avatar defaults to the placeholder, both verified flags are
   * false, the favorites list is empty and no document field is set.
   */
  function NewUser(id: UserId, a: NewAccount): (r: Result<User, seq<string>>)
    ensures r.Err? <==> a.username == "" || a.email == "" || a.password == "" || a.mobile == ""
    ensures r.Err? ==> r.error == MissingPaths(a) && r.error != []
    ensures r.Ok? ==> r.value.id == id && r.value.username == a.username && r.value.email == a.email
    ensures r.Ok? ==> r.value.password == a.password && r.value.password != "" && r.value.mobile == a.mobile
    ensures r.Ok? ==> r.value.avatar == (if a.avatar.Some? then a.avatar.value else DefaultAvatar)
    ensures r.Ok? ==> !r.value.panVerified && !r.value.isAadharVerified && r.value.favorites == []
    ensures r.Ok? ==> r.value.panNumber.None? && r.value.aadharNumber.None?
  {
    var missing := MissingPaths(a);
    if missing != [] then Err(missing)
    else
      Ok(User(id, a.username, a.email, a.password, a.mobile,
              if a.avatar.Some? then a.avatar.value else DefaultAvatar,
              None, None, false, None, None, None, false, []))
  }

  /** A sparse unique key: two users collide on it only when both have it. */
  predicate SparseClash(a: Option<string>, b: Option<string>) {
    a.Some? && b.Some? && a.value == b.value
  }

  /** Two user documents that no unique index lets coexist. */
  predicate Collide(a: User, b: User) {
    || a.username == b.username
    || a.email == b.email
    || a.mobile == b.mobile
    || SparseClash(a.panNumber, b.panNumber)
    || SparseClash(a.aadharNumber, b.aadharNumber)
  }

  /** The unique indexes over the whole collection. */
  predicate Unique(users: map<UserId, User>) {
    forall a, b :: a in users && b in users && a != b ==> !Collide(users[a], users[b])
  }

  /** `u` may be stored under `id` next to the other users without breaking an index. */
  predicate FitsIndexes(users: map<UserId, User>, id: UserId, u: User) {
    forall other :: other in users && other != id ==> !Collide(u, users[other])
  }

  /** No index tells two records apart by order: a collision goes both ways. */
  lemma CollideSymmetric(a: User, b: User)
    ensures Collide(a, b) <==> Collide(b, a)
  {
  }

  /** The collection satisfies the indexes exactly when every record fits beside the others. */
  lemma UniqueIffEveryRecordFits(users: map<UserId, User>)
    ensures Unique(users) <==> forall id :: id in users ==> FitsIndexes(users, id, users[id])
  {
  }

  /** Replacing or adding one user that fits the indexes keeps the collection unique. */
  lemma FitsKeepsUnique(users: map<UserId, User>, id: UserId, u: User)
    requires Unique(users) && FitsIndexes(users, id, u)
    ensures Unique(users[id := u])
  {
    var m := users[id := u];
    forall a, b | a in m && b in m && a != b ensures !Collide(m[a], m[b]) {
      if a == id {
        assert !Collide(u, users[b]);
      } else if b == id {
        assert !Collide(u, users[a]);
      }
    }
  }

  /** Users without a PAN or Aadhaar number never clash on those indexes. */
  lemma AbsentNumbersNeverClash(a: User, b: User)
    requires a.panNumber.None? && b.panNumber.None? && a.aadharNumber.None? && b.aadharNumber.None?
    ensures Collide(a, b) <==> a.username == b.username || a.email == b.email || a.mobile == b.mobile
  {
  }
}
