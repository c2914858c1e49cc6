/**
 * The user handlers of the API over an in-memory store: the favorites relation
 * (add, remove, list), profile update and deletion, the read handlers, and the
 * two identity-document submissions. Each handler gets the caller's id from the
 * session (`callerId`, `userId`) and the path parameters as arguments.
 */
module UserController {
  import opened Wrappers
  import opened Text
  import opened Seqs
  import opened ListingRecord
  import opened UserModel
  import opened Server

  /** The runtime's message when a handler reads a field of a user that is not there. */
  const NullFavoritesMessage := "Cannot read properties of null (reading 'favorites')"
  const NullDocMessage := "Cannot read properties of null (reading '_doc')"
  const NullPanNumberMessage := "Cannot read properties of null (reading 'panNumber')"
  /** The start of the database's message for a unique-index violation. */
  const DuplicateKeyMessage := "E11000 duplicate key error"

  // ---------------------------------------------------------------------------
  // The favorites list
  // ---------------------------------------------------------------------------

  /** The favorites after `$push`, guarded by the `includes` check that makes adding idempotent. */
  function PushFavorite(favorites: seq<ListingId>, listingId: ListingId): (r: seq<ListingId>)
    ensures listingId in favorites ==> r == favorites
    ensures listingId !in favorites ==> |r| == |favorites| + 1 && r[..|favorites|] == favorites && r[|favorites|] == listingId
    ensures listingId in r
  {
    if listingId in favorites then favorites else favorites + [listingId]
  }

  /** The favorites after `$pull`: every occurrence of the id is gone. */
  function PullFavorite(favorites: seq<ListingId>, listingId: ListingId): (r: seq<ListingId>)
    ensures listingId !in r
    ensures forall i :: 0 <= i < |favorites| && favorites[i] != listingId ==> favorites[i] in r
    ensures forall i :: 0 <= i < |r| ==> r[i] in favorites
  {
    Filter(favorites, (id: ListingId) => id != listingId)
  }

  /** Adding twice is adding once. */
  lemma PushIdempotent(favorites: seq<ListingId>, listingId: ListingId)
    ensures PushFavorite(PushFavorite(favorites, listingId), listingId) == PushFavorite(favorites, listingId)
  {
  }

  /** Adding keeps a duplicate-free list duplicate-free. */
  lemma PushKeepsNoDuplicates(favorites: seq<ListingId>, listingId: ListingId)
    requires NoDuplicates(favorites)
    ensures NoDuplicates(PushFavorite(favorites, listingId))
  {
    if listingId !in favorites {
      var r := favorites + [listingId];
      forall i, j | 0 <= i < j < |r| ensures r[i] != r[j] {
        if j == |favorites| {
          assert r[i] == favorites[i];
        }
      }
    }
  }

  /** Removing an id that is not there changes nothing, so removing twice is removing once. */
  lemma PullIdempotent(favorites: seq<ListingId>, listingId: ListingId)
    ensures listingId !in favorites ==> PullFavorite(favorites, listingId) == favorites
    ensures PullFavorite(PullFavorite(favorites, listingId), listingId) == PullFavorite(favorites, listingId)
  {
    var keep := (id: ListingId) => id != listingId;
    if listingId !in favorites {
      FilterKeepsAll(favorites, keep);
    }
    FilterIdempotent(favorites, keep);
  }

  /** Removing keeps the other ids in their order and a duplicate-free list duplicate-free. */
  lemma PullKeepsOrder(before: seq<ListingId>, after: seq<ListingId>, listingId: ListingId)
    requires listingId !in before && listingId !in after
    ensures PullFavorite(before + [listingId] + after, listingId) == before + after
  {
    var keep := (id: ListingId) => id != listingId;
    assert Filter([listingId], keep) == [] by {
      assert [listingId][..0] == [];
    }
    FilterConcat(before, [listingId], keep);
    FilterKeepsAll(before, keep);
    assert Filter(before + [listingId], keep) == before;
    FilterConcat(before + [listingId], after, keep);
    FilterKeepsAll(after, keep);
  }

  lemma PullKeepsNoDuplicates(favorites: seq<ListingId>, listingId: ListingId)
    requires NoDuplicates(favorites)
    ensures NoDuplicates(PullFavorite(favorites, listingId))
  {
    FilterNoDuplicates(favorites, (id: ListingId) => id != listingId);
  }

  /** Removing after adding leaves the list as removing alone would. */
  lemma PullUndoesPush(favorites: seq<ListingId>, listingId: ListingId)
    ensures PullFavorite(PushFavorite(favorites, listingId), listingId) == PullFavorite(favorites, listingId)
  {
    var keep := (id: ListingId) => id != listingId;
    if listingId !in favorites {
      FilterConcat(favorites, [listingId], keep);
      assert Filter([listingId], keep) == [];
    }
  }

  const AlreadyFavorite := "Listing is already in favorites"
  const AddedFavorite := "Listing added to favorites"
  const RemovedFavorite := "Listing removed from favorites"

  /** The body of a successful favorites change (`success: true`); `favorites` is absent when nothing was written. */
  datatype FavoritesReply = FavoritesReply(message: string, favorites: Option<seq<ListingId>>)

  // ---------------------------------------------------------------------------
  // Read-only handlers
  // ---------------------------------------------------------------------------

  /** `getUser`: any signed-in caller may read a user, without the password. */
  function GetUser(users: map<UserId, User>, pathId: UserId): (r: Result<PublicUser, RaisedError>)
    ensures pathId !in users <==> r.Err?
    ensures r.Err? ==> r.error == Raise(404, "User not found!")
    ensures r.Ok? ==> r.value == WithoutPassword(users[pathId])
  {
    if pathId !in users then Err(Raise(404, "User not found!")) else Ok(WithoutPassword(users[pathId]))
  }

  /** `getUserListings`: a caller sees exactly the listings they own, and only their own. */
  function GetUserListings(listings: map<ListingId, Listing>, callerId: UserId, pathId: UserId)
    : (r: Result<map<ListingId, Listing>, RaisedError>)
    ensures callerId != pathId <==> r.Err?
    ensures r.Err? ==> r.error == Raise(401, "You can only view your own listings!")
    ensures r.Ok? ==> forall id :: id in r.value <==> id in listings && listings[id].userRef == pathId
    ensures r.Ok? ==> forall id :: id in r.value ==> r.value[id] == listings[id]
  {
    if callerId == pathId then
      Ok(map id | id in listings && listings[id].userRef == pathId :: listings[id])
    else
      Err(Raise(401, "You can only view your own listings!"))
  }

  /**
   * `getUserFavorites`: the stored listings whose id is in the user's favorites
   * (`_id: { $in: favorites }`). Ids of listings that are no longer stored are
   * dropped without an error.
   */
  function GetUserFavorites(users: map<UserId, User>, listings: map<ListingId, Listing>, callerId: UserId, pathId: UserId)
    : (r: Result<map<ListingId, Listing>, RaisedError>)
    ensures callerId != pathId ==> r == Err(Raise(401, "You can only view your own favorites"))
    ensures callerId == pathId && pathId !in users ==> r == Err(Raise(404, "User not found"))
    ensures callerId == pathId && pathId in users <==> r.Ok?
    ensures r.Ok? ==> forall id :: id in r.value <==> id in listings && id in users[pathId].favorites
    ensures r.Ok? ==> forall id :: id in r.value ==> r.value[id] == listings[id]
  {
    if callerId != pathId then Err(Raise(401, "You can only view your own favorites"))
    else if pathId !in users then Err(Raise(404, "User not found"))
    else
      var favorites := users[pathId].favorites;
      Ok(map id | id in listings && id in favorites :: listings[id])
  }

  /** A favorite whose listing is gone is silently left out of the list. */
  lemma DanglingFavoriteDropped(users: map<UserId, User>, listings: map<ListingId, Listing>, userId: UserId, listingId: ListingId)
    requires userId in users && listingId in users[userId].favorites && listingId !in listings
    ensures GetUserFavorites(users, listings, userId, userId).Ok?
    ensures listingId !in GetUserFavorites(users, listings, userId, userId).value
  {
  }

  // ---------------------------------------------------------------------------
  // Updates
  // ---------------------------------------------------------------------------

  /** The fields of an update request; a field the request leaves out is `None`. */
  datatype UpdateBody = UpdateBody(username: Option<string>, email: Option<string>, password: Option<string>, avatar: Option<string>)

  /**
   * The `$set` of `updateUser`: only username, email, password and avatar can
   * change, each only when the request has it. A non-empty password is stored
   * hashed; an empty one is falsy, skips the hashing and is stored as it is.
   */
  function ApplyUpdate(u: User, body: UpdateBody, hash: string -> string): (r: User)
    ensures r.username == body.username.GetOr(u.username)
    ensures r.email == body.email.GetOr(u.email)
    ensures r.avatar == body.avatar.GetOr(u.avatar)
    ensures Truthy(body.password) ==> r.password == hash(body.password.value)
    ensures body.password == Some("") ==> r.password == ""
    ensures body.password.None? ==> r.password == u.password
    ensures r == u.(username := r.username, email := r.email, password := r.password, avatar := r.avatar)
  {
    var password := if Truthy(body.password) then Some(hash(body.password.value)) else body.password;
    u.(username := body.username.GetOr(u.username),
       email := body.email.GetOr(u.email),
       password := password.GetOr(u.password),
       avatar := body.avatar.GetOr(u.avatar))
  }

  /**
   * What the document handlers answer; neither kind of reply has a `success`
   * field. A 500 refusal also carries the caught exception's message as `error`.
   */
  datatype DocReply =
    | Submitted(message: string, panNumber: string, panCardUrl: string, aadharNumber: Option<string>, aadharDocUrl: Option<string>)
    | Refused(status: int, message: string, error: Option<string>)

  /** The check `verifyDocuments` makes before writing: both numbers and both files. */
  predicate DocumentsComplete(pancard: Option<string>, aadharcard: Option<string>, panDocument: Option<string>, aadharDocument: Option<string>) {
    Truthy(pancard) && Truthy(aadharcard) && panDocument.Some? && aadharDocument.Some?
  }

  /** A document submission leaves both documents pending verification. */
  function SubmitDocuments(u: User, pancard: string, panPath: string, aadharcard: string, aadharPath: string): (r: User)
    ensures r.panNumber == Some(pancard) && r.panCardUrl == Some(panPath) && !r.panVerified
    ensures r.aadharNumber == Some(aadharcard) && r.aadharDocUrl == Some(aadharPath) && !r.isAadharVerified
    ensures r == u.(panNumber := r.panNumber, panCardUrl := r.panCardUrl, panVerified := false,
                    aadharNumber := r.aadharNumber, aadharDocUrl := r.aadharDocUrl, isAadharVerified := false)
  {
    u.(panNumber := Some(pancard), panCardUrl := Some(panPath), panVerified := false,
       aadharNumber := Some(aadharcard), aadharDocUrl := Some(aadharPath), isAadharVerified := false)
  }

  /** The store's invariant: records are keyed by their ids, the unique indexes hold, favorites have no duplicates. */
  ghost predicate ValidStore(users: map<UserId, User>, listings: map<ListingId, Listing>) {
    && (forall id :: id in users ==> users[id].id == id)
    && (forall id :: id in listings ==> listings[id].id == id)
    && Unique(users)
    && (forall id :: id in users ==> NoDuplicates(users[id].favorites))
  }

  /** The user and listing collections, updated in place by the handlers. */
  class Store {
    var users: map<UserId, User>
    var listings: map<ListingId, Listing>

    ghost predicate Valid()
      reads this
    {
      ValidStore(users, listings)
    }

    constructor (listings: map<ListingId, Listing>)
      requires forall id :: id in listings ==> listings[id].id == id
      ensures Valid() && this.users == map[] && this.listings == listings
    {
      this.users := map[];
      this.listings := listings;
    }

    /** Saving a new account: the schema's checks, then the unique indexes. */
    method CreateUser(id: UserId, account: NewAccount) returns (r: Result<PublicUser, RaisedError>)
      requires Valid() && id !in users
      modifies this
      ensures Valid() && listings == old(listings)
      ensures NewUser(id, account).Err? ==> r.Err? && users == old(users)
      ensures NewUser(id, account).Ok? && !FitsIndexes(old(users), id, NewUser(id, account).value) ==>
                    r == Err(RaisedError(None, Some(DuplicateKeyMessage))) && users == old(users)
      ensures r.Ok? <==> NewUser(id, account).Ok? && FitsIndexes(old(users), id, NewUser(id, account).value)
      ensures r.Ok? ==> users == old(users)[id := NewUser(id, account).value]
                        && r.value == WithoutPassword(NewUser(id, account).value)
    {
      var made := NewUser(id, account);
      if made.Err? {
        return Err(RaisedError(None, Some("User validation failed")));
      }
      var u := made.value;
      if !FitsIndexes(users, id, u) {
        return Err(RaisedError(None, Some(DuplicateKeyMessage)));
      }
      FitsKeepsUnique(users, id, u);
      users := users[id := u];
      r := Ok(WithoutPassword(u));
    }

    /** `addToFavorites`: 404 for an unknown listing, success without a write when already there, else append. */
    method AddToFavorites(userId: UserId, listingId: ListingId) returns (r: Result<FavoritesReply, RaisedError>)
      requires Valid()
      modifies this
      ensures Valid() && listings == old(listings)
      ensures listingId !in listings ==> r == Err(Raise(404, "Listing not found")) && users == old(users)
      ensures listingId in listings && userId !in users ==>
                    r == Err(RaisedError(None, Some(NullFavoritesMessage))) && users == old(users)
      ensures listingId in listings && userId in old(users) && listingId in old(users)[userId].favorites ==>
                r == Ok(FavoritesReply(AlreadyFavorite, None)) && users == old(users)
      ensures listingId in listings && userId in old(users) && listingId !in old(users)[userId].favorites ==>
                var favorites := PushFavorite(old(users)[userId].favorites, listingId);
                && r == Ok(FavoritesReply(AddedFavorite, Some(favorites)))
                && users == old(users)[userId := old(users)[userId].(favorites := favorites)]
    {
      if listingId !in listings {
        return Err(Raise(404, "Listing not found"));
      }
      if userId !in users {
        return Err(RaisedError(None, Some(NullFavoritesMessage)));
      }
      var u := users[userId];
      if listingId in u.favorites {
        return Ok(FavoritesReply(AlreadyFavorite, None));
      }
      var updated := u.(favorites := u.favorites + [listingId]);
      PushKeepsNoDuplicates(u.favorites, listingId);
      assert FitsIndexes(users, userId, updated) by {
        forall other | other in users && other != userId ensures !Collide(updated, users[other]) {
          assert !Collide(u, users[other]);
        }
      }
      FitsKeepsUnique(users, userId, updated);
      users := users[userId := updated];
      r := Ok(FavoritesReply(AddedFavorite, Some(updated.favorites)));
    }

    /** `removeFromFavorites`: pulls every occurrence; succeeds whether or not the id was there. */
    method RemoveFromFavorites(userId: UserId, listingId: ListingId) returns (r: Result<FavoritesReply, RaisedError>)
      requires Valid()
      modifies this
      ensures Valid() && listings == old(listings)
      ensures userId !in old(users) ==> r == Err(RaisedError(None, Some(NullFavoritesMessage))) && users == old(users)
      ensures userId in old(users) ==>
                var favorites := PullFavorite(old(users)[userId].favorites, listingId);
                && r == Ok(FavoritesReply(RemovedFavorite, Some(favorites)))
                && users == old(users)[userId := old(users)[userId].(favorites := favorites)]
    {
      if userId !in users {
        return Err(RaisedError(None, Some(NullFavoritesMessage)));
      }
      var u := users[userId];
      var updated := u.(favorites := PullFavorite(u.favorites, listingId));
      PullKeepsNoDuplicates(u.favorites, listingId);
      assert FitsIndexes(users, userId, updated) by {
        forall other | other in users && other != userId ensures !Collide(updated, users[other]) {
          assert !Collide(u, users[other]);
        }
      }
      FitsKeepsUnique(users, userId, updated);
      users := users[userId := updated];
      r := Ok(FavoritesReply(RemovedFavorite, Some(updated.favorites)));
    }

    /** `updateUser`: only the account's owner; the reply never carries the password. */
    method UpdateUser(callerId: UserId, pathId: UserId, body: UpdateBody, hash: string -> string)
      returns (r: Result<PublicUser, RaisedError>)
      requires Valid()
      modifies this
      ensures Valid() && listings == old(listings)
      ensures callerId != pathId ==> r == Err(Raise(401, "You can only update your own account!")) && users == old(users)
      ensures callerId == pathId && pathId !in old(users) ==>
                    r == Err(RaisedError(None, Some(NullDocMessage))) && users == old(users)
      ensures callerId == pathId && pathId in old(users) ==>
                var updated := ApplyUpdate(old(users)[pathId], body, hash);
                if FitsIndexes(old(users), pathId, updated)
                then r == Ok(WithoutPassword(updated)) && users == old(users)[pathId := updated]
                else r == Err(RaisedError(None, Some(DuplicateKeyMessage))) && users == old(users)
    {
      if callerId != pathId {
        return Err(Raise(401, "You can only update your own account!"));
      }
      if pathId !in users {
        return Err(RaisedError(None, Some(NullDocMessage)));
      }
      var updated := ApplyUpdate(users[pathId], body, hash);
      if !FitsIndexes(users, pathId, updated) {
        return Err(RaisedError(None, Some(DuplicateKeyMessage)));
      }
      FitsKeepsUnique(users, pathId, updated);
      users := users[pathId := updated];
      r := Ok(WithoutPassword(updated));
    }

    /** `deleteUser`: only the account's owner; removes that record alone (listings and other favorites stay). */
    method DeleteUser(callerId: UserId, pathId: UserId) returns (r: Result<string, RaisedError>)
      requires Valid()
      modifies this
      ensures Valid() && listings == old(listings)
      ensures callerId != pathId ==> r == Err(Raise(401, "You can only delete your own account!")) && users == old(users)
      ensures callerId == pathId ==> r == Ok("User has been deleted!") && users == old(users) - {pathId}
    {
      if callerId != pathId {
        return Err(Raise(401, "You can only delete your own account!"));
      }
      users := users - {pathId};
      r := Ok("User has been deleted!");
    }

    /** `verifyPan`: the single-document submission. */
    method VerifyPan(userId: UserId, pancard: Option<string>, filePath: Option<string>) returns (r: DocReply)
      requires Valid()
      modifies this
      ensures Valid() && listings == old(listings)
      ensures !(Truthy(pancard) && Truthy(filePath)) ==> r == Refused(400, "PAN number and document required", None) && users == old(users)
      ensures Truthy(pancard) && Truthy(filePath) && userId !in old(users) ==>
                    r == Refused(500, "Error submitting PAN info", Some(NullPanNumberMessage)) && users == old(users)
      ensures Truthy(pancard) && Truthy(filePath) && userId in old(users) ==>
                var updated := old(users)[userId].(panNumber := pancard, panCardUrl := filePath, panVerified := false);
                if FitsIndexes(old(users), userId, updated)
                then r == Submitted("PAN verification info submitted", pancard.value, filePath.value, None, None)
                     && users == old(users)[userId := updated]
                else r == Refused(500, "Error submitting PAN info", Some(DuplicateKeyMessage)) && users == old(users)
    {
      if !Truthy(pancard) || !Truthy(filePath) {
        return Refused(400, "PAN number and document required", None);
      }
      if userId !in users {
        return Refused(500, "Error submitting PAN info", Some(NullPanNumberMessage));
      }
      var updated := users[userId].(panNumber := pancard, panCardUrl := filePath, panVerified := false);
      if !FitsIndexes(users, userId, updated) {
        return Refused(500, "Error submitting PAN info", Some(DuplicateKeyMessage));
      }
      FitsKeepsUnique(users, userId, updated);
      users := users[userId := updated];
      r := Submitted("PAN verification info submitted", pancard.value, filePath.value, None, None);
    }

    /** `verifyDocuments`: both numbers and both files, or 400 and nothing written. */
    method VerifyDocuments(userId: UserId, pancard: Option<string>, aadharcard: Option<string>,
                           panDocument: Option<string>, aadharDocument: Option<string>) returns (r: DocReply)
      requires Valid()
      modifies this
      ensures Valid() && listings == old(listings)
      ensures !DocumentsComplete(pancard, aadharcard, panDocument, aadharDocument) ==>
                    r == Refused(400, "Both PAN and Aadhaar numbers and documents are required", None) && users == old(users)
      ensures DocumentsComplete(pancard, aadharcard, panDocument, aadharDocument) && userId !in old(users) ==>
                    r == Refused(500, "Error submitting document info", Some(NullPanNumberMessage)) && users == old(users)
      ensures DocumentsComplete(pancard, aadharcard, panDocument, aadharDocument) && userId in old(users) ==>
                var updated := SubmitDocuments(old(users)[userId], pancard.value, panDocument.value, aadharcard.value, aadharDocument.value);
                if FitsIndexes(old(users), userId, updated)
                then r == Submitted("Documents verification info submitted successfully", pancard.value, panDocument.value,
                                    aadharcard, aadharDocument)
                     && users == old(users)[userId := updated]
                else r == Refused(500, "Error submitting document info", Some(DuplicateKeyMessage)) && users == old(users)
    {
      if !DocumentsComplete(pancard, aadharcard, panDocument, aadharDocument) {
        return Refused(400, "Both PAN and Aadhaar numbers and documents are required", None);
      }
      if userId !in users {
        return Refused(500, "Error submitting document info", Some(NullPanNumberMessage));
      }
      var updated := SubmitDocuments(users[userId], pancard.value, panDocument.value, aadharcard.value, aadharDocument.value);
      if !FitsIndexes(users, userId, updated) {
        return Refused(500, "Error submitting document info", Some(DuplicateKeyMessage));
      }
      FitsKeepsUnique(users, userId, updated);
      users := users[userId := updated];
      r := Submitted("Documents verification info submitted successfully", pancard.value, panDocument.value,
                     aadharcard, aadharDocument);
    }
  }
}
