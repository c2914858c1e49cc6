/**
 * The listing page: whether the listing is among the signed-in user's
 * favorites, the favorite toggle, and the rules that decide what the page
 * shows (management panel, contact area, price, labels, reference).
 */
module ListingPage {
  import opened Wrappers
  import opened ListingRecord
  import opened UserModel
  import opened Server
  import opened UserController

  /** `data.some(f => f._id === listingId)` over the fetched favorites. */
  function IsFavorite(fetched: seq<Listing>, listingId: ListingId): (r: bool)
    ensures r <==> exists i :: 0 <= i < |fetched| && fetched[i].id == listingId
  {
    if fetched == [] then false
    else fetched[0].id == listingId || IsFavorite(fetched[1..], listingId)
  }

  /** `fetched` is the array the favorites handler sent for the map it computed. */
  predicate ListsExactly(fetched: seq<Listing>, found: map<ListingId, Listing>) {
    && (forall i :: 0 <= i < |fetched| ==> fetched[i].id in found && found[fetched[i].id] == fetched[i])
    && (forall id :: id in found ==> exists i :: 0 <= i < |fetched| && fetched[i].id == id)
  }

  /**
   * The flag the page derives agrees with the store: the listing is shown as a
   * favorite exactly when it is stored and its id is in the user's favorites.
   */
  lemma FavoriteFlagMatchesStore(users: map<UserId, User>, listings: map<ListingId, Listing>,
                                 userId: UserId, listingId: ListingId, fetched: seq<Listing>)
    requires GetUserFavorites(users, listings, userId, userId).Ok?
    requires ListsExactly(fetched, GetUserFavorites(users, listings, userId, userId).value)
    ensures IsFavorite(fetched, listingId) <==> listingId in listings && listingId in users[userId].favorites
  {
    var found := GetUserFavorites(users, listings, userId, userId).value;
    if IsFavorite(fetched, listingId) {
      var i :| 0 <= i < |fetched| && fetched[i].id == listingId;
      assert listingId in found;
    }
    if listingId in listings && listingId in users[userId].favorites {
      assert listingId in found;
    }
  }

  /** The request a toggle sends. */
  datatype FavoriteRequest = AddFavorite(listingId: ListingId) | RemoveFavorite(listingId: ListingId)

  /** The favorites handlers' reply as the page reads it: its `success` and `message`. */
  datatype ToggleReply = ToggleReply(success: Option<bool>, message: Option<string>)

  /** The reply of a favorites change the store accepted or refused. */
  function FavoritesChangeReply(r: Result<FavoritesReply, RaisedError>): (reply: ToggleReply)
    ensures reply.success == Some(r.Ok?)
  {
    match r
    case Ok(body) => ToggleReply(Some(true), Some(body.message))
    case Err(err) => ToggleReply(Some(false), Some(ErrorResponse(err).1.message))
  }

  /** The favorite flag and its loading flag. */
  class FavoriteToggle {
    const listingId: ListingId
    var favorite: bool
    var favLoading: bool

    constructor (listingId: ListingId)
      ensures this.listingId == listingId && !favorite && !favLoading
    {
      this.listingId := listingId;
      favorite := false;
      favLoading := false;
    }

    /** `checkFavoriteStatus`: adopts the derived flag when the favorites were fetched; a refusal or failure (`Err`) changes nothing. */
    method CheckStatus(signedIn: bool, fetched: Result<seq<Listing>, string>)
      modifies this
      ensures favLoading == old(favLoading)
      ensures signedIn && fetched.Ok? ==> favorite == IsFavorite(fetched.value, listingId)
      ensures !signedIn || fetched.Err? ==> favorite == old(favorite)
    {
      if signedIn && fetched.Ok? {
        favorite := IsFavorite(fetched.value, listingId);
      }
    }

    /**
     * `toggleFavorite`: signed out, nothing is sent and nothing changes (the page
     * goes to sign-in). Otherwise remove when the flag is set and add when not,
     * flipping the flag only on a reply with a truthy `success`; `reply` is
     * `Err` when the request raised. Loading is over afterwards in every case.
     */
    method Toggle(signedIn: bool, reply: Result<ToggleReply, string>) returns (sent: Option<FavoriteRequest>)
      modifies this
      ensures !signedIn ==> sent.None? && favorite == old(favorite) && favLoading == old(favLoading)
      ensures signedIn ==> !favLoading
      ensures signedIn && old(favorite) ==> sent == Some(RemoveFavorite(listingId))
      ensures signedIn && !old(favorite) ==> sent == Some(AddFavorite(listingId))
      ensures signedIn && reply.Ok? && reply.value.success == Some(true) ==> favorite == !old(favorite)
      ensures signedIn && !(reply.Ok? && reply.value.success == Some(true)) ==> favorite == old(favorite)
    {
      if !signedIn {
        return None;
      }
      favLoading := true;
      if favorite {
        sent := Some(RemoveFavorite(listingId));
        if reply.Ok? && reply.value.success == Some(true) {
          favorite := false;
        }
      } else {
        sent := Some(AddFavorite(listingId));
        if reply.Ok? && reply.value.success == Some(true) {
          favorite := true;
        }
      }
      favLoading := false;
    }
  }

  /**
   * One click on the favorite button of a signed-in user, answered by the
   * store: the page sends remove or add by its flag, the store applies it, and
   * the page reads the reply. A page whose flag agreed with the user's stored
   * favorites still agrees afterwards, and a later `checkFavoriteStatus` on the
   * favorites the API returns derives the same flag.
   */
  method ToggleOnStore(page: FavoriteToggle, store: Store, userId: UserId) returns (sent: Option<FavoriteRequest>)
    requires store.Valid()
    modifies page, store
    ensures store.Valid() && store.listings == old(store.listings)
    ensures sent == Some(if old(page.favorite) then RemoveFavorite(page.listingId) else AddFavorite(page.listingId))
    ensures userId in old(store.users) ==> userId in store.users
    ensures userId in old(store.users) && old(page.favorite) == (page.listingId in old(store.users)[userId].favorites) ==>
              page.favorite == (page.listingId in store.users[userId].favorites)
    ensures userId in old(store.users) && page.listingId in store.listings ==> page.favorite == !old(page.favorite)
    ensures userId in old(store.users) && old(page.favorite) == (page.listingId in old(store.users)[userId].favorites) ==>
              forall fetched :: ListsExactly(fetched, GetUserFavorites(store.users, store.listings, userId, userId).value) ==>
                IsFavorite(fetched, page.listingId) == page.favorite
  {
    var r: Result<FavoritesReply, RaisedError>;
    if page.favorite {
      r := store.RemoveFromFavorites(userId, page.listingId);
    } else {
      r := store.AddToFavorites(userId, page.listingId);
    }
    sent := page.Toggle(true, Ok(FavoritesChangeReply(r)));
    if userId in old(store.users) && old(page.favorite) == (page.listingId in old(store.users)[userId].favorites) {
      forall fetched | ListsExactly(fetched, GetUserFavorites(store.users, store.listings, userId, userId).value)
        ensures IsFavorite(fetched, page.listingId) == page.favorite
      {
        FavoriteFlagMatchesStore(store.users, store.listings, userId, page.listingId, fetched);
      }
    }
  }

  // ---------------------------------------------------------------------------
  // Display rules
  // ---------------------------------------------------------------------------

  /**
   * The edit/delete panel: shown to the signed-in owner only, which is exactly
   * when the contact area tells the visitor the listing is theirs.
   */
  function ShowManagement(currentUser: Option<UserId>, listing: Listing): (shown: bool)
    ensures shown <==> Contact(currentUser, listing) == OwnListing
    ensures shown ==> currentUser.Some?
  {
    currentUser.Some? && listing.userRef == currentUser.value
  }

  datatype ContactArea = ContactOwner | OwnListing | SignInPrompt

  /** The contact area: contact for a signed-in visitor, a note for the owner, a sign-in prompt otherwise. */
  function Contact(currentUser: Option<UserId>, listing: Listing): (area: ContactArea)
    ensures area == ContactOwner <==> currentUser.Some? && listing.userRef != currentUser.value
    ensures area == OwnListing <==> currentUser.Some? && listing.userRef == currentUser.value
    ensures area == SignInPrompt <==> currentUser.None?
  {
    if currentUser.Some? && listing.userRef != currentUser.value then ContactOwner
    else if currentUser.Some? && listing.userRef == currentUser.value then OwnListing
    else SignInPrompt
  }

  /** The headline price: the discounted price on offer, else the regular price. */
  function ShownPrice(listing: Listing): (price: int)
    ensures listing.offer ==> price == listing.discountPrice
    ensures !listing.offer ==> price == listing.regularPrice
  {
    if listing.offer then listing.discountPrice else listing.regularPrice
  }

  /** The offer box: the regular price struck through, the price paid, and the saving. */
  datatype OfferBox = OfferBox(struckPrice: int, price: int, saving: int)

  /**
   * The offer box appears only on offer. It shows the same price as the
   * headline, and the saving it states closes the gap to the struck price.
   */
  function OfferPanel(listing: Listing): (box: Option<OfferBox>)
    ensures box.Some? <==> listing.offer
    ensures box.Some? ==> box.value.price == ShownPrice(listing)
    ensures box.Some? ==> box.value.struckPrice == listing.regularPrice
    ensures box.Some? ==> box.value.price + box.value.saving == box.value.struckPrice
  {
    if listing.offer
    then Some(OfferBox(listing.regularPrice, listing.discountPrice, listing.regularPrice - listing.discountPrice))
    else None
  }

  /** The room label: the plural form exactly when the count is above one. */
  function RoomWord(count: int, singular: string): (word: string)
    ensures count > 1 ==> word == singular + "s"
    ensures count <= 1 ==> word == singular
  {
    if count > 1 then singular + "s" else singular
  }

  function TypeLabel(listing: Listing): (caption: string)
    ensures caption == "For Rent" <==> listing.listingType == "rent"
    ensures caption == "For Sale" <==> listing.listingType != "rent"
  {
    if listing.listingType == "rent" then "For Rent" else "For Sale"
  }

  function ParkingLabel(listing: Listing): (caption: string)
    ensures caption == "Parking" <==> listing.parking
    ensures caption == "No Parking" <==> !listing.parking
  {
    if listing.parking then "Parking" else "No Parking"
  }

  function FurnishedLabel(listing: Listing): (caption: string)
    ensures caption == "Furnished" <==> listing.furnished
    ensures caption == "Unfurnished" <==> !listing.furnished
  {
    if listing.furnished then "Furnished" else "Unfurnished"
  }

  /** `listingId.substring(0, 8)`: the first eight characters, or the whole id when shorter. */
  function Reference(listingId: ListingId): (r: string)
    ensures |listingId| >= 8 ==> |r| == 8
    ensures |listingId| < 8 ==> r == listingId
    ensures forall i :: 0 <= i < |r| ==> r[i] == listingId[i]
  {
    if |listingId| <= 8 then listingId else listingId[..8]
  }
}
