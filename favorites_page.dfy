/**
 * The favorites page: the list fetched for the signed-in user and the removal
 * of one entry, with the id being removed held while the request runs.
 */
module FavoritesPage {
  import opened Wrappers
  import opened ListingRecord
  import opened ListingPage

  /** A completed fetch: whether the response was ok, and the listings it carried when it was. */
  datatype FetchReply = FetchReply(ok: bool, items: seq<Listing>)

  class Favorites {
    var favorites: seq<Listing>
    var loading: bool
    var removingId: Option<ListingId>

    constructor ()
      ensures favorites == [] && loading && removingId.None?
    {
      favorites := [];
      loading := true;
      removingId := None;
    }

    /**
     * The fetch effect: signed out, nothing is requested (the page goes to
     * sign-in). Otherwise the fetched list replaces the local one only when the
     * response was ok; `outcome` is `Err` when the request raised.
     */
    method Load(signedIn: bool, outcome: Result<FetchReply, string>) returns (requested: bool)
      modifies this
      ensures requested == signedIn
      ensures removingId == old(removingId)
      ensures !signedIn ==> favorites == old(favorites) && loading == old(loading)
      ensures signedIn ==> !loading
      ensures signedIn && outcome.Ok? && outcome.value.ok ==> favorites == outcome.value.items
      ensures !(signedIn && outcome.Ok? && outcome.value.ok) ==> favorites == old(favorites)
    {
      if !signedIn {
        return false;
      }
      requested := true;
      loading := true;
      if outcome.Ok? && outcome.value.ok {
        favorites := outcome.value.items;
      }
      loading := false;
    }

    /** The start of `handleRemoveFavorite`: the entry being removed is marked. */
    method BeginRemove(listingId: ListingId)
      modifies this
      ensures removingId == Some(listingId)
      ensures favorites == old(favorites) && loading == old(loading)
    {
      removingId := Some(listingId);
    }

    /**
     * The end of `handleRemoveFavorite(listingId)`: on a reply with a truthy
     * `success` the entries with the id the handler was called with go and the
     * rest stay in order; otherwise, or when the request raised, the list is
     * unchanged. The mark is cleared either way, even when it now names an
     * overlapping removal that started later.
     */
    method FinishRemove(listingId: ListingId, reply: Result<ToggleReply, string>)
      modifies this
      ensures removingId.None?
      ensures loading == old(loading)
      ensures reply.Ok? && reply.value.success == Some(true) ==> favorites == WithoutId(old(favorites), listingId)
      ensures !(reply.Ok? && reply.value.success == Some(true)) ==> favorites == old(favorites)
    {
      if reply.Ok? && reply.value.success == Some(true) {
        favorites := WithoutId(favorites, listingId);
      }
      removingId := None;
    }
  }
}
