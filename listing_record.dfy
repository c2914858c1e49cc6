/**
 * A property listing as the user handlers and the pages read it. The listing
 * schema itself is not part of this model; the fields are the ones the modelled
 * code reads (`_id` is `id`, `type` is `listingType`).
 */
module ListingRecord {
  import opened Seqs

  type ListingId = string
  type UserId = string

  datatype Listing = Listing(
    id: ListingId,
    userRef: UserId,
    name: string,
    address: string,
    listingType: string,
    bedrooms: int,
    bathrooms: int,
    regularPrice: int,
    discountPrice: int,
    offer: bool,
    parking: bool,
    furnished: bool,
    imageUrls: seq<string>)

  /** `items.filter(l => l._id !== id)`: the pages' local removal of a listing. */
  function WithoutId(items: seq<Listing>, id: ListingId): (r: seq<Listing>)
    ensures forall i :: 0 <= i < |r| ==> r[i].id != id && r[i] in items
    ensures forall i :: 0 <= i < |items| && items[i].id != id ==> items[i] in r
  {
    Filter(items, (l: Listing) => l.id != id)
  }

  /** Removal works part by part, so the listings that stay keep their order. */
  lemma WithoutIdConcat(a: seq<Listing>, b: seq<Listing>, id: ListingId)
    ensures WithoutId(a + b, id) == WithoutId(a, id) + WithoutId(b, id)
  {
    FilterConcat(a, b, (l: Listing) => l.id != id);
  }

  /** A list without that id is left as it is. */
  lemma WithoutAbsentId(items: seq<Listing>, id: ListingId)
    requires forall i :: 0 <= i < |items| ==> items[i].id != id
    ensures WithoutId(items, id) == items
  {
    FilterKeepsAll(items, (l: Listing) => l.id != id);
  }

  /** Removing the one entry with that id leaves the entries around it, in order. */
  lemma WithoutIdSplices(before: seq<Listing>, x: Listing, after: seq<Listing>)
    requires forall i :: 0 <= i < |before| ==> before[i].id != x.id
    requires forall i :: 0 <= i < |after| ==> after[i].id != x.id
    ensures WithoutId(before + [x] + after, x.id) == before + after
  {
    var keep := (l: Listing) => l.id != x.id;
    assert Filter([x], keep) == [] by {
      assert [x][..0] == [];
    }
    FilterConcat(before, [x], keep);
    FilterKeepsAll(before, keep);
    assert Filter(before + [x], keep) == before;
    FilterConcat(before + [x], after, keep);
    FilterKeepsAll(after, keep);
  }
}
