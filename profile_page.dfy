/**
 * The profile page: the verification status of both documents, the
 * verification button's label and the under-review note, derived from the
 * signed-in user; and the page's own state (active tab, edited fields, the
 * user's listings).
 */
module ProfilePage {
  import opened Wrappers
  import opened Text
  import opened ListingRecord
  import opened UserModel
  import opened UserController

  datatype DocStatus = Verified | Pending | NotSubmitted

  function StatusLabel(s: DocStatus): string {
    match s
    case Verified => "Verified"
    case Pending => "Pending"
    case NotSubmitted => "Not Submitted"
  }

  /** A verified flag wins; otherwise a truthy number means the document awaits review. */
  function Status(verified: bool, number: Option<string>): (s: DocStatus)
    ensures s == Verified <==> verified
    ensures s == Pending <==> !verified && Truthy(number)
    ensures s == NotSubmitted <==> !verified && !Truthy(number)
  {
    if verified then Verified else if Truthy(number) then Pending else NotSubmitted
  }

  function PanStatus(u: PublicUser): DocStatus {
    Status(u.panVerified, u.panNumber)
  }

  function AadhaarStatus(u: PublicUser): DocStatus {
    Status(u.isAadharVerified, u.aadharNumber)
  }

  /** The button offers an update once both numbers are on record. */
  function VerifyButtonLabel(u: PublicUser): (caption: string)
    ensures caption == "Update Documents" <==> Truthy(u.panNumber) && Truthy(u.aadharNumber)
    ensures caption == "Verify Documents" <==> !(Truthy(u.panNumber) && Truthy(u.aadharNumber))
  {
    if Truthy(u.panNumber) && Truthy(u.aadharNumber) then "Update Documents" else "Verify Documents"
  }

  /**
   * The under-review note: some number submitted and neither document verified,
   * which is exactly when neither status reads Verified and at least one reads Pending.
   */
  function ShowUnderReview(u: PublicUser): (shown: bool)
    ensures shown <==>
      PanStatus(u) != Verified && AadhaarStatus(u) != Verified && (PanStatus(u) == Pending || AadhaarStatus(u) == Pending)
  {
    (Truthy(u.panNumber) || Truthy(u.aadharNumber)) && !u.panVerified && !u.isAadharVerified
  }

  /** A new account shows both documents as not submitted and offers verification. */
  lemma NewAccountNotSubmitted(id: UserId, a: NewAccount)
    requires NewUser(id, a).Ok?
    ensures PanStatus(WithoutPassword(NewUser(id, a).value)) == NotSubmitted
    ensures AadhaarStatus(WithoutPassword(NewUser(id, a).value)) == NotSubmitted
    ensures VerifyButtonLabel(WithoutPassword(NewUser(id, a).value)) == "Verify Documents"
    ensures !ShowUnderReview(WithoutPassword(NewUser(id, a).value))
  {
  }

  /**
   * The record a document submission the store accepted leaves, as `getUser`
   * returns it, derives Pending for both documents, "Update Documents" and the
   * review note. The page shows this once its signed-in user is reloaded.
   */
  lemma SubmittedDocumentsPending(u: User, pancard: string, panPath: string, aadharcard: string, aadharPath: string)
    requires pancard != "" && aadharcard != ""
    ensures PanStatus(WithoutPassword(SubmitDocuments(u, pancard, panPath, aadharcard, aadharPath))) == Pending
    ensures AadhaarStatus(WithoutPassword(SubmitDocuments(u, pancard, panPath, aadharcard, aadharPath))) == Pending
    ensures VerifyButtonLabel(WithoutPassword(SubmitDocuments(u, pancard, panPath, aadharcard, aadharPath))) == "Update Documents"
    ensures ShowUnderReview(WithoutPassword(SubmitDocuments(u, pancard, panPath, aadharcard, aadharPath)))
  {
  }

  class Profile {
    var activeTab: string
    var formData: map<string, string>
    var userListings: seq<Listing>

    constructor ()
      ensures activeTab == "profile" && formData == map[] && userListings == []
    {
      activeTab := "profile";
      formData := map[];
      userListings := [];
    }

    /** `handleChange`: the edited field takes the input's value; every other field stays. */
    method Change(id: string, value: string)
      modifies this
      ensures id in formData && formData[id] == value
      ensures forall k :: k != id ==> (k in formData <==> k in old(formData))
      ensures forall k :: k != id && k in formData ==> formData[k] == old(formData)[k]
      ensures activeTab == old(activeTab) && userListings == old(userListings)
    {
      formData := formData[id := value];
    }

    /** The profile tab button. */
    method SelectProfileTab()
      modifies this
      ensures activeTab == "profile"
      ensures formData == old(formData) && userListings == old(userListings)
    {
      activeTab := "profile";
    }

    /**
     * `handleShowListings`: the fetched listings are adopted and the listings tab
     * opens only on success; a `success: false` body or a raised request
     * (`Err`) leaves both as they were.
     */
    method ShowListings(outcome: Result<seq<Listing>, string>)
      modifies this
      ensures outcome.Ok? ==> userListings == outcome.value && activeTab == "listings"
      ensures outcome.Err? ==> userListings == old(userListings) && activeTab == old(activeTab)
      ensures formData == old(formData)
    {
      if outcome.Ok? {
        userListings := outcome.value;
        activeTab := "listings";
      }
    }

    /**
     * `handleListingDelete`: `outcome` is the reply's `success` field, or `Err`
     * when the request raised. Unless the reply says `success: false` the
     * listing leaves the local list; the rest keep their order.
     */
    method ListingDelete(listingId: ListingId, outcome: Result<Option<bool>, string>)
      modifies this
      ensures outcome.Ok? && outcome.value != Some(false) ==> userListings == WithoutId(old(userListings), listingId)
      ensures outcome.Err? || outcome.value == Some(false) ==> userListings == old(userListings)
      ensures activeTab == old(activeTab) && formData == old(formData)
    {
      if outcome.Ok? && outcome.value != Some(false) {
        userListings := WithoutId(userListings, listingId);
      }
    }
  }
}
