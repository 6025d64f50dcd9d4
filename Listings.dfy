/** The listing record built by `ListingModal.handlePressSubmit` and the
    all-or-nothing guard in front of it (App.tsx:132-146). */
module Listings {
  import opened Wrappers

  /** The five text inputs of the "Create Listing" modal (App.tsx:126-130). */
  datatype Draft = Draft(
    title: string,
    name: string,
    itemWorth: string,
    meetupLocation: string,
    description: string)

  /** The object literal `newListing` (App.tsx:138-145): the draft's five
      fields plus the image slot of the App at the time of the submit. */
  datatype Listing = Listing(
    title: string,
    name: string,
    itemWorth: string,
    meetupLocation: string,
    description: string,
    imageUri: Option<string>)

  /** The message the guard shows before returning (App.tsx:134). */
  const FillAllFieldsMessage: string := "Please fill out all the fields before submitting."

  /** Every draft slot starts as, and is reset to, the empty string. */
  const EmptyDraft: Draft := Draft("", "", "", "", "")

  /** JavaScript truthiness of a string: only the empty string is falsy.
      There is no trimming, so " " is truthy. */
  predicate Truthy(s: string)
  {
    s != ""
  }

  /** The guard `!title || !name || !itemWorth || !meetupLocation || !description`:
      it fires exactly when some required field is the empty string. */
  predicate MissingField(d: Draft)
    ensures MissingField(d) <==> "" in Fields(d)
  {
    !Truthy(d.title) || !Truthy(d.name) || !Truthy(d.itemWorth)
    || !Truthy(d.meetupLocation) || !Truthy(d.description)
  }

  /** The required fields, in the order the form shows them. */
  function Fields(d: Draft): (fs: seq<string>)
    ensures |fs| == 5
  {
    [d.title, d.name, d.itemWorth, d.meetupLocation, d.description]
  }

  /** The draft a stored record was built from. */
  function DraftOf(l: Listing): Draft
  {
    Draft(l.title, l.name, l.itemWorth, l.meetupLocation, l.description)
  }

  /** The submit decision: reject with the single consolidated message when the
      guard fires, otherwise build the record from the draft and the current
      image slot. */
  function Validate(d: Draft, imageUri: Option<string>): (r: Result<Listing, string>)
    ensures r.Success? <==> "" !in Fields(d)
    ensures r.Success? ==> DraftOf(r.value) == d && r.value.imageUri == imageUri
    ensures r.Failure? ==> r.error == FillAllFieldsMessage
  {
    if MissingField(d) then
      Failure(FillAllFieldsMessage)
    else
      Success(Listing(d.title, d.name, d.itemWorth, d.meetupLocation, d.description, imageUri))
  }

  /** The image slot never decides acceptance. */
  lemma ValidateIgnoresImage(d: Draft, a: Option<string>, b: Option<string>)
    ensures Validate(d, a).Success? <==> Validate(d, b).Success?
  {
  }

  /** The reset draft is always rejected, so a second press of Submit right
      after a successful one adds nothing. */
  lemma EmptyDraftRejected(imageUri: Option<string>)
    ensures Validate(EmptyDraft, imageUri) == Failure(FillAllFieldsMessage)
  {
  }

  /** The guard checks presence only: whitespace and non-numeric worth pass. */
  lemma NoTrimNoNumericCheck()
    ensures Validate(Draft(" ", " ", "abc", " ", "\n"), None).Success?
  {
    assert "" !in Fields(Draft(" ", " ", "abc", " ", "\n"));
  }

  /** A complete draft is accepted; the same draft with an empty worth is
      rejected with the consolidated message. */
  lemma BikeExample()
    ensures Validate(Draft("Bike", "Sam", "50", "Park", "Used bike"), None).Success?
    ensures Validate(Draft("Bike", "Sam", "", "Park", "Used bike"), None) == Failure(FillAllFieldsMessage)
  {
    assert "" !in Fields(Draft("Bike", "Sam", "50", "Park", "Used bike"));
  }
}
