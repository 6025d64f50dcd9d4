/** The two React components of App.tsx as objects whose fields are their
    `useState` slots and whose methods are their handlers. Every handler is
    proved to move the slots exactly as `Session.Step` says. */
module Components {
  import opened Wrappers
  import opened Listings
  import opened RowExpansion
  import ImagePicker
  import opened Session

  /** `ListingModal` (App.tsx:125-152): the five draft inputs and the submit
      handler. It stays mounted while hidden, so its draft survives a close. */
  class ListingModal {
    var title: string
    var name: string
    var itemWorth: string
    var meetupLocation: string
    var description: string

    function CurrentDraft(): Draft
      reads this
    {
      Draft(title, name, itemWorth, meetupLocation, description)
    }

    /** The five `useState('')` slots (App.tsx:126-130). */
    constructor ()
      ensures CurrentDraft() == EmptyDraft
    {
      title, name, itemWorth, meetupLocation, description := "", "", "", "", "";
    }

    /** An `onChangeText` setter of one input. */
    method ChangeText(f: Field, text: string)
      modifies this
      ensures CurrentDraft() == SetField(old(CurrentDraft()), f, text)
    {
      match f
      case Title => title := text;
      case Name => name := text;
      case ItemWorth => itemWorth := text;
      case MeetupLocation => meetupLocation := text;
      case Description => description := text;
    }

    /** `handlePressSubmit` (App.tsx:132-152), with `app` supplying the
        `imageUri` prop and the `onSubmit` callback. The guard returns early
        with the alert's message; otherwise the record goes to the App and the
        five inputs are reset one after the other. */
    method HandlePressSubmit(app: App) returns (outcome: Result<Listing, string>)
      requires app.modal == this && app.Valid() && Enabled(app.Snapshot(), PressSubmit)
      modifies this, app
      ensures app.Valid()
      ensures outcome == Validate(old(CurrentDraft()), old(app.imageUri))
      ensures app.Snapshot() == Step(old(app.Snapshot()), PressSubmit)
    {
      if MissingField(CurrentDraft()) {
        return Failure(FillAllFieldsMessage);
      }
      var newListing := Listing(title, name, itemWorth, meetupLocation, description, app.imageUri);
      app.HandleAddListing(newListing);
      title := "";
      name := "";
      itemWorth := "";
      meetupLocation := "";
      description := "";
      outcome := Success(newListing);
    }
  }

  /** `App` (App.tsx:7-38): the listings, the expanded row, the image slot and
      the two modal flags, plus the mounted `ListingModal` child. */
  class App {
    var filterModalVisible: bool
    var listingModalVisible: bool
    var imageUri: Option<string>
    var listings: seq<Listing>
    var expandedItemIndex: Expansion
    const modal: ListingModal

    /** All slots of both components. */
    function Snapshot(): State
      reads this, modal
    {
      State(filterModalVisible, listingModalVisible, imageUri, listings, expandedItemIndex, modal.CurrentDraft())
    }

    ghost predicate Valid()
      reads this, modal
    {
      Inv(Snapshot())
    }

    /** The first render (App.tsx:8-12, App.tsx:126-130). */
    constructor ()
      ensures Valid() && fresh(modal)
      ensures Snapshot() == Initial()
    {
      filterModalVisible := false;
      listingModalVisible := false;
      imageUri := None;
      listings := [];
      expandedItemIndex := Collapsed;
      modal := new ListingModal();
    }

    /** `handleFilterPress` (App.tsx:14). */
    method HandleFilterPress()
      requires Valid() && Enabled(Snapshot(), PressFilter)
      modifies this
      ensures Valid() && filterModalVisible
      ensures Snapshot() == Step(old(Snapshot()), PressFilter)
    {
      filterModalVisible := true;
    }

    /** `handleCloseFilterModal` (App.tsx:15). */
    method HandleCloseFilterModal()
      requires Valid() && Enabled(Snapshot(), CloseFilter)
      modifies this
      ensures Valid() && !filterModalVisible
      ensures Snapshot() == Step(old(Snapshot()), CloseFilter)
    {
      filterModalVisible := false;
    }

    /** `handleCreateListingPress` (App.tsx:16). */
    method HandleCreateListingPress()
      requires Valid() && Enabled(Snapshot(), PressCreateListing)
      modifies this
      ensures Valid() && listingModalVisible
      ensures Snapshot() == Step(old(Snapshot()), PressCreateListing)
    {
      listingModalVisible := true;
    }

    /** `handleCloseListingModal` (App.tsx:17); the draft is left as typed. */
    method HandleCloseListingModal()
      requires Valid() && Enabled(Snapshot(), CloseListingModal)
      modifies this
      ensures Valid() && !listingModalVisible
      ensures modal.CurrentDraft() == old(modal.CurrentDraft())
      ensures Snapshot() == Step(old(Snapshot()), CloseListingModal)
    {
      listingModalVisible := false;
    }

    /** The `launchImageLibrary` callback (App.tsx:20-24). */
    method OnImageLibraryResponse(response: ImagePicker.Response)
      requires Valid()
      modifies this
      ensures Valid()
      ensures imageUri == ImagePicker.PickedUri(old(imageUri), response)
      ensures Snapshot() == Step(old(Snapshot()), PickerResponse(ImagePicker.Gallery, response))
    {
      if response.assets.Some? && |response.assets.value| > 0 {
        imageUri := response.assets.value[0].uri;
      }
    }

    /** The `launchCamera` callback (App.tsx:28-32). */
    method OnCameraResponse(response: ImagePicker.Response)
      requires Valid()
      modifies this
      ensures Valid()
      ensures imageUri == ImagePicker.PickedUri(old(imageUri), response)
      ensures Snapshot() == Step(old(Snapshot()), PickerResponse(ImagePicker.Camera, response))
    {
      if response.assets.Some? && |response.assets.value| > 0 {
        imageUri := response.assets.value[0].uri;
      }
    }

    /** A row's `onPress` (App.tsx:67). Rows exist only for indices of
        `listings`, and only while no modal covers the list. */
    method SelectRow(index: nat)
      requires Valid() && Enabled(Snapshot(), Event.SelectRow(index))
      modifies this
      ensures Valid()
      ensures expandedItemIndex == Toggle(old(expandedItemIndex), index)
      ensures Snapshot() == Step(old(Snapshot()), Event.SelectRow(index))
    {
      expandedItemIndex := if expandedItemIndex == Expanded(index) then Collapsed else Expanded(index);
    }

    /** `handleAddListing` (App.tsx:35-38), the modal's `onSubmit`. */
    method HandleAddListing(listing: Listing)
      requires Valid()
      modifies this
      ensures Valid()
      ensures listings == old(listings) + [listing] && !listingModalVisible
      ensures Snapshot() == AddListing(old(Snapshot()), listing)
    {
      listings := listings + [listing];
      listingModalVisible := false;
    }
  }

  /** A user opening the listing modal if it is hidden, typing the five
      fields of `d` and pressing Submit. */
  method FillAndSubmit(app: App, d: Draft) returns (outcome: Result<Listing, string>)
    requires app.Valid() && !app.filterModalVisible
    modifies app, app.modal
    ensures app.Valid()
    ensures outcome == Validate(d, old(app.imageUri))
    ensures app.Snapshot() == Submit(old(app.Snapshot()).(draft := d, listingModalVisible := true))
  {
    if !app.listingModalVisible {
      app.HandleCreateListingPress();
    }
    var m := app.modal;
    m.ChangeText(Title, d.title);
    m.ChangeText(Name, d.name);
    m.ChangeText(ItemWorth, d.itemWorth);
    m.ChangeText(MeetupLocation, d.meetupLocation);
    m.ChangeText(Description, d.description);
    outcome := m.HandlePressSubmit(app);
  }

  /** Three accepted submits from the first render: the store holds the three
      records in submit order, none with an image. */
  method ThreeSubmits(a: Draft, b: Draft, c: Draft) returns (app: App)
    requires "" !in Fields(a) && "" !in Fields(b) && "" !in Fields(c)
    ensures app.Valid()
    ensures |app.listings| == 3
    ensures DraftOf(app.listings[0]) == a && DraftOf(app.listings[1]) == b && DraftOf(app.listings[2]) == c
    ensures forall i :: 0 <= i < 3 ==> app.listings[i].imageUri == None
    ensures app.modal.CurrentDraft() == EmptyDraft && !app.listingModalVisible
  {
    app := new App();
    var outcome := FillAndSubmit(app, a);
    outcome := FillAndSubmit(app, b);
    outcome := FillAndSubmit(app, c);
  }
}
