/** The listing session of App.tsx as one state machine: the state slots of
    `App` and of `ListingModal` (App.tsx:8-12, App.tsx:126-130), one event per
    handler, and the step function every handler follows. Each event runs to
    completion and sees the state committed by the previous one. */
module Session {
  import opened Wrappers
  import opened Listings
  import opened RowExpansion
  import ImagePicker

  /** Every `useState` slot of the two components. */
  datatype State = State(
    filterModalVisible: bool,
    listingModalVisible: bool,
    imageUri: Option<string>,
    listings: seq<Listing>,
    expandedItemIndex: Expansion,
    draft: Draft)

  /** The five text inputs, each wired to its own setter. */
  datatype Field = Title | Name | ItemWorth | MeetupLocation | Description

  /** The user actions and callbacks that change a slot. */
  datatype Event =
    | PressFilter                     // handleFilterPress, App.tsx:14
    | CloseFilter                     // handleCloseFilterModal, App.tsx:15
    | PressCreateListing              // handleCreateListingPress, App.tsx:16
    | CloseListingModal               // handleCloseListingModal, App.tsx:17
    | ChangeText(field: Field, text: string)  // onChangeText setters
    | PickerResponse(source: ImagePicker.Source, response: ImagePicker.Response)
    | SelectRow(index: nat)           // row onPress, App.tsx:67
    | PressSubmit                     // handlePressSubmit, App.tsx:132

  /** The slots as the two components first render them; the session
      invariant holds there. */
  function Initial(): (r: State)
    ensures Inv(r)
  {
    State(false, false, None, [], Collapsed, EmptyDraft)
  }

  /** Session invariant: the expanded row, when there is one, is a rendered
      row, and the two modals are never shown together. */
  ghost predicate Inv(s: State)
  {
    && (s.expandedItemIndex.Expanded? ==> s.expandedItemIndex.index < |s.listings|)
    && !(s.filterModalVisible && s.listingModalVisible)
  }

  /** Whether the control that raises `e` can be touched in state `s`.
      A shown modal covers the whole screen (App.tsx:101, App.tsx:155 with the
      full-screen `modalContainer`), so the header buttons and the rows
      (App.tsx:45-52, App.tsx:63-67) need both modals hidden, and `FlatList`
      renders a row only for an index of `listings`. The filter modal's Update
      button needs that modal shown; the text inputs, Submit and the back
      gesture of the listing modal need it shown. A picker callback arrives
      after the picker returns and is never blocked. */
  predicate Enabled(s: State, e: Event)
  {
    match e
    case PressFilter => !s.filterModalVisible && !s.listingModalVisible
    case PressCreateListing => !s.filterModalVisible && !s.listingModalVisible
    case SelectRow(i) => !s.filterModalVisible && !s.listingModalVisible && i < |s.listings|
    case CloseFilter => s.filterModalVisible
    case CloseListingModal => s.listingModalVisible
    case ChangeText(_, _) => s.listingModalVisible
    case PressSubmit => s.listingModalVisible
    case PickerResponse(_, _) => true
  }

  /** The position of each input among `Fields`. */
  function FieldIndex(f: Field): (k: nat)
    ensures k < 5
  {
    match f
    case Title => 0
    case Name => 1
    case ItemWorth => 2
    case MeetupLocation => 3
    case Description => 4
  }

  /** One text input's setter. */
  function SetField(d: Draft, f: Field, text: string): (r: Draft)
    ensures Fields(r)[FieldIndex(f)] == text
    ensures forall k :: 0 <= k < 5 && k != FieldIndex(f) ==> Fields(r)[k] == Fields(d)[k]
  {
    match f
    case Title => d.(title := text)
    case Name => d.(name := text)
    case ItemWorth => d.(itemWorth := text)
    case MeetupLocation => d.(meetupLocation := text)
    case Description => d.(description := text)
  }

  /** `handleAddListing` (App.tsx:35-38): append at the end, hide the modal. */
  function AddListing(s: State, l: Listing): (r: State)
    ensures |r.listings| == |s.listings| + 1 && r.listings[..|s.listings|] == s.listings
    ensures r.listings[|s.listings|] == l && !r.listingModalVisible
    ensures r.(listings := s.listings, listingModalVisible := s.listingModalVisible) == s
  {
    s.(listings := s.listings + [l], listingModalVisible := false)
  }

  /** `handlePressSubmit` (App.tsx:132-152): on a rejected draft nothing
      changes; on an accepted one the record is appended, the modal hidden and
      the draft cleared, while the image slot and the expansion are kept. */
  function Submit(s: State): (r: State)
    ensures r == s <==> "" in Fields(s.draft)
    ensures "" !in Fields(s.draft) ==>
      && |r.listings| == |s.listings| + 1
      && r.listings[..|s.listings|] == s.listings
      && DraftOf(r.listings[|s.listings|]) == s.draft
      && r.listings[|s.listings|].imageUri == s.imageUri
      && r.draft == EmptyDraft
      && !r.listingModalVisible
      && r.imageUri == s.imageUri
      && r.expandedItemIndex == s.expandedItemIndex
      && r.filterModalVisible == s.filterModalVisible
  {
    match Validate(s.draft, s.imageUri)
    case Failure(_) => s
    case Success(l) => AddListing(s, l).(draft := EmptyDraft)
  }

  /** The effect of one event. */
  function Step(s: State, e: Event): (r: State)
    ensures s.listings <= r.listings && |r.listings| <= |s.listings| + 1
    ensures Inv(s) && Enabled(s, e) ==> Inv(r)
  {
    match e
    case PressFilter => s.(filterModalVisible := true)
    case CloseFilter => s.(filterModalVisible := false)
    case PressCreateListing => s.(listingModalVisible := true)
    case CloseListingModal => s.(listingModalVisible := false)
    case ChangeText(f, text) => s.(draft := SetField(s.draft, f, text))
    case PickerResponse(source, resp) => s.(imageUri := ImagePicker.PickedUri(s.imageUri, resp))
    case SelectRow(i) => s.(expandedItemIndex := Toggle(s.expandedItemIndex, i))
    case PressSubmit => Submit(s)
  }

  /** The records one event appends: the accepted draft of a submit, or none. */
  function Added(s: State, e: Event): seq<Listing>
  {
    if e.PressSubmit? && Validate(s.draft, s.imageUri).Success? then
      [Validate(s.draft, s.imageUri).value]
    else
      []
  }

  /** A sequence of events each of which is possible when it happens. */
  predicate Trace(s: State, evs: seq<Event>)
    decreases |evs|
  {
    evs == [] || (Enabled(s, evs[0]) && Trace(Step(s, evs[0]), evs[1..]))
  }

  /** The state after a sequence of events. Listings only grow: no event
      removes, reorders or edits a stored record. */
  function Run(s: State, evs: seq<Event>): (r: State)
    ensures s.listings <= r.listings
    decreases |evs|
  {
    if evs == [] then s else Run(Step(s, evs[0]), evs[1..])
  }

  /** The records a sequence of events appends, in event order; each one was
      built from a draft with all five fields filled. */
  function Appended(s: State, evs: seq<Event>): (ls: seq<Listing>)
    ensures forall l :: l in ls ==> "" !in Fields(DraftOf(l))
    decreases |evs|
  {
    if evs == [] then [] else Added(s, evs[0]) + Appended(Step(s, evs[0]), evs[1..])
  }

  /** The store after any events is the earlier store followed by exactly the
      accepted records, in the order they were submitted. */
  lemma {:induction false} RunAppends(s: State, evs: seq<Event>)
    ensures Run(s, evs).listings == s.listings + Appended(s, evs)
    decreases |evs|
  {
    if evs != [] {
      var s' := Step(s, evs[0]);
      assert s'.listings == s.listings + Added(s, evs[0]);
      RunAppends(s', evs[1..]);
      assert s.listings + Added(s, evs[0]) + Appended(s', evs[1..])
          == s.listings + (Added(s, evs[0]) + Appended(s', evs[1..]));
    }
  }

  /** The expanded row stays a rendered row along any possible trace. */
  lemma {:induction false} RunPreservesInv(s: State, evs: seq<Event>)
    requires Inv(s) && Trace(s, evs)
    ensures Inv(Run(s, evs))
    decreases |evs|
  {
    if evs != [] {
      RunPreservesInv(Step(s, evs[0]), evs[1..]);
    }
  }

  /** From the first render, whenever a row is expanded its index is below the
      number of listings. */
  lemma ExpandedRowExists(evs: seq<Event>)
    requires Trace(Initial(), evs)
    ensures Inv(Run(Initial(), evs))
  {
    RunPreservesInv(Initial(), evs);
  }

  /** The first render: no listings, nothing expanded, no image, both modals
      hidden, every draft field empty. */
  lemma InitialState()
    ensures Initial().listings == [] && Initial().expandedItemIndex == Collapsed
    ensures Initial().imageUri == None
    ensures !Initial().filterModalVisible && !Initial().listingModalVisible
    ensures forall f :: f in Fields(Initial().draft) ==> f == ""
  {
  }

  /** Only a picker response that carries assets changes the image slot; in
      particular a successful submit keeps it. */
  lemma ImageOnlyFromPicker(s: State, e: Event)
    requires !(e.PickerResponse? && ImagePicker.HasAssets(e.response))
    ensures Step(s, e).imageUri == s.imageUri
  {
  }

  /** Closing the listing modal hides it and keeps the half-typed draft: the
      modal component stays mounted while hidden. */
  lemma CloseKeepsDraft(s: State)
    ensures Step(s, CloseListingModal).draft == s.draft
    ensures !Step(s, CloseListingModal).listingModalVisible
  {
  }

  /** Gallery and camera responses step the session identically. */
  lemma SourceIrrelevant(s: State, resp: ImagePicker.Response)
    ensures Step(s, PickerResponse(ImagePicker.Gallery, resp)) == Step(s, PickerResponse(ImagePicker.Camera, resp))
  {
  }

  /** The image slot is not cleared by a submit, so the next listing inherits
      the previous listing's image unless a new one is picked in between:
      submit, reopen the modal, type a new complete draft, submit again. */
  lemma {:induction false} NextListingInheritsImage(s: State, d: Draft)
    requires s.listingModalVisible && !s.filterModalVisible
    requires "" !in Fields(s.draft) && "" !in Fields(d)
    ensures var evs := [PressSubmit, PressCreateListing, ChangeText(Title, d.title), ChangeText(Name, d.name),
                        ChangeText(ItemWorth, d.itemWorth), ChangeText(MeetupLocation, d.meetupLocation),
                        ChangeText(Description, d.description), PressSubmit];
            var r := Run(s, evs);
            Trace(s, evs)
            && |r.listings| == |s.listings| + 2
            && r.listings[|s.listings|].imageUri == s.imageUri
            && r.listings[|s.listings| + 1].imageUri == s.imageUri
            && DraftOf(r.listings[|s.listings| + 1]) == d
  {
    var evs := [PressSubmit, PressCreateListing, ChangeText(Title, d.title), ChangeText(Name, d.name),
                ChangeText(ItemWorth, d.itemWorth), ChangeText(MeetupLocation, d.meetupLocation),
                ChangeText(Description, d.description), PressSubmit];
    var s1 := Step(s, evs[0]);
    var s2 := Step(s1, evs[1]);
    var s3 := Step(s2, evs[2]);
    var s4 := Step(s3, evs[3]);
    var s5 := Step(s4, evs[4]);
    var s6 := Step(s5, evs[5]);
    var s7 := Step(s6, evs[6]);
    var s8 := Step(s7, evs[7]);
    assert !s1.listingModalVisible && !s1.filterModalVisible && s1.imageUri == s.imageUri;
    assert s7.draft == d && s7.listingModalVisible && s7.imageUri == s.imageUri && s7.listings == s1.listings;
    assert Run(s8, evs[8..]) == s8 && Trace(s8, evs[8..]);
    assert Run(s7, evs[7..]) == s8 && Trace(s7, evs[7..]) by { assert evs[7..][1..] == evs[8..]; }
    assert Run(s6, evs[6..]) == s8 && Trace(s6, evs[6..]) by { assert evs[6..][1..] == evs[7..]; }
    assert Run(s5, evs[5..]) == s8 && Trace(s5, evs[5..]) by { assert evs[5..][1..] == evs[6..]; }
    assert Run(s4, evs[4..]) == s8 && Trace(s4, evs[4..]) by { assert evs[4..][1..] == evs[5..]; }
    assert Run(s3, evs[3..]) == s8 && Trace(s3, evs[3..]) by { assert evs[3..][1..] == evs[4..]; }
    assert Run(s2, evs[2..]) == s8 && Trace(s2, evs[2..]) by { assert evs[2..][1..] == evs[3..]; }
    assert Run(s1, evs[1..]) == s8 && Trace(s1, evs[1..]) by { assert evs[1..][1..] == evs[2..]; }
  }
}
