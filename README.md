# Listing session of the Android Trading App

This project models the listing session of the app's single screen, `App.tsx`, in Dafny.
The `App` component keeps a growing list of listings, the row whose details are expanded,
the image picked for the next listing and two modal-visibility flags.
Its child `ListingModal` keeps a five-field text draft.
The model covers these handlers:

- the modal open and close handlers;
- the gallery and camera picker callbacks;
- the row toggle;
- `handleAddListing`;
- `ListingModal.handlePressSubmit`, with its all-or-nothing non-empty guard.

Layout:

- `Wrappers.dfy`: `Option` (JavaScript `null`/`undefined`) and `Result`. `Result` is the early return of the submit guard.
- `Listings.dfy`: the draft, the stored record, the guard and the submit decision `Validate`.
- `Expansion.dfy` (module `RowExpansion`): `expandedItemIndex` as `Collapsed | Expanded(i)` and the toggle.
- `ImagePicker.dfy`: the picker response as a value and how a callback writes the image slot.
- `Session.dfy`: every slot of both components as one `State`, one `Event` per handler, and `Step`.
  `Run` replays a sequence of events. The lemmas cover traces: listings only grow, the appended records come in submit order, and the expanded row always exists.
- `Components.dfy`: the two components as classes. Their fields are the `useState` slots and their methods are the handlers.
  Each handler is proved to move the slots exactly as `Session.Step` says, and to keep the session invariant.
  A handler requires only that its control can be touched: a shown modal covers the whole screen.

The model follows what the code does:

- A field is missing only when it is the empty string, because the guard tests JavaScript truthiness.
  There is no trimming and no numeric check of the worth, so `" "` and `"abc"` are accepted.
  The numeric keyboard is only an input hint.
- One generic message is returned, not a list of the missing fields.
- The image slot is not cleared by a submit, so the next listing inherits the previous image.
- No filter logic exists: the three filter options only raise alerts.

## Model

| member | source | states |
|---|---|---|
| Listings.Validate | App.tsx:132-146 | accepts exactly when none of the five fields is `""`; an accepted record carries the draft's five fields and the current image slot; a rejection carries the message "Please fill out all the fields before submitting." |
| Listings.MissingField | App.tsx:133 | the guard fires exactly when some required field is the empty string |
| Listings.ValidateIgnoresImage | App.tsx:133 | the image slot never affects acceptance |
| Listings.EmptyDraftRejected | App.tsx:133-151 | the reset draft is rejected, so a second Submit right after a success adds nothing |
| Listings.NoTrimNoNumericCheck | App.tsx:133 | whitespace-only fields and a non-numeric worth pass the guard |
| Listings.BikeExample | App.tsx:132-146 | a complete draft is accepted; the same draft with an empty worth is rejected with the message |
| RowExpansion.Toggle | App.tsx:67 | selecting the expanded row collapses; selecting any other row expands that row; afterwards at most that row is expanded |
| RowExpansion.ToggleTwiceFromCollapsed | App.tsx:67 | toggling the same row twice from collapsed returns to collapsed |
| RowExpansion.ToggleThenOther | App.tsx:67 | toggling p and then a different q leaves exactly q expanded |
| ImagePicker.NoAssetsKeepsImage | App.tsx:21-23 | a response with absent or empty assets leaves the image slot unchanged |
| ImagePicker.FirstAssetWins | App.tsx:21-22 | a response with assets writes the first asset's URI |
| ImagePicker.LastPickWins | App.tsx:19-33 | after a second non-empty pick, only that pick's URI remains |
| ImagePicker.PickedUri | App.tsx:21-23 | only a response with a non-empty asset list changes the image slot, and then to the first asset's URI |
| Session.Initial | App.tsx:8-12 | the session invariant holds at the first render |
| Session.Enabled | App.tsx:63-67 | a row can be selected only when it is rendered and no modal covers the list; header buttons need both modals hidden; the inputs, Submit and the close of the listing modal need it shown; picker callbacks are never blocked |
| Session.SetField | App.tsx:164-220 | an input's setter replaces exactly its own field and keeps the other four |
| Session.AddListing | App.tsx:35-38 | appends the record after every earlier one, hides the listing modal and changes nothing else |
| Session.Submit | App.tsx:132-152 | a rejected submit changes no slot, and only a rejected one leaves the state as it was; an accepted one appends one record holding the draft and the image slot, keeps every earlier record at its index, clears the draft, hides the listing modal and keeps the image, the expansion and the filter flag |
| Session.Step | App.tsx:14-38 | no event removes or edits a record, and each event appends at most one; an enabled event keeps the session invariant: the expanded row is a rendered row and at most one modal is shown |
| Session.Run | App.tsx:35-36 | after any sequence of events the earlier listings are a prefix of the new ones |
| Session.Appended | App.tsx:133-146 | every record a sequence of events appends came from a draft with all five fields filled |
| Session.RunAppends | App.tsx:35-36 | after any events, the listings are the earlier listings followed by exactly the accepted records, in submit order |
| Session.RunPreservesInv | App.tsx:64-67 | along any trace of enabled events, an expanded index stays below the number of listings and at most one modal is shown |
| Session.ExpandedRowExists | App.tsx:64-67 | from the first render, an expanded index is always below the number of listings |
| Session.InitialState | App.tsx:8-12 | the first render has no listings, no expanded row, no image, both modals hidden and all five draft fields `""` |
| Session.SourceIrrelevant | App.tsx:19-33 | gallery and camera responses step the session identically |
| Session.ImageOnlyFromPicker | App.tsx:19-33 | no event except a picker response with assets changes the image slot |
| Session.CloseKeepsDraft | App.tsx:17 | closing the listing modal hides it and keeps the typed draft |
| Session.NextListingInheritsImage | App.tsx:138-151 | submitting, reopening the modal, typing a new complete draft and submitting again is a possible trace, and its second record carries the same image slot as the first |
| Components.ListingModal.constructor | App.tsx:126-130 | all five draft slots start as `""` |
| Components.ListingModal.ChangeText | App.tsx:164-220 | an input's setter replaces that one draft field |
| Components.ListingModal.HandlePressSubmit | App.tsx:132-152 | returns the submit decision for the old draft and image, and moves both components' slots exactly as `Session.Submit` does, keeping the row invariant |
| Components.App.constructor | App.tsx:8-12 | the two components start in `Session.Initial` |
| Components.App.HandleFilterPress | App.tsx:14 | with no modal shown, shows the filter modal and changes nothing else |
| Components.App.HandleCloseFilterModal | App.tsx:15 | hides the filter modal and changes nothing else |
| Components.App.HandleCreateListingPress | App.tsx:16 | with no modal shown, shows the listing modal and changes nothing else |
| Components.App.HandleCloseListingModal | App.tsx:17 | hides the listing modal and keeps the draft |
| Components.App.OnImageLibraryResponse | App.tsx:19-25 | the image slot becomes `PickedUri` of the old slot and the gallery response; nothing else changes |
| Components.App.OnCameraResponse | App.tsx:27-33 | the same for a camera response |
| Components.App.SelectRow | App.tsx:63-67 | on a rendered row with no modal shown, the expansion becomes `Toggle` of the old one; nothing else changes |
| Components.App.HandleAddListing | App.tsx:35-38 | appends the record at the end and hides the listing modal |
| Components.FillAndSubmit | App.tsx:164-220 | opening the listing modal if hidden, typing a draft and pressing Submit yields `Validate` of that draft and the submit step |
| Components.ThreeSubmits | App.tsx:35-36 | three accepted submits from the first render store the three records in submit order |

## Left out

- Rendering is not modelled: the JSX, `FlatList`, `Modal`, `ScrollView` and the `StyleSheet` table are presentation only.
- `launchImageLibrary` and `launchCamera` are not modelled because they are foreign, asynchronous calls.
  A response is an input to the callback methods.
- `alert` is not modelled. The submit guard's alert becomes the returned `Failure` message.
  The "Your Listings", "Chats" and filter-option buttons only raise alerts, so they are not modelled.
- No filter predicate is modelled. The filter modal has no logic, and its Update button only closes the modal (`HandleCloseFilterModal`).
- `keyExtractor` and the numeric keyboard hint are not modelled because they only affect rendering and input.
- `null` and `undefined` are both `None`. An asset whose `uri` is missing writes `None` into the image slot.
- React's batching of state updates and stale closures are not modelled.
  Each handler runs to completion and sees the state committed by the previous event, as happens with one user action per render.
- A worth field might be expected to be trimmed and parsed as a number, and errors to name the missing field. The code does none of this, so the model does none of it.
- Records cannot be deleted or edited, and they have no identifier except their position. Nothing resets the expansion on deletion, because nothing deletes.
