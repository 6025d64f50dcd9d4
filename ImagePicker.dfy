/** How the gallery and camera callbacks consume a picker response
    (App.tsx:19-33). The pickers themselves are foreign calls and are not
    modelled; their response is an input value. */
module ImagePicker {
  import opened Wrappers

  /** Where the response came from: `launchImageLibrary` or `launchCamera`. */
  datatype Source = Gallery | Camera

  /** One picked asset; its `uri` may be absent in the picker's response. */
  datatype Asset = Asset(uri: Option<string>)

  /** The response object; `assets` is absent when the user cancels or the
      picker fails. */
  datatype Response = Response(assets: Option<seq<Asset>>)

  /** The guard `response.assets && response.assets.length > 0`. */
  predicate HasAssets(resp: Response)
  {
    resp.assets.Some? && |resp.assets.value| > 0
  }

  /** The image slot after a callback (App.tsx:21-23, App.tsx:29-31; both
      callbacks have the same body): only a response with assets changes the
      slot, and then to the first asset's URI. */
  function PickedUri(current: Option<string>, resp: Response): (r: Option<string>)
    ensures r == current || (HasAssets(resp) && r == resp.assets.value[0].uri)
    ensures HasAssets(resp) ==> r == resp.assets.value[0].uri
  {
    if HasAssets(resp) then resp.assets.value[0].uri else current
  }

  /** A response without assets (absent or empty list) changes nothing. */
  lemma NoAssetsKeepsImage(current: Option<string>, resp: Response)
    requires resp.assets.None? || resp.assets.value == []
    ensures PickedUri(current, resp) == current
  {
  }

  /** A response with assets writes the first asset's URI, whatever was there. */
  lemma FirstAssetWins(current: Option<string>, a: Asset, rest: seq<Asset>)
    ensures PickedUri(current, Response(Some([a] + rest))) == a.uri
  {
  }

  /** Last write wins: after a second non-empty pick, the first pick and the
      slot before it are forgotten. */
  lemma LastPickWins(c1: Option<string>, c2: Option<string>, r1: Response, r2: Response)
    requires HasAssets(r2)
    ensures PickedUri(PickedUri(c1, r1), r2) == PickedUri(c2, r2)
  {
  }
}
