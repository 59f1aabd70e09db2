/** The container detail page's image-selection state: a two-level map from a
    model id to the image URLs ticked for that model. A URL is stored with the
    value `true` when ticked and its key is deleted when unticked. Model ids are
    JavaScript property keys, hence strings. */
module Selection {
  import opened Catalog

  type ModelKey = string

  type Selection = map<ModelKey, map<Url, bool>>

  /** `selectedImages[modelId] || {}`: the inner map of one model. */
  function ImagesFor(sel: Selection, modelId: ModelKey): map<Url, bool> {
    if modelId in sel then sel[modelId] else map[]
  }

  /** `selectedImages[modelId][url]` is truthy. */
  predicate IsSelected(sel: Selection, modelId: ModelKey, url: Url) {
    var images := ImagesFor(sel, modelId);
    url in images && images[url]
  }

  /** The URLs currently ticked for one model. */
  function SelectedUrls(sel: Selection, modelId: ModelKey): set<Url> {
    set url | url in ImagesFor(sel, modelId) && ImagesFor(sel, modelId)[url]
  }

  /** Every stored inner value is `true`: the page never stores `false`. */
  predicate OnlyTrueStored(sel: Selection) {
    forall m, url :: m in sel && url in sel[m] ==> sel[m][url]
  }

  /** The state after `handleImageSelect(modelId, url, isSelected)`. */
  function SelectImage(sel: Selection, modelId: ModelKey, url: Url, isSelected: bool): (r: Selection)
    ensures r.Keys == sel.Keys + {modelId}
    ensures IsSelected(r, modelId, url) == isSelected
    ensures !isSelected ==> url !in r[modelId]
    ensures forall u :: u != url ==>
      (u in r[modelId] <==> u in ImagesFor(sel, modelId)) &&
      (u in r[modelId] ==> r[modelId][u] == ImagesFor(sel, modelId)[u])
    ensures forall m :: m != modelId && m in sel ==> m in r && r[m] == sel[m]
  {
    var images := ImagesFor(sel, modelId);
    sel[modelId := if isSelected then images[url := true] else images - {url}]
  }

  /** Selecting or deselecting one image changes the selected set of that
      model by exactly that URL. */
  lemma SelectedUrlsAfter(sel: Selection, modelId: ModelKey, url: Url, isSelected: bool)
    ensures SelectedUrls(SelectImage(sel, modelId, url, isSelected), modelId)
         == if isSelected then SelectedUrls(sel, modelId) + {url} else SelectedUrls(sel, modelId) - {url}
  {
  }

  /** Selection is keyed by the pair (model id, URL): an update leaves every
      other pair as it was, in particular the same URL under another model. */
  lemma OtherPairsUnchanged(sel: Selection, modelId: ModelKey, url: Url, isSelected: bool, m: ModelKey, u: Url)
    requires m != modelId || u != url
    ensures IsSelected(SelectImage(sel, modelId, url, isSelected), m, u) == IsSelected(sel, m, u)
  {
  }

  /** The page only ever stores `true`, so a selection built by updates
      from the empty state has no `false` entries. */
  lemma SelectImageKeepsOnlyTrue(sel: Selection, modelId: ModelKey, url: Url, isSelected: bool)
    requires OnlyTrueStored(sel)
    ensures OnlyTrueStored(SelectImage(sel, modelId, url, isSelected))
  {
  }

  /** Repeating the same update changes nothing more. */
  lemma SelectImageIdempotent(sel: Selection, modelId: ModelKey, url: Url, isSelected: bool)
    ensures SelectImage(SelectImage(sel, modelId, url, isSelected), modelId, url, isSelected)
         == SelectImage(sel, modelId, url, isSelected)
  {
    var r := SelectImage(sel, modelId, url, isSelected);
    var images := ImagesFor(sel, modelId);
    var inner := if isSelected then images[url := true] else images - {url};
    assert ImagesFor(r, modelId) == inner;
    if isSelected {
      assert inner[url := true] == inner;
    } else {
      assert inner - {url} == inner;
    }
  }

  /** Ticking an unticked image and then unticking it restores the state,
      provided the model already had an entry. */
  lemma SelectThenDeselect(sel: Selection, modelId: ModelKey, url: Url)
    requires modelId in sel && url !in sel[modelId]
    ensures SelectImage(SelectImage(sel, modelId, url, true), modelId, url, false) == sel
  {
    var r := SelectImage(sel, modelId, url, true);
    assert ImagesFor(r, modelId) == sel[modelId][url := true];
    assert sel[modelId][url := true] - {url} == sel[modelId];
  }
}
