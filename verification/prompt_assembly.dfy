/** The "Generate" step of the container detail page: one record per loaded
    model, carrying its trigger words and the prompts of the sample images the
    user ticked for it. */
module PromptAssembly {
  import opened Wrappers
  import opened Catalog
  import opened Selection

  /** A model as the page holds it after loading it from `/models/{id}`. */
  datatype LoadedModel = LoadedModel(
    id: ModelKey,
    name: string,
    description: Option<string>,
    modelVersions: Option<seq<Version>>)

  /** One element of the generated output. */
  datatype ModelRecord = ModelRecord(
    id: ModelKey,
    name: string,
    description: Option<string>,
    trainedWords: seq<string>,
    selectedImagePrompts: seq<string>)

  /** The source throws a TypeError when it walks a missing
      `modelVersions` or a missing `images` list. */
  datatype GenerateError = TypeError

  /** Every version has an `images` list. */
  predicate AllHaveImages(versions: seq<Version>) {
    forall i :: 0 <= i < |versions| ==> versions[i].images.Some?
  }

  /** A model whose versions and images can be walked without a TypeError. */
  predicate Walkable(model: LoadedModel) {
    model.modelVersions.Some? && AllHaveImages(model.modelVersions.value)
  }

  /** An image adds its prompt when its URL is ticked and its `meta.prompt`
      is present and non-empty. */
  predicate Contributes(image: Image, chosen: map<Url, bool>) {
    && image.url in chosen && chosen[image.url]
    && image.meta.Some? && image.meta.value.prompt.Some?
    && image.meta.value.prompt.value != ""
  }

  /** The prompts of the contributing images, in the order of `images`. */
  function PromptsOf(images: seq<Image>, chosen: map<Url, bool>): (r: seq<string>)
    ensures |r| <= |images|
    ensures forall k :: 0 <= k < |r| ==> r[k] != ""
    ensures (forall i :: 0 <= i < |images| ==> !Contributes(images[i], chosen)) ==> r == []
  {
    if images == [] then []
    else
      var first := if Contributes(images[0], chosen) then [images[0].meta.value.prompt.value] else [];
      first + PromptsOf(images[1..], chosen)
  }

  /** All images of all versions: version order, then image order. */
  function AllImages(versions: seq<Version>): (r: seq<Image>)
    requires AllHaveImages(versions)
    ensures forall i, j :: 0 <= i < |versions| && 0 <= j < |versions[i].images.value| ==>
      versions[i].images.value[j] in r
    ensures forall image :: image in r ==>
      exists i :: 0 <= i < |versions| && image in versions[i].images.value
  {
    if versions == [] then []
    else AllImages(versions[..|versions| - 1]) + versions[|versions| - 1].images.value
  }

  /** `modelVersions.flatMap(v => v.trainedWords)`. */
  function TrainedWords(versions: seq<Version>): (r: seq<string>)
    ensures forall i, k :: 0 <= i < |versions| && 0 <= k < |versions[i].trainedWords| ==>
      versions[i].trainedWords[k] in r
    ensures forall w :: w in r ==> exists i :: 0 <= i < |versions| && w in versions[i].trainedWords
  {
    if versions == [] then []
    else versions[0].trainedWords + TrainedWords(versions[1..])
  }

  /** The record produced for one model. */
  function RecordOf(model: LoadedModel, sel: Selection): (r: ModelRecord)
    requires Walkable(model)
    ensures r.id == model.id && r.name == model.name && r.description == model.description
    ensures |r.selectedImagePrompts| <= |AllImages(model.modelVersions.value)|
    ensures forall k :: 0 <= k < |r.selectedImagePrompts| ==> r.selectedImagePrompts[k] != ""
  {
    var versions := model.modelVersions.value;
    ModelRecord(model.id, model.name, model.description,
                TrainedWords(versions),
                PromptsOf(AllImages(versions), ImagesFor(sel, model.id)))
  }

  /** The outcome of `handleGenerate`: a TypeError as soon as any model cannot
      be walked, otherwise one record per model in the same order. */
  function Generate(models: seq<LoadedModel>, sel: Selection): Result<seq<ModelRecord>, GenerateError> {
    if forall i :: 0 <= i < |models| ==> Walkable(models[i]) then
      Success(seq(|models|, i requires 0 <= i < |models| => RecordOf(models[i], sel)))
    else
      Failure(TypeError)
  }

  // ---------------------------------------------------------------------
  // Properties of the prompt collection

  /** Collecting over two lists one after the other is the concatenation
      of the two collections: order is preserved. */
  lemma {:induction false} PromptsOfAppend(a: seq<Image>, b: seq<Image>, chosen: map<Url, bool>)
    ensures PromptsOf(a + b, chosen) == PromptsOf(a, chosen) + PromptsOf(b, chosen)
  {
    if a == [] {
      assert a + b == b;
    } else {
      assert (a + b)[1..] == a[1..] + b;
      PromptsOfAppend(a[1..], b, chosen);
    }
  }

  /** A one-image list yields its prompt exactly when it contributes. With
      PromptsOfAppend this determines PromptsOf completely. */
  lemma PromptsOfSingle(image: Image, chosen: map<Url, bool>)
    ensures PromptsOf([image], chosen) ==
      if Contributes(image, chosen) then [image.meta.value.prompt.value] else []
  {
  }

  /** A prompt appears in the result exactly when some contributing image
      carries it. */
  lemma {:induction false} PromptsOfMembers(images: seq<Image>, chosen: map<Url, bool>, p: string)
    ensures p in PromptsOf(images, chosen) <==>
      exists i :: 0 <= i < |images| && Contributes(images[i], chosen) && images[i].meta.value.prompt.value == p
  {
    if images != [] {
      PromptsOfMembers(images[1..], chosen, p);
      if p in PromptsOf(images[1..], chosen) {
        var i :| 0 <= i < |images[1..]| && Contributes(images[1..][i], chosen) && images[1..][i].meta.value.prompt.value == p;
        assert images[i + 1] == images[1..][i];
      }
      forall i | 1 <= i < |images| && Contributes(images[i], chosen) && images[i].meta.value.prompt.value == p
        ensures p in PromptsOf(images[1..], chosen)
      {
        assert images[1..][i - 1] == images[i];
      }
    }
  }

  /** A ticked image without `meta`, or with a missing or empty prompt, adds
      nothing wherever it stands. */
  lemma NoPromptContributesNothing(before: seq<Image>, image: Image, after: seq<Image>, chosen: map<Url, bool>)
    requires image.meta.None? || image.meta.value.prompt.None? || image.meta.value.prompt.value == ""
    ensures PromptsOf(before + [image] + after, chosen) == PromptsOf(before + after, chosen)
  {
    PromptsOfAppend(before + [image], after, chosen);
    PromptsOfAppend(before, [image], chosen);
    PromptsOfSingle(image, chosen);
    PromptsOfAppend(before, after, chosen);
  }

  /** All images of a version list split along a split of the versions. */
  lemma {:induction false} AllImagesAppend(a: seq<Version>, b: seq<Version>)
    requires AllHaveImages(a) && AllHaveImages(b)
    ensures AllHaveImages(a + b)
    ensures AllImages(a + b) == AllImages(a) + AllImages(b)
  {
    if b != [] {
      var n := |b| - 1;
      assert (a + b)[..|a + b| - 1] == a + b[..n];
      AllImagesAppend(a, b[..n]);
    } else {
      assert a + b == a;
    }
  }

  /** The prompts of a model are those of its first versions followed by
      those of its later ones: version order, then image order. */
  lemma VersionOrder(a: seq<Version>, b: seq<Version>, chosen: map<Url, bool>)
    requires AllHaveImages(a) && AllHaveImages(b)
    ensures AllHaveImages(a + b)
    ensures PromptsOf(AllImages(a + b), chosen) == PromptsOf(AllImages(a), chosen) + PromptsOf(AllImages(b), chosen)
  {
    AllImagesAppend(a, b);
    PromptsOfAppend(AllImages(a), AllImages(b), chosen);
  }

  /** `flatMap` over two version lists is the concatenation. */
  lemma {:induction false} TrainedWordsAppend(a: seq<Version>, b: seq<Version>)
    ensures TrainedWords(a + b) == TrainedWords(a) + TrainedWords(b)
  {
    if a == [] {
      assert a + b == b;
    } else {
      assert (a + b)[1..] == a[1..] + b;
      TrainedWordsAppend(a[1..], b);
    }
  }

  // ---------------------------------------------------------------------
  // Properties of the generated records

  /** One record per loaded model, same order, each copying the model's id,
      name and description. */
  lemma OneRecordPerModel(models: seq<LoadedModel>, sel: Selection)
    requires forall i :: 0 <= i < |models| ==> Walkable(models[i])
    ensures Generate(models, sel).Success?
    ensures |Generate(models, sel).value| == |models|
    ensures forall i :: 0 <= i < |models| ==>
      var rec := Generate(models, sel).value[i];
      rec.id == models[i].id && rec.name == models[i].name && rec.description == models[i].description
    ensures forall i :: 0 <= i < |models| ==> Generate(models, sel).value[i] == RecordOf(models[i], sel)
  {
  }

  /** The generation fails exactly when some model lacks `modelVersions`
      or has a version without `images`. */
  lemma GenerateFailsIff(models: seq<LoadedModel>, sel: Selection)
    ensures Generate(models, sel).Failure? <==>
      exists i :: 0 <= i < |models| && (models[i].modelVersions.None? ||
        exists j :: 0 <= j < |models[i].modelVersions.value| && models[i].modelVersions.value[j].images.None?)
  {
  }

  /** A model with nothing ticked keeps its record, with no prompts. */
  lemma UnselectedModelKept(model: LoadedModel, sel: Selection)
    requires Walkable(model)
    requires SelectedUrls(sel, model.id) == {}
    ensures RecordOf(model, sel).selectedImagePrompts == []
    ensures RecordOf(model, sel).id == model.id
  {
    var images := AllImages(model.modelVersions.value);
    var chosen := ImagesFor(sel, model.id);
    forall i | 0 <= i < |images| ensures !Contributes(images[i], chosen) {
      assert images[i].url !in SelectedUrls(sel, model.id);
    }
  }

  /** A record's prompts are exactly the non-empty prompts of the images
      ticked for that model, and its trigger words are every version's. */
  lemma RecordContents(model: LoadedModel, sel: Selection, p: string)
    requires Walkable(model)
    ensures var images := AllImages(model.modelVersions.value);
      p in RecordOf(model, sel).selectedImagePrompts <==>
        exists i :: 0 <= i < |images| && IsSelected(sel, model.id, images[i].url)
          && images[i].meta.Some? && images[i].meta.value.prompt == Some(p) && p != ""
    ensures RecordOf(model, sel).trainedWords == TrainedWords(model.modelVersions.value)
  {
    var images := AllImages(model.modelVersions.value);
    PromptsOfMembers(images, ImagesFor(sel, model.id), p);
  }

  /** One step of the inner loop: the image at `j` adds its prompt or nothing. */
  lemma PromptsStep(images: seq<Image>, j: nat, chosen: map<Url, bool>)
    requires j < |images|
    ensures PromptsOf(images[..j + 1], chosen) == PromptsOf(images[..j], chosen) +
      if Contributes(images[j], chosen) then [images[j].meta.value.prompt.value] else []
  {
    assert images[..j + 1] == images[..j] + [images[j]];
    PromptsOfAppend(images[..j], [images[j]], chosen);
    PromptsOfSingle(images[j], chosen);
  }

  /** One step of the outer loop: a further version adds its images at the end. */
  lemma AllImagesStep(versions: seq<Version>, i: nat)
    requires i < |versions| && AllHaveImages(versions[..i + 1])
    ensures AllHaveImages(versions[..i])
    ensures AllImages(versions[..i + 1]) == AllImages(versions[..i]) + versions[i].images.value
  {
    assert versions[..i + 1][..i] == versions[..i];
  }

  // ---------------------------------------------------------------------
  // The imperative collection, as the page's nested loops perform it

  /** The inner `version.images.forEach`: pushes onto `prompts` the prompt of
      every contributing image, in order. */
  method PushImagePrompts(images: seq<Image>, chosen: map<Url, bool>, prompts: seq<string>)
    returns (r: seq<string>)
    ensures r == prompts + PromptsOf(images, chosen)
  {
    r := prompts;
    var j := 0;
    while j < |images|
      invariant 0 <= j <= |images|
      invariant r == prompts + PromptsOf(images[..j], chosen)
    {
      var image := images[j];
      PromptsStep(images, j, chosen);
      if image.url in chosen && chosen[image.url] {
        if image.meta.Some? && image.meta.value.prompt.Some? && image.meta.value.prompt.value != "" {
          r := r + [image.meta.value.prompt.value];
        }
      }
      j := j + 1;
    }
    assert images[..j] == images;
  }

  /** The outer `modelVersions.forEach`: walks the versions in order, failing
      on the first version without an `images` list. */
  method CollectSelectedPrompts(versions: seq<Version>, chosen: map<Url, bool>)
    returns (r: Result<seq<string>, GenerateError>)
    ensures r.Success? <==> AllHaveImages(versions)
    ensures r.Success? ==> r.value == PromptsOf(AllImages(versions), chosen)
  {
    var prompts: seq<string> := [];
    var i := 0;
    while i < |versions|
      invariant 0 <= i <= |versions|
      invariant AllHaveImages(versions[..i])
      invariant prompts == PromptsOf(AllImages(versions[..i]), chosen)
    {
      if versions[i].images.None? {
        return Failure(TypeError);
      }
      var images := versions[i].images.value;
      ghost var before := AllImages(versions[..i]);
      prompts := PushImagePrompts(images, chosen, prompts);
      assert AllHaveImages(versions[..i + 1]);
      AllImagesStep(versions, i);
      PromptsOfAppend(before, images, chosen);
      i := i + 1;
    }
    assert versions[..i] == versions;
    return Success(prompts);
  }

  /** `loRAs.map(...)`: builds the records model by model. */
  method GenerateRecords(models: seq<LoadedModel>, sel: Selection)
    returns (r: Result<seq<ModelRecord>, GenerateError>)
    ensures r == Generate(models, sel)
  {
    var records: seq<ModelRecord> := [];
    var i := 0;
    while i < |models|
      invariant 0 <= i <= |models|
      invariant forall k :: 0 <= k < i ==> Walkable(models[k])
      invariant |records| == i
      invariant forall k :: 0 <= k < i ==> records[k] == RecordOf(models[k], sel)
    {
      var model := models[i];
      var chosen := ImagesFor(sel, model.id);
      if model.modelVersions.None? {
        return Failure(TypeError);
      }
      var versions := model.modelVersions.value;
      var prompts := CollectSelectedPrompts(versions, chosen);
      if prompts.Failure? {
        return Failure(TypeError);
      }
      records := records + [ModelRecord(model.id, model.name, model.description,
                                        TrainedWords(versions), prompts.value)];
      i := i + 1;
    }
    assert records == seq(|models|, k requires 0 <= k < |models| => RecordOf(models[k], sel));
    return Success(records);
  }
}
