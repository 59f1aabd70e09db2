/** The container detail page: it finds its container in the garden by the
    route's (already decoded) name, loads the container's models, keeps the
    image selection and produces the generation output. */
module ContainerDetailPage {
  import opened Wrappers
  import opened Catalog
  import opened Selection
  import opened PromptAssembly

  /** A model reference as listed in a container. */
  type LoraRef = string

  datatype Container = Container(name: string, loRAs: seq<LoraRef>)

  datatype Garden = Garden(containers: seq<Container>)

  /** Index `i` holds the first container named `name`. */
  predicate FirstNamedAt(containers: seq<Container>, name: string, i: int) {
    0 <= i < |containers| && containers[i].name == name &&
    forall j :: 0 <= j < i ==> containers[j].name != name
  }

  /** `garden.containers.find(c => c.name === name)`: the first container
      with exactly that name, or none. */
  function FindContainer(containers: seq<Container>, name: string): (r: Option<Container>)
    ensures r.None? <==> forall i :: 0 <= i < |containers| ==> containers[i].name != name
    ensures r.Some? ==> exists i :: FirstNamedAt(containers, name, i) && containers[i] == r.value
  {
    if containers == [] then None
    else if containers[0].name == name then Some(containers[0])
    else
      var rest := FindContainer(containers[1..], name);
      if rest.Some? then
        ghost var i :| FirstNamedAt(containers[1..], name, i) && containers[1..][i] == rest.value;
        assert FirstNamedAt(containers, name, i + 1);
        assert containers[i + 1] == rest.value;
        rest
      else rest
  }

  /** Every model reference of the container has a successful response. */
  predicate AllResolved(refs: seq<LoraRef>, responses: map<LoraRef, LoadedModel>) {
    forall i :: 0 <= i < |refs| ==> refs[i] in responses
  }

  /** The state of one mounted page. */
  class Page {
    /** The route's container name, after percent-decoding. */
    const decodedContainerName: string
    /** The loaded models, in the container's order. */
    var loRAs: seq<LoadedModel>
    var selectedImages: Selection
    /** What the output box shows, before it is serialised; None while empty. */
    var output: Option<seq<ModelRecord>>

    /** The page stores only `true` in its selection. */
    predicate Valid()
      reads this
    {
      OnlyTrueStored(selectedImages)
    }

    constructor (decodedContainerName: string)
      ensures this.decodedContainerName == decodedContainerName
      ensures Valid()
      ensures loRAs == [] && selectedImages == map[] && output == None
    {
      this.decodedContainerName := decodedContainerName;
      loRAs := [];
      selectedImages := map[];
      output := None;
    }

    /** `fetchContainerData` with its responses given: the garden, and the
        model responses that arrived (an absent key is a failed request).
        Waiting on all requests together fails as a whole when any one fails,
        and then the loaded models stay as they were. */
    method FetchContainerData(garden: Garden, responses: map<LoraRef, LoadedModel>)
      requires Valid()
      modifies this
      ensures Valid()
      ensures selectedImages == old(selectedImages) && output == old(output)
      ensures var c := FindContainer(garden.containers, decodedContainerName);
        if c.Some? && AllResolved(c.value.loRAs, responses) then
          |loRAs| == |c.value.loRAs| &&
          forall i :: 0 <= i < |loRAs| ==> loRAs[i] == responses[c.value.loRAs[i]]
        else loRAs == old(loRAs)
    {
      var container := FindContainer(garden.containers, decodedContainerName);
      if container.None? {
        return;
      }
      var refs := container.value.loRAs;
      if !AllResolved(refs, responses) {
        return;
      }
      loRAs := seq(|refs|, i requires 0 <= i < |refs| && AllResolved(refs, responses) => responses[refs[i]]);
    }

    /** `handleImageSelect`: updates the inner map of one model, then
        replaces that model's entry in the outer map. */
    method HandleImageSelect(modelId: ModelKey, imageUrl: Url, isSelected: bool)
      requires Valid()
      modifies this
      ensures Valid()
      ensures selectedImages == SelectImage(old(selectedImages), modelId, imageUrl, isSelected)
      ensures loRAs == old(loRAs) && output == old(output)
    {
      var imagesForModel := ImagesFor(selectedImages, modelId);
      if isSelected {
        imagesForModel := imagesForModel[imageUrl := true];
      } else {
        imagesForModel := imagesForModel - {imageUrl};
      }
      SelectImageKeepsOnlyTrue(selectedImages, modelId, imageUrl, isSelected);
      selectedImages := selectedImages[modelId := imagesForModel];
    }

    /** `handleGenerate`: on success the output box shows one record per
        loaded model; a TypeError leaves it as it was. */
    method HandleGenerate()
      requires Valid()
      modifies this
      ensures Valid()
      ensures loRAs == old(loRAs) && selectedImages == old(selectedImages)
      ensures var g := Generate(loRAs, selectedImages);
        output == if g.Success? then Some(g.value) else old(output)
    {
      var outputData := GenerateRecords(loRAs, selectedImages);
      if outputData.Success? {
        output := Some(outputData.value);
      }
    }
  }
}
