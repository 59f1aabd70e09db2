/** The backend's `/models` endpoint: it forwards a search to the upstream
    catalog with a fixed set of query parameters and flattens each returned
    item into the few fields the client shows. The upstream request itself is
    not modelled; its parsed JSON body is an input. */
module SearchModels {
  import opened Wrappers
  import opened Catalog

  /** Defaults of the endpoint's `limit` and `page` arguments. */
  const DefaultLimit: int := 10
  const DefaultPage: int := 1

  /** The upstream catalog is asked for LoRA models only. */
  const LoraType: string := "LORA"

  datatype ParamValue = IntParam(n: int) | TextParam(text: string)

  /** Python's `if query:` on an optional string: present and non-empty. */
  predicate Truthy(query: Option<string>) {
    query.Some? && query.value != ""
  }

  /** Builds the upstream query parameters from the endpoint's arguments
      (`None` for an argument the request did not give). */
  method BuildParams(query: Option<string>, limit: Option<int>, page: Option<int>)
    returns (params: map<string, ParamValue>)
    ensures params.Keys == {"limit", "page", "types"} + (if Truthy(query) then {"query"} else {})
    ensures params["limit"] == IntParam(if limit.Some? then limit.value else DefaultLimit)
    ensures params["page"] == IntParam(if page.Some? then page.value else DefaultPage)
    ensures params["types"] == TextParam(LoraType)
    ensures "query" in params ==> params["query"] == TextParam(query.value)
  {
    params := map[
      "limit" := IntParam(limit.GetOr(DefaultLimit)),
      "page" := IntParam(page.GetOr(DefaultPage)),
      "types" := TextParam(LoraType)
    ];
    if query.Some? && query.value != "" {
      params := params["query" := TextParam(query.value)];
    }
  }

  /** `item["creator"]`: the model's author. */
  datatype Creator = Creator(username: Option<string>)

  /** One element of the upstream response's `items`. */
  datatype Item = Item(id: int, name: string, creator: Option<Creator>, modelVersions: Option<seq<Version>>)

  /** The upstream response body. */
  datatype UpstreamPage = UpstreamPage(items: Option<seq<Item>>)

  /** What the endpoint returns for one item. */
  datatype SimplifiedModel = SimplifiedModel(
    id: int,
    name: string,
    creatorName: string,
    modelVersions: seq<Version>,
    imageUrl: Option<Url>)

  /** The first version exists and has a non-empty `images` list. */
  predicate HasFirstImage(versions: seq<Version>) {
    |versions| > 0 && versions[0].images.Some? && |versions[0].images.value| > 0
  }

  /** `model` is the simplification of `item`, field by field. */
  ghost predicate SimplifiedFrom(item: Item, model: SimplifiedModel) {
    && model.id == item.id
    && model.name == item.name
    && (if item.creator.Some? && item.creator.value.username.Some?
        then model.creatorName == item.creator.value.username.value
        else model.creatorName == "Unknown")
    && (if item.modelVersions.Some? then model.modelVersions == item.modelVersions.value
        else model.modelVersions == [])
    && (model.imageUrl.Some? <==> HasFirstImage(model.modelVersions))
    && (model.imageUrl.Some? ==> model.imageUrl.value == model.modelVersions[0].images.value[0].url)
  }

  /** The item list, empty when the response has no `items`. */
  function ItemsOf(data: UpstreamPage): seq<Item> {
    data.items.GetOr([])
  }

  /** The loop that flattens every upstream item into a simplified model. */
  method SimplifyItems(data: UpstreamPage) returns (models: seq<SimplifiedModel>)
    ensures |models| == |ItemsOf(data)|
    ensures data.items.None? ==> models == []
    ensures forall i :: 0 <= i < |models| ==> SimplifiedFrom(ItemsOf(data)[i], models[i])
  {
    models := [];
    var items := data.items.GetOr([]);
    var i := 0;
    while i < |items|
      invariant 0 <= i <= |items|
      invariant |models| == i
      invariant forall k :: 0 <= k < i ==> SimplifiedFrom(items[k], models[k])
    {
      var item := items[i];
      var creatorName := if item.creator.Some? then item.creator.value.username.GetOr("Unknown") else "Unknown";
      var versions := item.modelVersions.GetOr([]);
      var imageUrl: Option<Url>;
      if |versions| > 0 {
        var images := versions[0].images.GetOr([]);
        if |images| > 0 {
          imageUrl := Some(images[0].url);
        } else {
          imageUrl := None;
        }
      } else {
        imageUrl := None;
      }
      models := models + [SimplifiedModel(item.id, item.name, creatorName, versions, imageUrl)];
      i := i + 1;
    }
  }

  /** The simplification is fully determined by the item. */
  lemma SimplifiedFromUnique(item: Item, a: SimplifiedModel, b: SimplifiedModel)
    requires SimplifiedFrom(item, a) && SimplifiedFrom(item, b)
    ensures a == b
  {
  }

  /** The preview image comes from the first version only: items that agree on
      their first version get the same `imageUrl`, whatever their later
      versions hold. */
  lemma LaterVersionsIgnored(item1: Item, m1: SimplifiedModel, item2: Item, m2: SimplifiedModel)
    requires SimplifiedFrom(item1, m1) && SimplifiedFrom(item2, m2)
    requires item1.modelVersions.Some? && |item1.modelVersions.value| > 0
    requires item2.modelVersions.Some? && |item2.modelVersions.value| > 0
    requires item1.modelVersions.value[0] == item2.modelVersions.value[0]
    ensures m1.imageUrl == m2.imageUrl
  {
  }
}
