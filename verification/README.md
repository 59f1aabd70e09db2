# LoRA Garden: selection, prompt assembly and catalog normalisation

LoRA Garden is a browser client for organising LoRA models from a remote
catalog into named containers inside a personal garden. Most of it is
screens and HTTP plumbing. This project models the two data transformations
inside it and proves properties about them.

- **Container detail page** (`frontend/src/pages/ContainerDetailPage.js`).
  - The page finds its container by exact name.
  - It keeps a two-level selection map from a model id to the image URLs
    ticked for that model (`handleImageSelect`).
  - On "Generate" it builds one record per loaded model
    (`handleGenerate`). A record holds the model's id, name and description,
    the trigger words of all its versions, and the prompts of the ticked
    sample images.
- **Catalog search endpoint** (`backend/main.py`, `search_models`).
  - It builds the upstream query-parameter map.
  - It flattens each upstream item into `{id, name, creatorName,
    modelVersions, imageUrl}`.

Modules:

- `Wrappers`: `Option` and `Result`.
- `Catalog`: the JSON shapes both sides read: versions, images and image
  metadata. A field that a reader treats as optional is an `Option`.
- `Selection`: the selection map and its update, as functions and lemmas.
- `PromptAssembly`: the records of `handleGenerate`. Specification
  functions (`PromptsOf`, `AllImages`, `TrainedWords`, `RecordOf`,
  `Generate`) sit beside the methods that run the source's loops
  (`PushImagePrompts`, `CollectSelectedPrompts`, `GenerateRecords`). Each
  method is proved against those functions.
- `ContainerDetailPage`: the container lookup, plus a `Page` class. The
  class holds the page's state (`loRAs`, `selectedImages`, the output) and
  has one method per handler.
- `SearchModels`: the parameter map and the item-flattening loop of the
  backend.

Behaviour worth noting:

- A generated record has no `creatorName` and no `imageUrl`. The free-text
  prompt is not part of the output. Nothing is sent anywhere: the records
  go only into the output box.
- Loading a container's models is all-or-nothing. If any one model request
  fails, the joint wait fails and the page keeps its previous (initially
  empty) model list.
- `handleGenerate` does not degrade on every missing field. A loaded model
  without `modelVersions`, or a version without `images`, makes it throw a
  TypeError. The output box is then left unchanged. This is modelled as
  `Failure(TypeError)`.
- The endpoint's default `limit` is 10; the search page sends 20
  (frontend/src/pages/SearchPage.js:24).

## Model

| member | source | states |
|---|---|---|
| `Selection.SelectImage` | frontend/src/pages/ContainerDetailPage.js:48-61 | after selecting (m, u), u is selected under m; after deselecting, the key u is gone from m's inner map; the other URLs under m keep their presence and value; every other model's entry is unchanged; the outer map gains only m |
| `Selection.ImagesFor` | frontend/src/pages/ContainerDetailPage.js:50 | `selectedImages[modelId] \|\| {}`, also read at line 67; no contract of its own: `SelectImage`, `SelectedUrlsAfter` and `OtherPairsUnchanged` state what it yields before and after an update |
| `Selection.SelectedUrlsAfter` | frontend/src/pages/ContainerDetailPage.js:50-55 | the set of URLs selected for m grows by exactly u on select and loses exactly u on deselect |
| `Selection.OtherPairsUnchanged` | frontend/src/pages/ContainerDetailPage.js:56-59 | selection is keyed by the (model id, URL) pair: an update leaves every other pair's state as it was, including the same URL under another model |
| `Selection.SelectImageKeepsOnlyTrue` | frontend/src/pages/ContainerDetailPage.js:51-55 | the update keeps the invariant that every stored inner value is `true`; `Page.HandleImageSelect` uses it to keep `Page.Valid` |
| `Selection.SelectImageIdempotent` | frontend/src/pages/ContainerDetailPage.js:51-55 | repeating the same update gives the same state |
| `Selection.SelectThenDeselect` | frontend/src/pages/ContainerDetailPage.js:51-55 | ticking an unticked image and then unticking it restores the original state when the model already had an entry |
| `PromptAssembly.Contributes` | frontend/src/pages/ContainerDetailPage.js:74-76 | the two tests an image passes before its prompt is pushed; no contract of its own: `PromptsOfSingle` and `PromptsOfMembers` state what it decides |
| `PromptAssembly.PromptsOf` | frontend/src/pages/ContainerDetailPage.js:73-80 | the collected prompts are never empty strings, are no more than the images, and are empty when no image contributes |
| `PromptAssembly.TrainedWords` | frontend/src/pages/ContainerDetailPage.js:87 | every trigger word of every version is in the flattened list, and every word in it comes from some version |
| `PromptAssembly.AllImages` | frontend/src/pages/ContainerDetailPage.js:71-73 | every image of every version is walked, and every image walked belongs to some version; `AllImagesAppend` fixes the order |
| `PromptAssembly.RecordOf` | frontend/src/pages/ContainerDetailPage.js:83-89 | the record copies the model's id, name and description, has no more prompts than the model has images, and none of them empty; `RecordContents` and `UnselectedModelKept` give its prompts and trigger words exactly |
| `PromptAssembly.Generate` | frontend/src/pages/ContainerDetailPage.js:66-90 | the outcome of the `loRAs.map`, TypeError included; no contract of its own: `OneRecordPerModel` and `GenerateFailsIff` state what it yields |
| `PromptAssembly.PromptsOfAppend` | frontend/src/pages/ContainerDetailPage.js:71-81 | collecting over two image lists in turn yields the first list's prompts followed by the second's (order is kept) |
| `PromptAssembly.PromptsOfSingle` | frontend/src/pages/ContainerDetailPage.js:74-78 | one image yields its prompt exactly when its URL is selected and its `meta.prompt` is present and non-empty, else nothing |
| `PromptAssembly.PromptsOfMembers` | frontend/src/pages/ContainerDetailPage.js:74-78 | a prompt is collected if and only if some selected image carries it as a non-empty `meta.prompt` |
| `PromptAssembly.NoPromptContributesNothing` | frontend/src/pages/ContainerDetailPage.js:76-78 | an image without `meta`, or with a missing or empty prompt, adds nothing wherever it stands in the list |
| `PromptAssembly.AllImagesAppend` | frontend/src/pages/ContainerDetailPage.js:71-73 | the images walked for a split version list are those of the first part followed by those of the second |
| `PromptAssembly.VersionOrder` | frontend/src/pages/ContainerDetailPage.js:71-81 | a model's prompts are those of its earlier versions followed by those of its later ones: version order, then image order |
| `PromptAssembly.TrainedWordsAppend` | frontend/src/pages/ContainerDetailPage.js:87 | the flattened trigger words of a split version list are the first part's followed by the second's, in order |
| `PromptAssembly.OneRecordPerModel` | frontend/src/pages/ContainerDetailPage.js:66-90 | when every model can be walked, generation succeeds with exactly one record per loaded model, in the same order; record i copies model i's id, name and description and is `RecordOf(models[i])` |
| `PromptAssembly.GenerateFailsIff` | frontend/src/pages/ContainerDetailPage.js:71-73 | generation fails if and only if some model has no `modelVersions` or some version has no `images` |
| `PromptAssembly.UnselectedModelKept` | frontend/src/pages/ContainerDetailPage.js:67-90 | a model with no selected images still gets its record, with empty `selectedImagePrompts` |
| `PromptAssembly.RecordContents` | frontend/src/pages/ContainerDetailPage.js:66-90 | a record's prompts are exactly the non-empty `meta.prompt` values of images selected under that model's id; its trigger words are the in-order concatenation of all versions' trigger words |
| `PromptAssembly.PushImagePrompts` | frontend/src/pages/ContainerDetailPage.js:73-80 | the inner loop appends to the prompt list exactly the prompts of the contributing images, in image order |
| `PromptAssembly.CollectSelectedPrompts` | frontend/src/pages/ContainerDetailPage.js:71-81 | the nested loops succeed exactly when every version has `images`, and then yield the prompts of all contributing images in version-then-image order |
| `PromptAssembly.GenerateRecords` | frontend/src/pages/ContainerDetailPage.js:66-90 | the per-model loop yields exactly the outcome `Generate` specifies: a TypeError, or one `RecordOf` per model in order |
| `ContainerDetailPage.FindContainer` | frontend/src/pages/ContainerDetailPage.js:22-29 | the result is the first container whose name equals the decoded name, or none exactly when no container has that name |
| `ContainerDetailPage.Page.constructor` | frontend/src/pages/ContainerDetailPage.js:9-12 | a fresh page has no models, an empty selection and an empty output box, and satisfies `Valid` (only `true` stored) |
| `ContainerDetailPage.Page.FetchContainerData` | frontend/src/pages/ContainerDetailPage.js:15-42 | when the container is found and every model request succeeded, the loaded models are the responses in the container's order; otherwise they are unchanged; selection and output are untouched |
| `ContainerDetailPage.Page.HandleImageSelect` | frontend/src/pages/ContainerDetailPage.js:48-61 | the new selection is `SelectImage` of the old one and still stores only `true`; models and output are untouched |
| `ContainerDetailPage.Page.HandleGenerate` | frontend/src/pages/ContainerDetailPage.js:64-94 | on success the output box holds the generated records; on a TypeError it keeps its old content; models and selection are untouched |
| `SearchModels.BuildParams` | backend/main.py:19-31 | the parameter map always holds `limit` (default 10), `page` (default 1) and `types = "LORA"`; it holds `query` if and only if the query is present and non-empty, and then with the query's value |
| `SearchModels.SimplifyItems` | backend/main.py:37-58 | one output model per upstream item, in order, and none when `items` is missing; each copies `id` and `name`; `creatorName` is the creator's username or `"Unknown"`; `modelVersions` defaults to `[]`; `imageUrl` is the first image of the first version when there is one, else null |
| `SearchModels.SimplifiedFromUnique` | backend/main.py:40-54 | the field-by-field description of a flattened item determines it completely |
| `SearchModels.LaterVersionsIgnored` | backend/main.py:47-54 | items that agree on their first version get the same `imageUrl`, whatever their later versions hold |

## Left out

- HTTP calls. The garden request, the per-model requests, `requests.get` and
  `raise_for_status` are not modelled. Their parsed responses are inputs:
  `FetchContainerData` takes the garden and a map of the responses that
  succeeded, and `SimplifyItems` takes the upstream body. A failed upstream
  request (`raise_for_status` raising) is not modelled.
- A failed `/garden` request, or a garden response without `containers`
  (frontend/src/pages/ContainerDetailPage.js:18-22), cannot be given to
  `FetchContainerData`, which always receives a `Garden`. In the source the
  error is caught (lines 39-40) and the page ends exactly as when the
  container is not found: the loaded models stay unchanged.
- `console.error` logging (container not found, fetch errors) is dropped.
- `Promise.all` concurrency. Only its all-or-nothing outcome is modelled;
  the order in which the responses arrive is not.
- `decodeURIComponent`. The page's container name is taken already decoded,
  so percent-encoding round trips are not modelled.
- `JSON.stringify` of the output. The output box holds the record sequence
  itself, not its text.
- Aliasing in `handleImageSelect`. The source mutates the previous state's
  inner object in place and puts that same object into the new outer map.
  The model replaces the inner map by value. The new state is the same
  either way; the model does not show that the discarded previous state is
  mutated too.
- JavaScript property-key details. Model ids are taken as their string key
  form. Inherited object keys are not modelled: an image URL spelled like
  `"constructor"` would read as selected in the source.
- JSON nulls and missing required keys. `Option` stands for "present or
  absent". Python's `.get` returns `None` for a key that is present with a
  null value, and `creator: null` raises. A missing `id`, `name` or image
  `url` raises a KeyError. The types exclude all of these.
- On the frontend, a version without `trainedWords` would add `undefined` to
  the flattened list. The types make `trainedWords` present.
- Query-string order. The backend's parameter map is a `map`, so the
  insertion order (limit, page, types, query) that the URL follows is not
  modelled.
- Rendering, React hooks, toasts and the other screens and components
  (search, garden, delete dialog, model card, routing). These are UI glue.
  The gallery renders `model.images` while generation reads
  `modelVersions[].images`; the model follows generation. CORS setup is
  configuration.
