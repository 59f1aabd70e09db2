/** The shapes of the upstream model catalog's JSON that both the backend and
    the container detail page read: a model version with its sample images and
    trigger words. A field a reader treats as optional is an `Option`. */
module Catalog {
  import opened Wrappers

  type Url = string

  /** `image.meta`: generation metadata of a sample image. */
  datatype ImageMeta = ImageMeta(prompt: Option<string>)

  /** One sample image of a model version. */
  datatype Image = Image(url: Url, meta: Option<ImageMeta>)

  /** One version of a model: its sample images and its trigger words. */
  datatype Version = Version(images: Option<seq<Image>>, trainedWords: seq<string>)
}
