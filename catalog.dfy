/** A book of the shop catalogue as the book service hands it out. The fetch itself is
    not part of this model; only the record shape is. */
module Catalog {
  import opened Wrappers
  import opened Js

  /** `id` may be missing from the fetched JSON, which the library mapping guards
      against; `price` is read through `Number(...) || 0`, so it is kept as a
      JavaScript number that may be NaN. The four image fields are the ones the library
      mapping tries in turn. */
  datatype CatalogBook = CatalogBook(
    id: Option<int>,
    title: string,
    genre: string,
    authors: Option<seq<string>>,
    author: Option<string>,
    isbn: Option<string>,
    sku: Option<string>,
    description: Option<string>,
    price: Num,
    image: Option<string>,
    thumbnail: Option<string>,
    cover: Option<string>,
    picture: Option<string>)
}
