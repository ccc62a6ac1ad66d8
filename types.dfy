/** The value shapes shared by the search route and its client:
    `SearchResult` and `ApiResponse`, plus the usual optional and
    success-or-failure wrappers. */
module Types {

  datatype Option<+T> = None | Some(value: T)

  datatype Result<+R, +E> = Success(value: R) | Failure(error: E)

  /** One accommodation listing. `amenities` and `description` are optional
      fields of the record; the search route always fills `description`
      and never `amenities`. */
  datatype SearchResult = SearchResult(
    title: string,
    price: string,
    location: string,
    source: string,
    link: string,
    amenities: Option<seq<string>>,
    description: Option<string>)

  /** The body of a successful reply. `response` is `None` where the
      route passes on a `null` reply text from the language model. */
  datatype ApiResponse = ApiResponse(
    response: Option<string>,
    results: seq<SearchResult>,
    searchComplete: bool)
}
