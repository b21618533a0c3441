/**
  Stand-ins for the Foundation values the authentication core handles:
  optional values, URLs (opaque), URL components, archived data and errors.
  URL parsing and rebuilding are not modelled here; the modules that need them
  receive them as function-typed parameters.
*/
module Foundation {

  datatype Option<+T> = None | Some(value: T)

  /** The bytes of a `Data` value, as stored in the key-value store. */
  type Blob = seq<bv8>

  /** A parsed `URL`; its text is all the model keeps of it. */
  datatype Url = Url(absoluteString: string)

  /**
    The parts of `URLComponents` that the redirect handler reads and writes:
    `query` and `fragment`, and everything else lumped together in `rest`.
  */
  datatype UrlComponents = UrlComponents(rest: string, query: Option<string>, fragment: Option<string>)

  /** An `NSError`-shaped error: domain, code and localized description. */
  datatype Error = Error(domain: string, code: int, description: string)
}
