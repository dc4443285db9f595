/** JavaScript values as the analyser handles them: optional JSON fields,
    JavaScript truthiness, and the JSON body the browser posts to `/analyse`. */
module Values {

  /** A JSON field that may be missing. An absent property (`undefined`) and
      an explicit `null` both read as `None`. */
  datatype Option<+T> = None | Some(value: T)

  /** JavaScript truthiness of an optional string: `undefined`, `null` and
      the empty string are falsy, every other string is truthy. */
  predicate Truthy(o: Option<string>) {
    o.Some? && o.value != ""
  }

  /** The JavaScript idiom `o || fallback` on an optional string. */
  function OrElse(o: Option<string>, fallback: string): string {
    if Truthy(o) then o.value else fallback
  }

  /** The JavaScript idiom `list || []`. An empty array is truthy, so only a
      missing list is replaced. */
  function OrEmpty<T>(o: Option<seq<T>>): seq<T> {
    match o
    case Some(xs) => xs
    case None => []
  }

  /** The JSON body of `POST /analyse`: `{ prompt, image, mimeType }`, where
      `image` is base64 text and every field may be absent or null. */
  datatype AnalyseBody = AnalyseBody(prompt: Option<string>, image: Option<string>, mimeType: Option<string>)
}
