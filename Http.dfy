/** The parts of a PSR-7 server request the htmx filter and middleware use. */
module Http {
  import opened Php

  /**
   * A server request: its target, its headers (name to the list of values,
   * as `getHeaders()` returns them) and its attributes. Requests are
   * immutable; `withAttribute` is a datatype update.
   */
  datatype Request = Request(uri: string, headers: map<string, seq<string>>, attributes: map<string, Value>)

  /** `$request->getAttribute($name, $default)`. */
  function Attribute(request: Request, name: string, default: Value): (v: Value)
    ensures name in request.attributes ==> v == request.attributes[name]
    ensures name !in request.attributes ==> v == default
  {
    if name in request.attributes then request.attributes[name] else default
  }
}
