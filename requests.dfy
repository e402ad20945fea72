/** The JSON bodies the endpoints receive. A body that `get_json(force=True)` cannot
    parse is `Malformed`; otherwise it is an object, of which the string-valued keys are
    kept. */
module Requests {
  datatype Request = Malformed | Body(fields: map<string, string>)

  /** Python's `d.get(key, default)` on the request object. */
  function Field(fields: map<string, string>, key: string, default: string): (v: string)
    ensures key in fields ==> v == fields[key]
    ensures key !in fields ==> v == default
  {
    if key in fields then fields[key] else default
  }

  /** What `json.loads` makes of a text: it raises, it gives a value that is not an
      object, or it gives an object (of which the string-valued keys are kept). */
  datatype Parsed = NotJson | NotObject | Object(fields: map<string, string>)

  /** An HTTP response: its status code and its JSON body. */
  datatype Response<+T> = Response(status: nat, body: T)
}
