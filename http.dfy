/**
  The requests the services hand to the API client: the verb, the path relative
  to the base URL, the body, and which part of the response envelope the service
  returns to its caller.
 */
module Http {
  import opened Js

  datatype Verb = GET | POST | PUT | PATCH | DELETE

  /** A `FormData` entry: a file appended as is, or a string. */
  datatype FormValue = FileValue(fileName: string) | TextValue(text: string)

  datatype Body =
    | NoBody
    | Json(entries: Entries)
    | Form(fields: seq<(string, FormValue)>)

  /** `return response` (the whole envelope) or `return response.data`. */
  datatype Unwrap = Envelope | DataField

  datatype Call = Call(verb: Verb, url: string, body: Body, result: Unwrap)

  /** A `FormData` object being filled. */
  class FormDataBuilder {
    var fields: seq<(string, FormValue)>

    constructor ()
      ensures fields == []
    {
      fields := [];
    }

    method Append(name: string, value: FormValue)
      modifies this
      ensures fields == old(fields) + [(name, value)]
    {
      fields := fields + [(name, value)];
    }
  }
}
