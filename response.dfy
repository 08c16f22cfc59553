/**
 * The uniform API response: a dictionary with a `success` flag, plus a
 * `data` entry and an `error` entry when those are given.
 */
module Responses {
  import opened Wrappers

  /** One entry's value; `D` is whatever payload the endpoint returns. */
  datatype Entry<D> = Flag(success: bool) | Payload(data: D) | Message(error: string)

  /** `api_response`: keys appear only for the parts that are present. */
  function ApiResponse<D>(success: bool, data: Option<D>, error: Option<string>): (r: map<string, Entry<D>>)
    ensures "success" in r && r["success"] == Flag(success)
    ensures "data" in r <==> data.Some?
    ensures "error" in r <==> error.Some?
    ensures data.Some? ==> r["data"] == Payload(data.value)
    ensures error.Some? ==> r["error"] == Message(error.value)
    ensures r.Keys <= {"success", "data", "error"}
  {
    var r := map["success" := Flag(success)];
    var r := if data.Some? then r["data" := Payload(data.value)] else r;
    if error.Some? then r["error" := Message(error.value)] else r
  }

  /** What a client reads back from a response: the flag, the data and the error, each where present. */
  function ReadResponse<D>(r: map<string, Entry<D>>): (parts: Option<(bool, Option<D>, Option<string>)>)
    ensures parts.Some? ==> "success" in r && r["success"] == Flag(parts.value.0)
  {
    if "success" in r && r["success"].Flag? then
      var data := if "data" in r && r["data"].Payload? then Some(r["data"].data) else None;
      var error := if "error" in r && r["error"].Message? then Some(r["error"].error) else None;
      Some((r["success"].success, data, error))
    else None
  }

  /** Reading a response back gives exactly the parts it was built from. */
  lemma ReadInvertsApiResponse<D>(success: bool, data: Option<D>, error: Option<string>)
    ensures ReadResponse(ApiResponse(success, data, error)) == Some((success, data, error))
  {
  }
}
