/**
 * What a controller hands back to Flask: `make_response(jsonify(...), status)`
 * as a status code and the shape of the JSON body.
 */
module Responses {

  datatype Body =
    | Error(error: string)                      // {"error": msg}
    | Message(message: string)                  // {"message": msg}
    | Record(fields: map<string, string>)       // one projected row
    | RecordWithRelation(fields: map<string, string>, relation: string, related: set<int>)
      // a projected row whose `relation` key holds the rendering of the related ids
    | Records(items: seq<map<string, string>>)  // a list of projected rows

  datatype Response = Response(status: int, body: Body)

  function Fail(msg: string): Response
  {
    Response(400, Error(msg))
  }

  function Ok(body: Body): Response
  {
    Response(200, body)
  }
}
