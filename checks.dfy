/**
 * The validation ladders that several handlers share. Each ladder is a
 * sequence of checks with early returns: the first check that fails decides
 * the error message, and only a request that passes them all reaches the
 * store.
 */
module Checks {
  import opened Parsing

  /** The request parameters, as `get_request_data` returns them. */
  type Input = map<string, string>

  /** The outcome of a ladder: the error message of the first failed check, or what the handler goes on with. */
  datatype Checked<T> = Reject(msg: string) | Pass(value: T)

  const NoIdSpecified := "No id specified"
  // The message for a non-integer `id` differs between handlers.
  const IdNotInteger := "Id must be integer"
  const IdNotAnInteger := "Id must be an integer"
  const NoSuchRecord := "Record with such id does not exist"
  const FieldsShouldExist := "Inputted fields should exist"
  const WrongKey := "Wrong key"
  const BothIdsRequired := "Both id and relation_id should be specified"
  const IdsMustBeIntegers := "Ids must be integers"
  const NoSuchActor := "Actor with such id does not exist"
  const NoSuchMovie := "Movie with such id does not exist"
  const RecordDeleted := "Record successfully deleted"

  /** The only keys the relation handlers accept. */
  const RelationKeys: set<string> := {"id", "relation_id"}

  /**
   * `id` present, `int(id)` succeeds, a row with that key exists — in that
   * order. The message for a non-integer id differs between handlers.
   */
  function IdCheck(data: Input, ids: set<int>, notInteger: string): (r: Checked<int>)
    ensures "id" !in data ==> r == Reject(NoIdSpecified)
    ensures "id" in data && ParseInt(data["id"]).None? ==> r == Reject(notInteger)
    ensures "id" in data && ParseInt(data["id"]).Some? && ParseInt(data["id"]).value !in ids ==>
              r == Reject(NoSuchRecord)
    ensures r.Pass? <==> "id" in data && ParseInt(data["id"]).Some? && ParseInt(data["id"]).value in ids
    ensures r.Pass? ==> ParseInt(data["id"]) == Some(r.value) && r.value in ids
  {
    if "id" !in data then Reject(NoIdSpecified)
    else
      match ParseInt(data["id"])
      case None => Reject(notInteger)
      case Some(id) => if id in ids then Pass(id) else Reject(NoSuchRecord)
  }

  /** The allowlist loop: every supplied key is a registered field or exempt. */
  predicate KeysAllowed(data: Input, fields: set<string>, exempt: set<string>)
    ensures KeysAllowed(data, fields, exempt) <==> data.Keys - exempt <= fields
  {
    forall k :: k in data ==> k in fields || k in exempt
  }

  /**
   * The ladder of both add-relation handlers: only `id` and `relation_id`
   * may be supplied, both must be, both must parse, the actor (`id`) must
   * exist and then the movie (`relation_id`).
   */
  function RelationCheck(data: Input, actors: set<int>, movies: set<int>): (r: Checked<(int, int)>)
    ensures !(data.Keys <= RelationKeys) <==> r == Reject(WrongKey)
    ensures data.Keys <= RelationKeys && !(data.Keys == RelationKeys) <==> r == Reject(BothIdsRequired)
    ensures data.Keys == RelationKeys && (ParseInt(data["id"]).None? || ParseInt(data["relation_id"]).None?) <==>
              r == Reject(IdsMustBeIntegers)
    ensures r == Reject(NoSuchActor) <==>
              data.Keys == RelationKeys && ParseInt(data["id"]).Some? && ParseInt(data["relation_id"]).Some? &&
              ParseInt(data["id"]).value !in actors
    ensures r == Reject(NoSuchMovie) <==>
              data.Keys == RelationKeys && ParseInt(data["id"]).Some? && ParseInt(data["relation_id"]).Some? &&
              ParseInt(data["id"]).value in actors && ParseInt(data["relation_id"]).value !in movies
    ensures r.Pass? <==>
              data.Keys == RelationKeys && ParseInt(data["id"]).Some? && ParseInt(data["relation_id"]).Some? &&
              ParseInt(data["id"]).value in actors && ParseInt(data["relation_id"]).value in movies
    ensures r.Pass? ==>
              Some(r.value.0) == ParseInt(data["id"]) && Some(r.value.1) == ParseInt(data["relation_id"])
  {
    if !(data.Keys <= RelationKeys) then Reject(WrongKey)
    else if !("id" in data && "relation_id" in data) then Reject(BothIdsRequired)
    else
      match (ParseInt(data["id"]), ParseInt(data["relation_id"]))
      case (Some(a), Some(m)) =>
        if a !in actors then Reject(NoSuchActor)
        else if m !in movies then Reject(NoSuchMovie)
        else Pass((a, m))
      case _ => Reject(IdsMustBeIntegers)
  }
}
