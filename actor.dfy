/**
 * The actor endpoints. Each handler takes the request parameters and the
 * field registry `actorFields` (ACTOR_FIELDS, whose contents are not part of
 * this model), runs its validation ladder and then performs at most one store
 * operation.
 */
module ActorController {
  import opened Parsing
  import opened Models
  import opened Checks
  import opened Responses

  const RequiredFields: set<string> := {"name", "gender", "date_of_birth"}

  const BadDateOnCreate := "Date of birth should be in format DATE_FORMAT"
  const BadDateOnUpdate := "Date of birthday must be in correct format"

  /**
   * `add_actor`'s ladder: the three required fields, then the allowlist,
   * then the date of birth under `%d.%m.%Y`.
   */
  function AddActorCheck(data: Input, actorFields: set<string>): (r: Checked<()>)
    ensures !(RequiredFields <= data.Keys) ==> r == Reject(FieldsShouldExist)
    ensures !KeysAllowed(data, actorFields, {}) ==> r == Reject(FieldsShouldExist)
    ensures r == Reject(BadDateOnCreate) <==>
              RequiredFields <= data.Keys && KeysAllowed(data, actorFields, {}) && !IsDate(data["date_of_birth"])
    ensures r.Pass? <==>
              RequiredFields <= data.Keys && KeysAllowed(data, actorFields, {}) && IsDate(data["date_of_birth"])
  {
    if !(RequiredFields <= data.Keys) then Reject(FieldsShouldExist)
    else if !KeysAllowed(data, actorFields, {}) then Reject(FieldsShouldExist)
    else if !IsDate(data["date_of_birth"]) then Reject(BadDateOnCreate)
    else Pass(())
  }

  /**
   * `update_actor`'s ladder: the id checks, then the allowlist (which does
   * not exempt `id`), then the date of birth if one is supplied.
   */
  function UpdateActorCheck(data: Input, ids: set<int>, actorFields: set<string>): (r: Checked<int>)
    ensures IdCheck(data, ids, IdNotAnInteger).Reject? ==> r == IdCheck(data, ids, IdNotAnInteger)
    ensures IdCheck(data, ids, IdNotAnInteger).Pass? && !KeysAllowed(data, actorFields, {}) ==>
              r == Reject(FieldsShouldExist)
    ensures IdCheck(data, ids, IdNotAnInteger).Pass? && KeysAllowed(data, actorFields, {}) &&
            "date_of_birth" in data && !IsDate(data["date_of_birth"]) ==>
              r == Reject(BadDateOnUpdate)
    ensures r.Pass? <==>
              IdCheck(data, ids, IdNotAnInteger).Pass? && KeysAllowed(data, actorFields, {}) &&
              ("date_of_birth" in data ==> IsDate(data["date_of_birth"]))
    ensures r.Pass? ==> r == IdCheck(data, ids, IdNotAnInteger)
  {
    match IdCheck(data, ids, IdNotAnInteger)
    case Reject(msg) => Reject(msg)
    case Pass(id) =>
      if !KeysAllowed(data, actorFields, {}) then Reject(FieldsShouldExist)
      else if "date_of_birth" in data && !IsDate(data["date_of_birth"]) then Reject(BadDateOnUpdate)
      else Pass(id)
  }

  /**
   * Because `id` is always supplied to `update_actor` and its allowlist does
   * not exempt it, no update succeeds unless ACTOR_FIELDS contains `id`.
   */
  lemma UpdateActorNeedsIdField(data: Input, ids: set<int>, actorFields: set<string>)
    requires "id" !in actorFields
    ensures UpdateActorCheck(data, ids, actorFields).Reject?
  {
    if "id" in data {
      assert !KeysAllowed(data, actorFields, {});
    }
  }

  /** `get_all_actors`: every stored actor, projected, in the store's order. */
  method GetAllActors(store: Store, actorFields: set<string>) returns (r: Response)
    requires store.Valid()
    ensures r.status == 200 && r.body.Records?
    ensures |r.body.items| == |store.actors.order|
    ensures forall i :: 0 <= i < |store.actors.order| ==>
              r.body.items[i] == Project(store.actors.rows[store.actors.order[i]], actorFields)
  {
    var items := ProjectAll(store.actors, actorFields);
    r := Ok(Records(items));
  }

  /** `get_actor_by_id`: read-only; the id ladder, then the projected row. */
  method GetActorById(store: Store, data: Input, actorFields: set<string>) returns (r: Response)
    requires store.Valid()
    ensures "id" !in data ==> r == Fail(NoIdSpecified)
    ensures "id" in data && ParseInt(data["id"]).None? ==> r == Fail(IdNotInteger)
    ensures "id" in data && ParseInt(data["id"]).Some? && ParseInt(data["id"]).value !in store.actors.rows ==>
              r == Fail(NoSuchRecord)
    ensures "id" in data && ParseInt(data["id"]).Some? && ParseInt(data["id"]).value in store.actors.rows ==>
              r == Ok(Record(Project(store.actors.rows[ParseInt(data["id"]).value], actorFields)))
  {
    var check := IdCheck(data, store.actors.rows.Keys, IdNotInteger);
    match check
    case Reject(msg) =>
      r := Fail(msg);
    case Pass(id) =>
      r := Ok(Record(Project(store.actors.rows[id], actorFields)));
  }

  /** `add_actor`: on a passing ladder one new row; otherwise the store is untouched. */
  method AddActor(store: Store, data: Input, actorFields: set<string>) returns (r: Response)
    requires store.Valid()
    modifies store
    ensures store.Valid()
    ensures r.status == 200 <==> AddActorCheck(data, actorFields).Pass?
    ensures AddActorCheck(data, actorFields).Reject? ==>
              r == Fail(AddActorCheck(data, actorFields).msg) && store.State() == old(store.State())
    ensures AddActorCheck(data, actorFields).Pass? ==>
              && store.actors == Insert(old(store.actors), data)
              && store.movies == old(store.movies) && store.links == old(store.links)
              && r == Ok(Record(Project(store.actors.rows[old(store.actors.nextId)], actorFields)))
  {
    var check := AddActorCheck(data, actorFields);
    if check.Reject? {
      return Fail(check.msg);
    }
    var id := store.CreateActor(data);
    r := Ok(Record(Project(store.actors.rows[id], actorFields)));
  }

  /** `update_actor`: on a passing ladder the supplied columns are merged into the row. */
  method UpdateActor(store: Store, data: Input, actorFields: set<string>) returns (r: Response)
    requires store.Valid()
    modifies store
    ensures store.Valid()
    ensures var check := UpdateActorCheck(data, old(store.actors.rows.Keys), actorFields);
            && (r.status == 200 <==> check.Pass?)
            && (check.Reject? ==> r == Fail(check.msg) && store.State() == old(store.State()))
            && (check.Pass? ==>
                  && store.actors == Update(old(store.actors), check.value, data)
                  && store.movies == old(store.movies) && store.links == old(store.links)
                  && r == Ok(Record(Project(store.actors.rows[check.value], actorFields))))
  {
    var check := UpdateActorCheck(data, store.actors.rows.Keys, actorFields);
    match check
    case Reject(msg) =>
      r := Fail(msg);
    case Pass(id) =>
      store.UpdateActor(id, data);
      r := Ok(Record(Project(store.actors.rows[id], actorFields)));
  }

  /**
   * `delete_actor`: the id ladder and a success message, but nothing is
   * removed — the method cannot modify the store at all.
   */
  method DeleteActor(store: Store, data: Input) returns (r: Response)
    requires store.Valid()
    ensures r.status == 200 <==> IdCheck(data, store.actors.rows.Keys, IdNotAnInteger).Pass?
    ensures r.status == 200 ==> r == Ok(Message(RecordDeleted))
    ensures r.status != 200 ==> r == Fail(IdCheck(data, store.actors.rows.Keys, IdNotAnInteger).msg)
  {
    var check := IdCheck(data, store.actors.rows.Keys, IdNotAnInteger);
    if check.Reject? {
      return Fail(check.msg);
    }
    r := Ok(Message(RecordDeleted));
  }

  /** `actor_add_relation`: `id` is the actor, `relation_id` the movie. */
  method ActorAddRelation(store: Store, data: Input, actorFields: set<string>) returns (r: Response)
    requires store.Valid()
    modifies store
    ensures store.Valid()
    ensures var check := RelationCheck(data, old(store.actors.rows.Keys), old(store.movies.rows.Keys));
            && (r.status == 200 <==> check.Pass?)
            && (check.Reject? ==> r == Fail(check.msg) && store.State() == old(store.State()))
            && (check.Pass? ==>
                  && store.links == Link(old(store.links), check.value.0, check.value.1)
                  && store.actors == old(store.actors) && store.movies == old(store.movies)
                  && r == Ok(RecordWithRelation(
                            Project(store.actors.rows[check.value.0], actorFields),
                            "filmography", Filmography(store.links, check.value.0)))
                  && check.value.1 in r.body.related)
  {
    var check := RelationCheck(data, store.actors.rows.Keys, store.movies.rows.Keys);
    match check
    case Reject(msg) =>
      r := Fail(msg);
    case Pass((actor, movie)) =>
      store.AddRelation(actor, movie);
      LinkAddsOnePair(old(store.links), actor, movie);
      r := Ok(RecordWithRelation(Project(store.actors.rows[actor], actorFields),
                                 "filmography", Filmography(store.links, actor)));
  }

  /** `actor_clear_relations`: the id ladder, then every link of the actor is dropped. */
  method ActorClearRelations(store: Store, data: Input, actorFields: set<string>) returns (r: Response)
    requires store.Valid()
    modifies store
    ensures store.Valid()
    ensures var check := IdCheck(data, old(store.actors.rows.Keys), IdNotAnInteger);
            && (r.status == 200 <==> check.Pass?)
            && (check.Reject? ==> r == Fail(check.msg) && store.State() == old(store.State()))
            && (check.Pass? ==>
                  && store.links == UnlinkActor(old(store.links), check.value)
                  && store.actors == old(store.actors) && store.movies == old(store.movies)
                  && r == Ok(RecordWithRelation(
                            Project(store.actors.rows[check.value], actorFields), "filmography", {})))
  {
    var check := IdCheck(data, store.actors.rows.Keys, IdNotAnInteger);
    match check
    case Reject(msg) =>
      r := Fail(msg);
    case Pass(actor) =>
      store.ClearActorRelations(actor);
      UnlinkActorClearsBothSides(old(store.links), actor);
      r := Ok(RecordWithRelation(Project(store.actors.rows[actor], actorFields),
                                 "filmography", Filmography(store.links, actor)));
  }
}
