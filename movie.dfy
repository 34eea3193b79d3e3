/**
 * The movie endpoints, with the field registry `movieFields` (MOVIE_FIELDS,
 * whose contents are not part of this model). They mirror the actor
 * endpoints, with their own messages: here `get_movie_by_id` and
 * `delete_movie` say "Id must be an integer" while `update_movie` and
 * `movie_clear_relations` say "Id must be integer".
 */
module MovieController {
  import opened Parsing
  import opened Models
  import opened Checks
  import opened Responses

  const RequiredFields: set<string> := {"name", "year", "genre"}

  const YearNotInteger := "Year should be an integer"

  /** `year` is absent or parses as an integer. */
  predicate YearOk(data: Input)
  {
    "year" in data ==> ParseInt(data["year"]).Some?
  }

  /**
   * `add_movie`'s ladder: the three required fields, then the allowlist,
   * then `year` as an integer.
   */
  function AddMovieCheck(data: Input, movieFields: set<string>): (r: Checked<()>)
    ensures !(RequiredFields <= data.Keys) ==> r == Reject(FieldsShouldExist)
    ensures !KeysAllowed(data, movieFields, {}) ==> r == Reject(FieldsShouldExist)
    ensures r == Reject(YearNotInteger) <==>
              RequiredFields <= data.Keys && KeysAllowed(data, movieFields, {}) && ParseInt(data["year"]).None?
    ensures r.Pass? <==>
              RequiredFields <= data.Keys && KeysAllowed(data, movieFields, {}) && ParseInt(data["year"]).Some?
  {
    if !(RequiredFields <= data.Keys) then Reject(FieldsShouldExist)
    else if !KeysAllowed(data, movieFields, {}) then Reject(FieldsShouldExist)
    else if !YearOk(data) then Reject(YearNotInteger)
    else Pass(())
  }

  /**
   * `update_movie`'s ladder: the id checks, then the allowlist with `id`
   * exempt, then `year` as an integer if one is supplied.
   */
  function UpdateMovieCheck(data: Input, ids: set<int>, movieFields: set<string>): (r: Checked<int>)
    ensures IdCheck(data, ids, IdNotInteger).Reject? ==> r == IdCheck(data, ids, IdNotInteger)
    ensures IdCheck(data, ids, IdNotInteger).Pass? && !KeysAllowed(data, movieFields, {"id"}) ==>
              r == Reject(FieldsShouldExist)
    ensures IdCheck(data, ids, IdNotInteger).Pass? && KeysAllowed(data, movieFields, {"id"}) && !YearOk(data) ==>
              r == Reject(YearNotInteger)
    ensures r.Pass? <==>
              IdCheck(data, ids, IdNotInteger).Pass? && KeysAllowed(data, movieFields, {"id"}) && YearOk(data)
    ensures r.Pass? ==> r == IdCheck(data, ids, IdNotInteger)
  {
    match IdCheck(data, ids, IdNotInteger)
    case Reject(msg) => Reject(msg)
    case Pass(id) =>
      if !KeysAllowed(data, movieFields, {"id"}) then Reject(FieldsShouldExist)
      else if !YearOk(data) then Reject(YearNotInteger)
      else Pass(id)
  }

  /** Thanks to the exemption, whether MOVIE_FIELDS lists `id` makes no difference to `update_movie`. */
  lemma UpdateMovieIgnoresIdField(data: Input, ids: set<int>, movieFields: set<string>)
    ensures UpdateMovieCheck(data, ids, movieFields) == UpdateMovieCheck(data, ids, movieFields + {"id"})
    ensures UpdateMovieCheck(data, ids, movieFields) == UpdateMovieCheck(data, ids, movieFields - {"id"})
  {
    assert KeysAllowed(data, movieFields, {"id"}) == KeysAllowed(data, movieFields + {"id"}, {"id"});
    assert KeysAllowed(data, movieFields, {"id"}) == KeysAllowed(data, movieFields - {"id"}, {"id"});
  }

  /** `get_all_movies`: every stored movie, projected, in the store's order. */
  method GetAllMovies(store: Store, movieFields: set<string>) returns (r: Response)
    requires store.Valid()
    ensures r.status == 200 && r.body.Records?
    ensures |r.body.items| == |store.movies.order|
    ensures forall i :: 0 <= i < |store.movies.order| ==>
              r.body.items[i] == Project(store.movies.rows[store.movies.order[i]], movieFields)
  {
    var items := ProjectAll(store.movies, movieFields);
    r := Ok(Records(items));
  }

  /** `get_movie_by_id`: read-only; the id ladder, then the projected row. */
  method GetMovieById(store: Store, data: Input, movieFields: set<string>) returns (r: Response)
    requires store.Valid()
    ensures "id" !in data ==> r == Fail(NoIdSpecified)
    ensures "id" in data && ParseInt(data["id"]).None? ==> r == Fail(IdNotAnInteger)
    ensures "id" in data && ParseInt(data["id"]).Some? && ParseInt(data["id"]).value !in store.movies.rows ==>
              r == Fail(NoSuchRecord)
    ensures "id" in data && ParseInt(data["id"]).Some? && ParseInt(data["id"]).value in store.movies.rows ==>
              r == Ok(Record(Project(store.movies.rows[ParseInt(data["id"]).value], movieFields)))
  {
    var check := IdCheck(data, store.movies.rows.Keys, IdNotAnInteger);
    match check
    case Reject(msg) =>
      r := Fail(msg);
    case Pass(id) =>
      r := Ok(Record(Project(store.movies.rows[id], movieFields)));
  }

  /** `add_movie`: on a passing ladder one new row; otherwise the store is untouched. */
  method AddMovie(store: Store, data: Input, movieFields: set<string>) returns (r: Response)
    requires store.Valid()
    modifies store
    ensures store.Valid()
    ensures r.status == 200 <==> AddMovieCheck(data, movieFields).Pass?
    ensures AddMovieCheck(data, movieFields).Reject? ==>
              r == Fail(AddMovieCheck(data, movieFields).msg) && store.State() == old(store.State())
    ensures AddMovieCheck(data, movieFields).Pass? ==>
              && store.movies == Insert(old(store.movies), data)
              && store.actors == old(store.actors) && store.links == old(store.links)
              && r == Ok(Record(Project(store.movies.rows[old(store.movies.nextId)], movieFields)))
  {
    var check := AddMovieCheck(data, movieFields);
    if check.Reject? {
      return Fail(check.msg);
    }
    var id := store.CreateMovie(data);
    r := Ok(Record(Project(store.movies.rows[id], movieFields)));
  }

  /** `update_movie`: on a passing ladder the supplied columns are merged into the row. */
  method UpdateMovie(store: Store, data: Input, movieFields: set<string>) returns (r: Response)
    requires store.Valid()
    modifies store
    ensures store.Valid()
    ensures var check := UpdateMovieCheck(data, old(store.movies.rows.Keys), movieFields);
            && (r.status == 200 <==> check.Pass?)
            && (check.Reject? ==> r == Fail(check.msg) && store.State() == old(store.State()))
            && (check.Pass? ==>
                  && store.movies == Update(old(store.movies), check.value, data)
                  && store.actors == old(store.actors) && store.links == old(store.links)
                  && r == Ok(Record(Project(store.movies.rows[check.value], movieFields))))
  {
    var check := UpdateMovieCheck(data, store.movies.rows.Keys, movieFields);
    match check
    case Reject(msg) =>
      r := Fail(msg);
    case Pass(id) =>
      store.UpdateMovie(id, data);
      r := Ok(Record(Project(store.movies.rows[id], movieFields)));
  }

  /**
   * `delete_movie`: the id ladder and a success message, but nothing is
   * removed — the method cannot modify the store at all.
   */
  method DeleteMovie(store: Store, data: Input) returns (r: Response)
    requires store.Valid()
    ensures r.status == 200 <==> IdCheck(data, store.movies.rows.Keys, IdNotAnInteger).Pass?
    ensures r.status == 200 ==> r == Ok(Message(RecordDeleted))
    ensures r.status != 200 ==> r == Fail(IdCheck(data, store.movies.rows.Keys, IdNotAnInteger).msg)
  {
    var check := IdCheck(data, store.movies.rows.Keys, IdNotAnInteger);
    if check.Reject? {
      return Fail(check.msg);
    }
    r := Ok(Message(RecordDeleted));
  }

  /**
   * `movie_add_relation`: the roles are as in `actor_add_relation` — `id` is
   * the actor and `relation_id` the movie — but the response is the movie's.
   */
  method MovieAddRelation(store: Store, data: Input, movieFields: set<string>) returns (r: Response)
    requires store.Valid()
    modifies store
    ensures store.Valid()
    ensures var check := RelationCheck(data, old(store.actors.rows.Keys), old(store.movies.rows.Keys));
            && (r.status == 200 <==> check.Pass?)
            && (check.Reject? ==> r == Fail(check.msg) && store.State() == old(store.State()))
            && (check.Pass? ==>
                  && store.links == Link(old(store.links), check.value.0, check.value.1)
                  && store.actors == old(store.actors) && store.movies == old(store.movies)
                  && r == Ok(RecordWithRelation(
                            Project(store.movies.rows[check.value.1], movieFields),
                            "cast", Cast(store.links, check.value.1)))
                  && check.value.0 in r.body.related)
  {
    var check := RelationCheck(data, store.actors.rows.Keys, store.movies.rows.Keys);
    match check
    case Reject(msg) =>
      r := Fail(msg);
    case Pass((actor, movie)) =>
      store.AddRelation(actor, movie);
      LinkAddsOnePair(old(store.links), actor, movie);
      r := Ok(RecordWithRelation(Project(store.movies.rows[movie], movieFields),
                                 "cast", Cast(store.links, movie)));
  }

  /** `movie_clear_relations`: the id ladder, then every link of the movie is dropped. */
  method MovieClearRelations(store: Store, data: Input, movieFields: set<string>) returns (r: Response)
    requires store.Valid()
    modifies store
    ensures store.Valid()
    ensures var check := IdCheck(data, old(store.movies.rows.Keys), IdNotInteger);
            && (r.status == 200 <==> check.Pass?)
            && (check.Reject? ==> r == Fail(check.msg) && store.State() == old(store.State()))
            && (check.Pass? ==>
                  && store.links == UnlinkMovie(old(store.links), check.value)
                  && store.actors == old(store.actors) && store.movies == old(store.movies)
                  && r == Ok(RecordWithRelation(
                            Project(store.movies.rows[check.value], movieFields), "cast", {})))
  {
    var check := IdCheck(data, store.movies.rows.Keys, IdNotInteger);
    match check
    case Reject(msg) =>
      r := Fail(msg);
    case Pass(movie) =>
      store.ClearMovieRelations(movie);
      UnlinkMovieClearsBothSides(old(store.links), movie);
      r := Ok(RecordWithRelation(Project(store.movies.rows[movie], movieFields),
                                 "cast", Cast(store.links, movie)));
  }
}
