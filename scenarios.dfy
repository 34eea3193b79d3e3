/**
 * Clients of the handlers: what callers can conclude from the handlers'
 * contracts alone.
 */
module Scenarios {
  import opened Parsing
  import opened Models
  import opened Checks
  import opened Responses
  import ActorController
  import MovieController

  /**
   * Creating an actor and then fetching it by the id in the creation
   * response returns the same projection (when ACTOR_FIELDS holds `id`, so
   * that the response carries it).
   */
  method CreateThenFetchActor(store: Store, data: Input, actorFields: set<string>)
    returns (created: Response, fetched: Response)
    requires store.Valid() && "id" in actorFields
    modifies store
    ensures created.status == 200 ==> fetched == created
  {
    created := ActorController.AddActor(store, data, actorFields);
    if created.status != 200 {
      return created, created;
    }
    var id := old(store.actors.nextId);
    ParseShow(id);
    var request := map["id" := created.body.fields["id"]];
    fetched := ActorController.GetActorById(store, request, actorFields);
  }

  /**
   * Creating a movie and then fetching it by the id in the creation
   * response returns the same projection (when MOVIE_FIELDS holds `id`).
   */
  method CreateThenFetchMovie(store: Store, data: Input, movieFields: set<string>)
    returns (created: Response, fetched: Response)
    requires store.Valid() && "id" in movieFields
    modifies store
    ensures created.status == 200 ==> fetched == created
  {
    created := MovieController.AddMovie(store, data, movieFields);
    if created.status != 200 {
      return created, created;
    }
    var id := old(store.movies.nextId);
    ParseShow(id);
    var request := map["id" := created.body.fields["id"]];
    fetched := MovieController.GetMovieById(store, request, movieFields);
  }

  /**
   * When the registry holds nothing beyond the required fields and `id`, a
   * successful creation answers with exactly the registry's fields.
   */
  method CreatedActorShowsRegistry(store: Store, data: Input, actorFields: set<string>) returns (r: Response)
    requires store.Valid() && actorFields <= ActorController.RequiredFields + {"id"}
    modifies store
    ensures r.status == 200 ==> r.body.Record? && r.body.fields.Keys == actorFields
  {
    r := ActorController.AddActor(store, data, actorFields);
  }

  method CreatedMovieShowsRegistry(store: Store, data: Input, movieFields: set<string>) returns (r: Response)
    requires store.Valid() && movieFields <= MovieController.RequiredFields + {"id"}
    modifies store
    ensures r.status == 200 ==> r.body.Record? && r.body.fields.Keys == movieFields
  {
    r := MovieController.AddMovie(store, data, movieFields);
  }

  // The literal values the scenario sends are read as the handlers need.

  lemma BirthDateIsDate()
    ensures IsDate("01.01.1990")
  {
    var birth := Date(1, 1, 1990);
    ParseFormatDate(birth);
    assert FormatDate(birth) == "01.01.1990";
  }

  lemma OneIsInteger()
    ensures ParseInt("1") == Some(1)
  {
    ParseShow(1);
    assert Show(1) == "1";
  }

  lemma YearValue()
    ensures GroupValue("2020") == 2020
  {
    var year := "2020";
    assert year[..3] == "202" && year[..3][..2] == "20" && year[..3][..2][..1] == "2";
    assert GroupValue("2") == 2;
    assert GroupValue("20") == 20;
    assert GroupValue("202") == 202;
  }

  lemma YearIsInteger()
    ensures ParseInt("2020") == Some(2020)
  {
    var year := "2020";
    assert AllDigits(year);
    PlainDigitsParse(year);
    YearValue();
  }

  lemma LettersAreNotInteger()
    ensures ParseInt("abc") == None
  {
    var abc := "abc";
    assert !IsSpace(abc[0]) && !IsSpace(abc[2]) && !IsDigit(abc[2]);
    UntrimmedStaysPut(abc);
  }

  const ActorFields: set<string> := {"id", "name", "gender", "date_of_birth"}
  const MovieFields: set<string> := {"id", "name", "year", "genre"}
  const NewActor: Input := map["name" := "A", "gender" := "F", "date_of_birth" := "01.01.1990"]
  const NewMovie: Input := map["name" := "M", "year" := "2020", "genre" := "Drama"]
  const Pair: Input := map["id" := "1", "relation_id" := "1"]

  lemma NewActorPasses()
    ensures ActorController.AddActorCheck(NewActor, ActorFields).Pass?
  {
    assert ActorController.RequiredFields <= NewActor.Keys;
    assert KeysAllowed(NewActor, ActorFields, {});
    BirthDateIsDate();
    assert NewActor["date_of_birth"] == "01.01.1990";
  }

  lemma NewMoviePasses()
    ensures MovieController.AddMovieCheck(NewMovie, MovieFields).Pass?
  {
    assert MovieController.RequiredFields <= NewMovie.Keys;
    assert KeysAllowed(NewMovie, MovieFields, {});
    YearIsInteger();
    assert NewMovie["year"] == "2020";
  }

  lemma FirstRows()
    ensures NewActor["id" := Show(1)] == map["id" := "1", "name" := "A", "gender" := "F", "date_of_birth" := "01.01.1990"]
    ensures NewMovie["id" := Show(1)] == map["id" := "1", "name" := "M", "year" := "2020", "genre" := "Drama"]
  {
    assert Show(1) == "1";
  }

  /** Creating the first actor on an empty store gives it id 1. */
  method FirstActor(store: Store, data: Input) returns (r: Response)
    requires store.Valid() && store.actors == EmptyTable
    requires ActorController.AddActorCheck(data, ActorFields).Pass? && data.Keys <= ActorFields
    modifies store
    ensures store.Valid() && store.actors.rows.Keys == {1} && store.movies == old(store.movies)
    ensures store.links == old(store.links)
    ensures r == Ok(Record(data["id" := Show(1)]))
  {
    r := ActorController.AddActor(store, data, ActorFields);
    InsertIntoEmpty(data);
    ProjectWholeRow(data["id" := Show(1)], ActorFields);
  }

  /** Creating the first movie on an empty store gives it id 1. */
  method FirstMovie(store: Store, data: Input) returns (r: Response)
    requires store.Valid() && store.movies == EmptyTable
    requires MovieController.AddMovieCheck(data, MovieFields).Pass? && data.Keys <= MovieFields
    modifies store
    ensures store.Valid() && store.movies.rows.Keys == {1} && store.actors == old(store.actors)
    ensures store.links == old(store.links)
    ensures r == Ok(Record(data["id" := Show(1)]))
  {
    r := MovieController.AddMovie(store, data, MovieFields);
    InsertIntoEmpty(data);
    ProjectWholeRow(data["id" := Show(1)], MovieFields);
  }

  lemma PairPasses(actors: set<int>, movies: set<int>)
    requires 1 in actors && 1 in movies
    ensures RelationCheck(Pair, actors, movies) == Pass((1, 1))
  {
    OneIsInteger();
    assert Pair.Keys == RelationKeys;
    assert Pair["id"] == "1" && Pair["relation_id"] == "1";
  }

  lemma OnePair()
    ensures Link({}, 1, 1) == {(1, 1)} && Link({(1, 1)}, 1, 1) == {(1, 1)}
    ensures Filmography({(1, 1)}, 1) == {1} && Cast({(1, 1)}, 1) == {1}
  {
    LinkAddsOnePair({}, 1, 1);
  }

  /** Linking actor 1 to movie 1 from the actor endpoint. */
  method LinkFromActor(store: Store) returns (linked: Response)
    requires store.Valid() && 1 in store.actors.rows && 1 in store.movies.rows && store.links == {}
    modifies store
    ensures store.Valid() && store.links == {(1, 1)}
    ensures store.actors == old(store.actors) && store.movies == old(store.movies)
    ensures linked.status == 200 && linked.body.RecordWithRelation? && linked.body.related == {1}
  {
    PairPasses(store.actors.rows.Keys, store.movies.rows.Keys);
    OnePair();
    linked := ActorController.ActorAddRelation(store, Pair, ActorFields);
  }

  /** Linking the same pair again from the movie endpoint leaves one pair. */
  method LinkFromMovie(store: Store) returns (relinked: Response)
    requires store.Valid() && 1 in store.actors.rows && 1 in store.movies.rows && store.links == {(1, 1)}
    modifies store
    ensures store.Valid() && store.links == {(1, 1)}
    ensures relinked.status == 200 && relinked.body.RecordWithRelation? && relinked.body.related == {1}
  {
    PairPasses(store.actors.rows.Keys, store.movies.rows.Keys);
    OnePair();
    relinked := MovieController.MovieAddRelation(store, Pair, MovieFields);
  }

  /** A non-integer id and a movie without a year are refused. */
  method BadRequests(store: Store) returns (badId: Response, noYear: Response)
    requires store.Valid()
    modifies store
    ensures badId == Fail("Id must be integer")
    ensures noYear == Fail("Inputted fields should exist")
  {
    var abc := map["id" := "abc"];
    LettersAreNotInteger();
    assert abc["id"] == "abc";
    badId := ActorController.GetActorById(store, abc, ActorFields);
    var yearless := map["name" := "M", "genre" := "Drama"];
    assert "year" !in yearless;
    noYear := MovieController.AddMovie(store, yearless, MovieFields);
  }

  /**
   * A fresh catalogue: create an actor and a movie, link them from the actor
   * endpoint, link them again from the movie endpoint (the pair is stored
   * once), and send two bad requests.
   */
  method CatalogScenario()
    returns (actor: Response, movie: Response, linked: Response, relinked: Response,
             badId: Response, noYear: Response)
    ensures actor == Ok(Record(map["id" := "1", "name" := "A", "gender" := "F", "date_of_birth" := "01.01.1990"]))
    ensures movie == Ok(Record(map["id" := "1", "name" := "M", "year" := "2020", "genre" := "Drama"]))
    ensures linked.status == 200 && linked.body.RecordWithRelation? && linked.body.related == {1}
    ensures relinked.status == 200 && relinked.body.RecordWithRelation? && relinked.body.related == {1}
    ensures badId == Fail("Id must be integer")
    ensures noYear == Fail("Inputted fields should exist")
  {
    var store := new Store();
    NewActorPasses();
    actor := FirstActor(store, NewActor);
    NewMoviePasses();
    movie := FirstMovie(store, NewMovie);
    FirstRows();
    linked := LinkFromActor(store);
    relinked := LinkFromMovie(store);
    badId, noYear := BadRequests(store);
  }
}
