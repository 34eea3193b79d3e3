# Movies and actors catalogue: request validation and store effects

This project models the two controller files of a small Flask REST API for a
catalogue of actors and movies: `controllers/actor.py` and
`controllers/movie.py`. Each endpoint handler reads the request parameters
and runs a fixed ladder of checks, each with an early return. The checks
are: is the key present, is the key set allowed, does the value parse as an
integer or a `DD.MM.YYYY` date, does the referenced row exist. The first
failing check produces a fixed error string with status 400. Only a request
that passes every check reaches the store, and then with exactly one
operation, or none.

The model is split as follows:

- `parsing.dfy` (module `Parsing`): Python's `int(s)` and
  `datetime.strptime(s, '%d.%m.%Y')` as concrete parsers on ASCII strings.
  It also has `str(n)` for integers and a `DD.MM.YYYY` formatter. Both
  round trips are proved.
- `models.dfy` (module `Models`): the store. It has the actor and movie
  tables (rows keyed by id, the listing order, the next id) and one set of
  (actor id, movie id) links. An actor's filmography and a movie's cast are
  two views of that one set. The class `Store` holds the three parts as
  fields. It has one method per ORM call that the controllers make
  (`create`, `update`, `add_relation`, `clear_relations`). Each method is
  specified by a pure function on the table or link set.
- `responses.dfy` (module `Responses`): `make_response(jsonify(...), status)`
  as a status code and a JSON body shape.
- `checks.dfy` (module `Checks`): two ladders shared by several handlers.
  One is the id ladder: present, integer, exists. The other is the
  add-relation ladder: key set, both keys, integers, actor exists, movie
  exists.
- `actor.dfy` (module `ActorController`) and `movie.dfy` (module
  `MovieController`): each handler-specific ladder as a function, and one
  method per handler.
- `scenarios.dfy` (module `Scenarios`): client code that uses only the
  handlers' contracts. It covers create-then-fetch for both entities and a concrete session
  on an empty store.

Every handler contract covers three things:
- the response on each error branch, with the handler's exact message;
- that the store is unchanged whenever the response is an error;
- the new store state when every check passes.

The read-only handlers (`get_*`, `delete_*`) are methods with no `modifies`
clause, so Dafny guarantees they cannot change the store. This includes
`delete_actor` and `delete_movie`, which reply "Record successfully
deleted" without removing anything.

The field registries `ACTOR_FIELDS` and `MOVIE_FIELDS` are defined in
`settings/constants`, which is not part of this model. Every handler takes
the registry as a parameter. The concrete scenario uses
`{id, name, gender, date_of_birth}` and `{id, name, year, genre}`.

Details of the code that the model keeps as written:
- The non-integer-id messages differ by handler:
  - "Id must be integer": `get_actor_by_id`, `update_movie`,
    `movie_clear_relations`.
  - "Id must be an integer": `update_actor`, `delete_actor`,
    `actor_clear_relations`, `get_movie_by_id`, `delete_movie`.
- Only `update_movie` exempts `id` from its allowlist; `update_actor` does
  not. So `update_actor` can succeed only if `ACTOR_FIELDS` contains `id`
  (`ActorController.UpdateActorNeedsIdField`).
- Both relation endpoints take `id` and `relation_id`. In both, `id` is the actor and `relation_id` is the movie.
  `movie_add_relation` therefore returns the movie named by `relation_id`.
- The add-actor date error is the literal text "Date of birth should be in
  format DATE_FORMAT". The update-actor date error is "Date of birthday
  must be in correct format".
- Not-found errors are status 400, and delete removes nothing.

## Model

| member | source | states |
|---|---|---|
| `Parsing.ParseShow` | controllers/actor.py:31 | `int()` reads the decimal rendering of every integer back as that integer, including negative ones. |
| `Parsing.ParseDate` | controllers/actor.py:70-76 | A string that `strptime(s, '%d.%m.%Y')` accepts denotes a real calendar day: year 1..9999, month 1..12, day within its month, leap years included. |
| `Parsing.ParseFormatDate` | controllers/actor.py:70-76 | Every valid date written as `DD.MM.YYYY` is accepted and read back as the same date. |
| `Models.Project` | controllers/actor.py:19 | Definition of the response projection: the row's columns that are in the field registry, with their values, as the dictionary comprehension builds it. Its ensures re-express that definition as key set and values; what is proved about projections is in `Scenarios.CreatedActorShowsRegistry`, `Scenarios.CreateThenFetchActor` and `Scenarios.CreateThenFetchMovie`. |
| `Models.Insert` | controllers/actor.py:78 | `create` puts a new row under a key not used before and leaves every existing row unchanged. The new row holds every supplied value plus its own key in `id`. The listing order gains the new key at the end. The table invariant is kept. |
| `Models.Update` | controllers/actor.py:123 | `update` is partial. Every supplied column except `id` takes the new value. Every other column, and every other row, is unchanged. No key is added or removed. The invariant is kept. |
| `Models.FilmographyIsInverseOfCast` | controllers/actor.py:192-194 | A movie is in an actor's filmography if and only if that actor is in the movie's cast. |
| `Models.LinkAddsOnePair` | controllers/actor.py:192-194 | Adding a relation adds exactly that movie to that actor's filmography and that actor to that movie's cast. Other actors' filmographies are unchanged. |
| `Models.LinkIsIdempotent` | controllers/movie.py:183 | Adding the same actor–movie pair twice stores it once. |
| `Models.UnlinkActorClearsBothSides` | controllers/actor.py:231-233 | After an actor's relations are cleared, its filmography is empty and it is in no movie's cast. Other actors keep their filmographies. |
| `Models.UnlinkMovieClearsBothSides` | controllers/movie.py:216-218 | After a movie's relations are cleared, its cast is empty and it is in no actor's filmography. Other movies keep their casts. |
| `Models.Store.CreateActor` | controllers/actor.py:78 | `Actor.create(**data)` inserts one actor row under a fresh id and returns that id. Movies and links are unchanged. |
| `Models.Store.CreateMovie` | controllers/movie.py:75 | `Movie.create(**data)` inserts one movie row under a fresh id and returns that id. Actors and links are unchanged. |
| `Models.Store.UpdateActor` | controllers/actor.py:123 | `Actor.update(id, **data)` merges the data into that one actor row. Nothing else changes. |
| `Models.Store.UpdateMovie` | controllers/movie.py:117 | `Movie.update(id, **data)` merges the data into that one movie row. Nothing else changes. |
| `Models.Store.AddRelation` | controllers/actor.py:192 | `add_relation` adds the (actor, movie) pair to the link set. Both rows must exist, so every link joins existing rows. The tables are unchanged. |
| `Models.Store.ClearActorRelations` | controllers/actor.py:231 | `Actor.clear_relations(id)` removes exactly the links of that actor. |
| `Models.Store.ClearMovieRelations` | controllers/movie.py:216 | `Movie.clear_relations(id)` removes exactly the links of that movie. |
| `Models.ProjectAll` | controllers/actor.py:16-20 | The listing loop yields one projection per stored row, in the store's order. |
| `Parsing.ParseInt` | controllers/actor.py:31 | Models `int(s)` on a request string: optional ASCII whitespace around an optional `+`/`-` sign and a run of digits in which single underscores may stand between two digits; anything else is `None` (ValueError). Its contract states that an accepted string, once trimmed, is non-empty and ends in a digit; `Parsing.PlainDigitsParse` states that every non-empty run of plain digits is accepted with its decimal value, and `Parsing.ParseShow` is its round trip with `str`. The same conversion is used at actor.py:96, 141, 173-174, 214 and movie.py:30, 70, 92, 112, 133, 164-165, 204. |
| `Parsing.PlainDigitsParse` | controllers/movie.py:70 | `int()` accepts any non-empty string of ASCII digits, leading zeros included, and reads it as its decimal value. |
| `Checks.KeysAllowed` | controllers/actor.py:65-68 | Definition of the outcome of the allowlist loop: no offending key exactly when every supplied key, apart from the exempt ones, is in the registry (its ensures restate this as a set inclusion). The same loop is at actor.py:108-111 and movie.py:62-65; movie.py:104-107 exempts `id`. What follows from it is proved in `ActorController.UpdateActorNeedsIdField` and `MovieController.UpdateMovieIgnoresIdField`. |
| `Checks.IdCheck` | controllers/actor.py:136-150 | The id ladder runs in this order: missing `id` gives "No id specified"; a non-integer gives the handler's message; an unknown id gives "Record with such id does not exist". It passes with the parsed id exactly when the id parses and exists. |
| `Checks.RelationCheck` | controllers/actor.py:163-198 | "Wrong key" exactly when a key outside {`id`, `relation_id`} is present. Otherwise "Both id and relation_id should be specified" exactly when one is missing. Then "Ids must be integers", then "Actor with such id does not exist", then "Movie with such id does not exist", each exactly under its condition. It passes with (actor, movie) = (`id`, `relation_id`) otherwise. |
| `ActorController.AddActorCheck` | controllers/actor.py:57-76 | A missing required field (`name`, `gender`, `date_of_birth`) or an unregistered key gives "Inputted fields should exist", whatever the date. A bad date gives the date message only when both of those checks pass. The request passes exactly when all three checks pass. |
| `ActorController.UpdateActorCheck` | controllers/actor.py:90-120 | The id errors come first. Then an unregistered key gives "Inputted fields should exist"; `id` is not exempt. Then a supplied `date_of_birth` that is not a date gives "Date of birthday must be in correct format". The request passes, with the parsed id, exactly when all checks pass. |
| `ActorController.UpdateActorNeedsIdField` | controllers/actor.py:107-111 | If `ACTOR_FIELDS` lacks `id`, every `update_actor` request is rejected. |
| `ActorController.GetAllActors` | controllers/actor.py:12-21 | Status 200 with one projection per stored actor, in order. |
| `ActorController.GetActorById` | controllers/actor.py:24-47 | The three errors in ladder order, the last two conditional on the earlier checks passing. "Id must be integer" is the message for a non-integer id. Otherwise the projection of the row. The store cannot change. |
| `ActorController.AddActor` | controllers/actor.py:50-80 | Status 200 exactly when `AddActorCheck` passes. On an error, its message is returned and the store state is unchanged. On success, exactly one actor row is inserted and its projection returned. |
| `ActorController.UpdateActor` | controllers/actor.py:84-125 | Status 200 exactly when `UpdateActorCheck` passes. On an error, the store is unchanged. On success, only that row is updated, and its new projection is returned. |
| `ActorController.DeleteActor` | controllers/actor.py:130-154 | "Record successfully deleted" with status 200 exactly when the id parses and exists; the id ladder's error otherwise. In every case the store cannot change. |
| `ActorController.ActorAddRelation` | controllers/actor.py:158-198 | Status 200 exactly when `RelationCheck` passes. On an error, the store is unchanged. On success, the one link is added, and the response is the actor's projection with the actor's filmography, which contains the movie. |
| `ActorController.ActorClearRelations` | controllers/actor.py:201-234 | Status 200 exactly when the id ladder passes. On an error, the store is unchanged. On success, the actor's links are removed, and the response is its projection with an empty filmography. |
| `MovieController.AddMovieCheck` | controllers/movie.py:55-73 | A missing required field (`name`, `year`, `genre`) or an unregistered key gives "Inputted fields should exist". When both of those pass, a non-integer `year` gives "Year should be an integer". The request passes exactly when all three pass. |
| `MovieController.UpdateMovieCheck` | controllers/movie.py:86-115 | The id errors come first, with "Id must be integer". Then an unregistered key other than `id` gives "Inputted fields should exist". Then a supplied non-integer `year` gives "Year should be an integer". The request passes exactly when all checks pass. |
| `MovieController.UpdateMovieIgnoresIdField` | controllers/movie.py:103-107 | Because `id` is exempt, it makes no difference to `update_movie` whether `MOVIE_FIELDS` lists `id`. |
| `MovieController.GetAllMovies` | controllers/movie.py:11-20 | Status 200 with one projection per stored movie, in order. |
| `MovieController.GetMovieById` | controllers/movie.py:23-46 | The same ladder as for actors, but with "Id must be an integer". Otherwise the projection of the row. The store cannot change. |
| `MovieController.AddMovie` | controllers/movie.py:49-77 | Status 200 exactly when `AddMovieCheck` passes. On an error, the store is unchanged. On success, exactly one movie row is inserted and its projection returned. |
| `MovieController.UpdateMovie` | controllers/movie.py:80-119 | Status 200 exactly when `UpdateMovieCheck` passes. On an error, the store is unchanged. On success, only that row is updated, and its new projection is returned. |
| `MovieController.DeleteMovie` | controllers/movie.py:122-146 | "Record successfully deleted" exactly when the id parses and exists; the error otherwise. The store cannot change. |
| `MovieController.MovieAddRelation` | controllers/movie.py:149-189 | Status 200 exactly when `RelationCheck` passes, with `id` as the actor and `relation_id` as the movie. On an error, the store is unchanged. On success, the link (actor, movie) is added, and the response is the movie's projection with its cast, which contains the actor. |
| `MovieController.MovieClearRelations` | controllers/movie.py:192-219 | Status 200 exactly when the id ladder passes, with "Id must be integer". On an error, the store is unchanged. On success, the movie's links are removed, and the response is its projection with an empty cast. |
| `Scenarios.CreateThenFetchActor` | controllers/actor.py:36-43 | Fetching by the id in a successful creation response returns the same response as the creation. |
| `Scenarios.CreateThenFetchMovie` | controllers/movie.py:35-42 | For movies likewise: when `MOVIE_FIELDS` holds `id`, fetching by the id in a successful `add_movie` response returns the same response as the creation. |
| `Scenarios.CreatedActorShowsRegistry` | controllers/actor.py:78-80 | When every registered actor field other than `id` is a required one, a successful `add_actor` answers with a projection whose keys are exactly `ACTOR_FIELDS`. |
| `Scenarios.CreatedMovieShowsRegistry` | controllers/movie.py:75-77 | When every registered movie field other than `id` is a required one, a successful `add_movie` answers with a projection whose keys are exactly `MOVIE_FIELDS`. |
| `Scenarios.CatalogScenario` | controllers/actor.py:58-80 | On an empty store: the first actor and the first movie get id 1. Linking them from the actor endpoint, then again from the movie endpoint, gives filmography {1} and cast {1}. Id `abc` gives "Id must be integer". A movie without `year` gives "Inputted fields should exist". Besides `add_actor`, the session runs `add_movie` (controllers/movie.py:55-77), `actor_add_relation` (controllers/actor.py:158-198), `movie_add_relation` (controllers/movie.py:149-189) and `get_actor_by_id` (controllers/actor.py:24-47). |

## Left out

- Flask response plumbing: `make_response` and `jsonify` become the `Response` datatype.
- Request parsing: `get_request_data` is not part of this model; its result is the handler's input map. So request values are always strings. A JSON body could also supply a number, a list, an object or `null`; none of these is modelled. `int()` accepts a number: an integer passes every integer check as itself, and a float is truncated, so `{"id": 1.9}` reads row 1. A list, an object or `null` makes `int()` raise TypeError: the handlers with a bare `except:` answer 400 for it, while `except ValueError` in `update_actor`, `delete_actor`, `delete_movie` and both relation handlers lets it escape.
- Integer width: an id that parses but is too large for the database's integer column fails in the storage driver, and the handler never answers "Record with such id does not exist". The model has unbounded integers and answers that message for it.
- `Parsing.ParseInt` is ASCII only. Unicode digits and Unicode whitespace, which Python's `int()` also accepts, are not modelled. Neither is Python's limit on the number of digits in a string conversion.
- `Parsing.ParseDate` is ASCII only. Python's `\d` also matches non-ASCII digits in the second digit of a day from 10 to 29 and in the four digits of `%Y`. `%m` takes ASCII digits only, as the model does.
- The ORM models (`Actor`, `Movie`, `query.get`, `filter_by`, `query.all`) are not part of this model. The store gives each call the least behaviour consistent with its use. Rows hold the request's strings, not typed columns (date, integer). Storage-layer failures, such as constraint violations, are not modelled. Create always assigns the next id, even when the request itself supplies `id`.
- `Models.Update` leaves the `id` column alone. The supplied `id` is the one the row was just found by, so the key column keeps its value; what the ORM does with the string itself is not modelled.
- `query.all()` order: the model lists rows in creation order.
- Links are a set of (actor id, movie id) pairs, so adding a pair that is already there is idempotent by construction (`Models.LinkIsIdempotent`). That property belongs to this model, not to the controllers: whether the ORM's `add_relation` de-duplicates, writes a second association row or raises is not modelled. In the source, `str(actor.filmography)` / `str(movie.cast)` renders a list, which may repeat or order entries; the model answers with a set.
- Projections of a new row: a row holds only the columns the request supplied, plus `id`. So the response to `add_actor` / `add_movie` holds exactly the registered fields only when every registered field other than `id` is a required one (`Scenarios.CreatedActorShowsRegistry`, `Scenarios.CreatedMovieShowsRegistry`). A registered optional column that the request leaves out is missing from the projection, where the ORM would report its default; column defaults are not modelled.
- Rendering: the string `str(actor.filmography)` / `str(movie.cast)` is modelled as the set of related ids under the key `filmography` / `cast`, overriding any projected column of that name. Relationship attributes that `__dict__` might also carry are not part of a row.
- `delete_actor` and `delete_movie` remove nothing, as written.
- Whether a delete should cascade to links does not arise for the same reason.
- The contents of `ACTOR_FIELDS` and `MOVIE_FIELDS` are not part of this model; they are parameters.
- `ast.literal_eval` is imported but unused.
- Concurrency and HTTP routing do not appear in these files.
