/**
 * The backing store behind the controllers: the actor and movie tables and
 * the single actor–movie association table that serves both as an actor's
 * filmography and as a movie's cast. The ORM models that the controllers call
 * (`Actor.create`, `Movie.update`, `add_relation`, `clear_relations`,
 * `query.get`, `query.all`) are not part of this model; they are given here
 * the least behaviour that matches how the controllers use them.
 */
module Models {
  import opened Parsing

  /** A stored row: column name to value. */
  type Row = map<string, string>

  /**
   * One table: rows by primary key, the order in which `query.all()`
   * returns them, and the key the next insert receives.
   */
  datatype Table = Table(rows: map<int, Row>, order: seq<int>, nextId: int)

  /** The whole store. A link `(a, m)` says that actor `a` played in movie `m`. */
  datatype Db = Db(actors: Table, movies: Table, links: set<(int, int)>)

  const EmptyTable := Table(map[], [], 1)

  /**
   * Keys are positive and below `nextId`, each row holds its own key in its
   * `id` column, and `order` lists every key exactly once.
   */
  predicate TableValid(t: Table)
  {
    && t.nextId >= 1
    && (forall k :: k in t.rows ==> 1 <= k < t.nextId && "id" in t.rows[k] && t.rows[k]["id"] == Show(k))
    && (forall i :: 0 <= i < |t.order| ==> t.order[i] in t.rows)
    && (forall k :: k in t.rows ==> k in t.order)
    && (forall i, j :: 0 <= i < j < |t.order| ==> t.order[i] != t.order[j])
  }

  /** Both tables are valid and every link joins an existing actor to an existing movie. */
  predicate DbValid(db: Db)
  {
    && TableValid(db.actors)
    && TableValid(db.movies)
    && forall p :: p in db.links ==> p.0 in db.actors.rows && p.1 in db.movies.rows
  }

  /** The response projection: the row's columns that are in the field registry. */
  function Project(row: Row, fields: set<string>): (p: Row)
    ensures p.Keys == row.Keys * fields
    ensures forall k :: k in p ==> p[k] == row[k]
  {
    map k | k in row && k in fields :: row[k]
  }

  /** A registry that lists every column of a row projects the whole row. */
  lemma ProjectWholeRow(row: Row, fields: set<string>)
    requires row.Keys <= fields
    ensures Project(row, fields) == row
  {
  }

  /** `create(**data)`: a new row under a fresh key, holding `data` and its own key. */
  function Insert(t: Table, data: Row): (t': Table)
    requires TableValid(t)
    ensures TableValid(t')
    ensures t.nextId !in t.rows && t'.rows.Keys == t.rows.Keys + {t.nextId}
    ensures t'.order == t.order + [t.nextId] && t'.nextId > t.nextId
    ensures forall k :: k in t.rows ==> t'.rows[k] == t.rows[k]
    ensures t'.rows[t.nextId].Keys == data.Keys + {"id"}
    ensures forall f :: f in data && f != "id" ==> t'.rows[t.nextId][f] == data[f]
  {
    var id := t.nextId;
    var t' := Table(t.rows[id := data["id" := Show(id)]], t.order + [id], id + 1);
    assert forall i :: 0 <= i < |t.order| ==> t.order[i] != id;
    t'
  }

  /** The first row created in an empty table gets key 1 and holds the data with `id` set to "1". */
  lemma InsertIntoEmpty(data: Row)
    ensures Insert(EmptyTable, data).rows == map[1 := data["id" := Show(1)]]
  {
  }

  /**
   * `update(id, **data)`: every supplied column is overwritten, except the key
   * column, whose supplied value is the very key the row was found by.
   */
  function Merge(row: Row, data: Row): Row
  {
    row + (data - {"id"})
  }

  function Update(t: Table, id: int, data: Row): (t': Table)
    requires TableValid(t) && id in t.rows
    ensures TableValid(t')
    ensures t'.rows.Keys == t.rows.Keys && t'.order == t.order && t'.nextId == t.nextId
    ensures forall k :: k in t.rows && k != id ==> t'.rows[k] == t.rows[k]
    ensures t'.rows[id].Keys == t.rows[id].Keys + data.Keys
    ensures forall f :: f in data && f != "id" ==> t'.rows[id][f] == data[f]
    ensures forall f :: f in t.rows[id] && (f !in data || f == "id") ==> t'.rows[id][f] == t.rows[id][f]
  {
    Table(t.rows[id := Merge(t.rows[id], data)], t.order, t.nextId)
  }

  /** Movies of actor `a`. */
  function Filmography(links: set<(int, int)>, a: int): set<int>
  {
    set p | p in links && p.0 == a :: p.1
  }

  /** Actors of movie `m`. */
  function Cast(links: set<(int, int)>, m: int): set<int>
  {
    set p | p in links && p.1 == m :: p.0
  }

  function Link(links: set<(int, int)>, a: int, m: int): set<(int, int)>
  {
    links + {(a, m)}
  }

  function UnlinkActor(links: set<(int, int)>, a: int): set<(int, int)>
  {
    set p | p in links && p.0 != a
  }

  function UnlinkMovie(links: set<(int, int)>, m: int): set<(int, int)>
  {
    set p | p in links && p.1 != m
  }

  /** Filmography and cast are two views of one association. */
  lemma FilmographyIsInverseOfCast(links: set<(int, int)>, a: int, m: int)
    ensures m in Filmography(links, a) <==> a in Cast(links, m)
  {
  }

  /** Linking adds exactly the one movie to the actor's filmography and the one actor to the movie's cast. */
  lemma LinkAddsOnePair(links: set<(int, int)>, a: int, m: int)
    ensures Filmography(Link(links, a, m), a) == Filmography(links, a) + {m}
    ensures Cast(Link(links, a, m), m) == Cast(links, m) + {a}
    ensures forall b :: b != a ==> Filmography(Link(links, a, m), b) == Filmography(links, b)
  {
    assert (a, m) in Link(links, a, m);
  }

  /** Adding the same pair twice leaves one occurrence. */
  lemma LinkIsIdempotent(links: set<(int, int)>, a: int, m: int)
    ensures Link(Link(links, a, m), a, m) == Link(links, a, m)
  {
  }

  /** After clearing an actor's relations it is in no movie's cast, and other actors keep theirs. */
  lemma UnlinkActorClearsBothSides(links: set<(int, int)>, a: int)
    ensures Filmography(UnlinkActor(links, a), a) == {}
    ensures forall m :: a !in Cast(UnlinkActor(links, a), m)
    ensures forall b :: b != a ==> Filmography(UnlinkActor(links, a), b) == Filmography(links, b)
  {
    forall b | b != a
      ensures Filmography(UnlinkActor(links, a), b) == Filmography(links, b)
    {
      forall m | m in Filmography(links, b)
        ensures m in Filmography(UnlinkActor(links, a), b)
      {
        assert (b, m) in UnlinkActor(links, a);
      }
    }
  }

  /** After clearing a movie's relations it is in no actor's filmography, and other movies keep their casts. */
  lemma UnlinkMovieClearsBothSides(links: set<(int, int)>, m: int)
    ensures Cast(UnlinkMovie(links, m), m) == {}
    ensures forall a :: m !in Filmography(UnlinkMovie(links, m), a)
    ensures forall n :: n != m ==> Cast(UnlinkMovie(links, m), n) == Cast(links, n)
  {
    forall n | n != m
      ensures Cast(UnlinkMovie(links, m), n) == Cast(links, n)
    {
      forall a | a in Cast(links, n)
        ensures a in Cast(UnlinkMovie(links, m), n)
      {
        assert (a, n) in UnlinkMovie(links, m);
      }
    }
  }

  /** The store the controllers share; each mutating call is one ORM operation. */
  class Store {
    var actors: Table
    var movies: Table
    var links: set<(int, int)>

    function State(): Db
      reads this
    {
      Db(actors, movies, links)
    }

    predicate Valid()
      reads this
    {
      DbValid(State())
    }

    constructor ()
      ensures Valid()
      ensures actors == EmptyTable && movies == EmptyTable && links == {}
    {
      actors, movies, links := EmptyTable, EmptyTable, {};
    }

    /** `Actor.create(**data)`. */
    method CreateActor(data: Row) returns (id: int)
      requires Valid()
      modifies this
      ensures Valid()
      ensures id == old(actors.nextId) && id !in old(actors.rows) && id in actors.rows
      ensures actors == Insert(old(actors), data)
      ensures movies == old(movies) && links == old(links)
    {
      id := actors.nextId;
      actors := Insert(actors, data);
    }

    /** `Movie.create(**data)`. */
    method CreateMovie(data: Row) returns (id: int)
      requires Valid()
      modifies this
      ensures Valid()
      ensures id == old(movies.nextId) && id !in old(movies.rows) && id in movies.rows
      ensures movies == Insert(old(movies), data)
      ensures actors == old(actors) && links == old(links)
    {
      id := movies.nextId;
      movies := Insert(movies, data);
    }

    /** `Actor.update(id, **data)`. */
    method UpdateActor(id: int, data: Row)
      requires Valid() && id in actors.rows
      modifies this
      ensures Valid()
      ensures actors == Update(old(actors), id, data)
      ensures movies == old(movies) && links == old(links)
    {
      actors := Update(actors, id, data);
    }

    /** `Movie.update(id, **data)`. */
    method UpdateMovie(id: int, data: Row)
      requires Valid() && id in movies.rows
      modifies this
      ensures Valid()
      ensures movies == Update(old(movies), id, data)
      ensures actors == old(actors) && links == old(links)
    {
      movies := Update(movies, id, data);
    }

    /** `Actor.add_relation(a, movie)` and `Movie.add_relation(m, actor)`: one association row. */
    method AddRelation(a: int, m: int)
      requires Valid() && a in actors.rows && m in movies.rows
      modifies this
      ensures Valid()
      ensures links == Link(old(links), a, m)
      ensures actors == old(actors) && movies == old(movies)
    {
      links := Link(links, a, m);
    }

    /** `Actor.clear_relations(a)`. */
    method ClearActorRelations(a: int)
      requires Valid()
      modifies this
      ensures Valid()
      ensures links == UnlinkActor(old(links), a)
      ensures actors == old(actors) && movies == old(movies)
    {
      links := UnlinkActor(links, a);
    }

    /** `Movie.clear_relations(m)`. */
    method ClearMovieRelations(m: int)
      requires Valid()
      modifies this
      ensures Valid()
      ensures links == UnlinkMovie(old(links), m)
      ensures actors == old(actors) && movies == old(movies)
    {
      links := UnlinkMovie(links, m);
    }
  }

  /**
   * `[projection of row for row in query.all()]`: one projection per stored
   * row, in the table's order.
   */
  method ProjectAll(t: Table, fields: set<string>) returns (items: seq<Row>)
    requires TableValid(t)
    ensures |items| == |t.order|
    ensures forall i :: 0 <= i < |t.order| ==> items[i] == Project(t.rows[t.order[i]], fields)
  {
    items := [];
    var i := 0;
    while i < |t.order|
      invariant 0 <= i <= |t.order|
      invariant |items| == i
      invariant forall j :: 0 <= j < i ==> items[j] == Project(t.rows[t.order[j]], fields)
    {
      items := items + [Project(t.rows[t.order[i]], fields)];
      i := i + 1;
    }
  }
}
