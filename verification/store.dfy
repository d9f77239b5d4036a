/** The reservations table, abstracted: a map from generated id to row, and
    the next value of the id sequence. Saving, listing by customer and
    looking up by id are pure transitions over it. */
module Store {
  import opened Wrappers
  import opened Reservations

  /** One row of the reservations table. `customer_id` and `notes` may be
      NULL; `start_at` is a timestamp column, so a non-NULL value is always a
      valid time. */
  datatype Row = Row(
    customerId: Option<int>,
    numGuests: int,
    startAt: Option<Instant>,
    notes: Option<string>)

  /** The table and its id sequence. */
  datatype Db = Db(rows: map<int, Row>, nextId: int)

  /** A reservation together with the store it is saved into. */
  datatype State = State(res: Reservation, db: Db)

  /** The HTTP status a missing reservation is reported with. */
  const NotFoundStatus := 404

  /** The id sequence starts at 1 and has never handed out `nextId` or any
      later value, so every generated id is fresh. */
  predicate WellFormed(db: Db) {
    && db.nextId >= 1
    && forall k :: k in db.rows ==> 1 <= k < db.nextId
  }

  /** The row the insert writes: all four columns from the getters. */
  function RowOf(r: Reservation): Row {
    Row(r.customerId, r.numGuests, Some(r.startAt), Some(r.notes))
  }

  /** The update writes num_guests, start_at and notes, and nothing else. */
  function UpdatedRow(row: Row, r: Reservation): (row': Row)
    ensures row'.customerId == row.customerId
    ensures row' == RowOf(r).(customerId := row.customerId)
  {
    row.(numGuests := r.numGuests, startAt := Some(r.startAt), notes := Some(r.notes))
  }

  /** A start_at column as the driver hands it over: a Date, or null. */
  function StartAtArg(c: Option<Instant>): DateArg {
    if c.Some? then AsDateArg(c.value) else NotADate
  }

  /** A selected row, under the column aliases the constructor expects. */
  function FieldsOfRow(id: int, row: Row): Fields {
    Fields(Some(id), row.customerId, row.numGuests, StartAtArg(row.startAt), row.notes)
  }

  /** Turning a selected row into a Reservation goes through the constructor,
      so a stored row that breaks a setter's rule makes the load throw. */
  function Load(id: int, row: Row): (r: Result<Reservation, Error>)
    ensures r.Success? <==> row.numGuests >= 1 && row.startAt.Some?
    ensures r.Success? ==>
      && r.value.id == Some(id)
      && r.value.customerId == row.customerId
      && r.value.numGuests == row.numGuests
      && r.value.startAt == row.startAt.value
      && r.value.notes == (if row.notes.Some? then row.notes.value else "")
    ensures row.numGuests < 1 ==> r == Failure(TooFewGuests)
    ensures row.numGuests >= 1 && row.startAt.None? ==> r == Failure(InvalidStartAt)
  {
    New(FieldsOfRow(id, row))
  }

  // ---------------------------------------------------------------------------
  // save()
  // ---------------------------------------------------------------------------

  /** Without an id: insert one row and adopt the generated id. With an id:
      update that row's num_guests, start_at and notes; an id with no row
      updates nothing. Storage failures are not modelled. */
  function Save(s: State): (s': State)
    // insert branch
    ensures s.res.id.None? ==>
      && s'.res == s.res.(id := Some(s.db.nextId))
      && s'.db.nextId == s.db.nextId + 1
      && s'.db.rows.Keys == s.db.rows.Keys + {s.db.nextId}
      && s'.db.rows[s.db.nextId] == RowOf(s.res)
    ensures s.res.id.None? && WellFormed(s.db) ==>
      && s.db.nextId !in s.db.rows
      && |s'.db.rows| == |s.db.rows| + 1
    // update branch
    ensures s.res.id.Some? ==>
      && s'.res == s.res
      && s'.db.nextId == s.db.nextId
      && s'.db.rows.Keys == s.db.rows.Keys
    ensures s.res.id.Some? && s.res.id.value in s.db.rows ==>
      s'.db.rows[s.res.id.value] == UpdatedRow(s.db.rows[s.res.id.value], s.res)
    // both branches
    ensures s'.res.id.Some?
    ensures forall k :: k in s.db.rows && Some(k) != s'.res.id ==> s'.db.rows[k] == s.db.rows[k]
    ensures WellFormed(s.db) ==> WellFormed(s'.db)
    ensures WellFormed(s.db) ==>
      forall k :: k in s.db.rows ==> s'.db.rows[k].customerId == s.db.rows[k].customerId
  {
    match s.res.id
    case None =>
      var id := s.db.nextId;
      State(s.res.(id := Some(id)), Db(s.db.rows[id := RowOf(s.res)], id + 1))
    case Some(id) =>
      if id in s.db.rows then
        s.(db := s.db.(rows := s.db.rows[id := UpdatedRow(s.db.rows[id], s.res)]))
      else
        s
  }

  /** A second save takes the update branch: it adds no row and draws no id. */
  lemma SaveTwiceInsertsOnce(s: State)
    requires WellFormed(s.db)
    ensures Save(Save(s)).res == Save(s).res
    ensures Save(Save(s)).db.rows.Keys == Save(s).db.rows.Keys
    ensures Save(Save(s)).db.nextId == Save(s).db.nextId
    ensures |Save(Save(s)).db.rows| == |s.db.rows| + (if s.res.id.None? then 1 else 0)
  {
  }

  /** Saving a valid reservation and reading its row back gives the saved
      reservation, provided the row's customer_id agrees with it; the insert
      writes customer_id, so a first save always round-trips. */
  lemma SaveThenLoad(s: State)
    requires Valid(s.res)
    requires s.res.id.Some? ==>
      s.res.id.value in s.db.rows && s.db.rows[s.res.id.value].customerId == s.res.customerId
    ensures Save(s).res.id.value in Save(s).db.rows
    ensures Load(Save(s).res.id.value, Save(s).db.rows[Save(s).res.id.value]) == Success(Save(s).res)
  {
  }

  /** The update does not write customer_id: a reservation whose falsy
      customer id was changed in memory after its first save keeps the old
      value in its row. */
  lemma UpdateKeepsStoredCustomerId()
    ensures
      var r := Reservation(None, None, 2, Instant(0), "");
      var s1 := Save(State(r, Db(map[], 1)));
      var s2 := Save(s1.(res := SetCustomerId(s1.res, Some(7)).value));
      && s2.db.rows[1].customerId == None
      && s2.res.customerId == Some(7)
  {
  }

  // ---------------------------------------------------------------------------
  // getReservationsForCustomer(customerId)
  // ---------------------------------------------------------------------------

  /** The ids of the rows `WHERE customer_id = $1` selects; a NULL
      customer_id matches nothing. */
  function MatchingIds(db: Db, customerId: int): (ids: set<int>)
    ensures forall k :: k in ids <==> k in db.rows && db.rows[k].customerId == Some(customerId)
  {
    set k | k in db.rows && db.rows[k].customerId == Some(customerId)
  }

  /** A non-empty set has an element. */
  lemma NonEmptyHasElement(s: set<int>)
    requires s != {}
    ensures exists k :: k in s
  {
    if forall k :: k !in s {
      assert false;
    }
  }

  /** Every entry of `acc` is the load of a distinct row whose id is in `done`. */
  ghost predicate LoadedFrom(db: Db, acc: seq<Reservation>, done: set<int>) {
    forall i :: 0 <= i < |acc| ==>
      && acc[i].id.Some?
      && acc[i].id.value in done
      && acc[i].id.value in db.rows
      && Load(acc[i].id.value, db.rows[acc[i].id.value]) == Success(acc[i])
  }

  /** Every id in `done` has an entry in `acc`. */
  ghost predicate Covers(acc: seq<Reservation>, done: set<int>) {
    forall k :: k in done ==> exists i :: 0 <= i < |acc| && acc[i].id == Some(k)
  }

  /** No id appears twice in `acc`. */
  ghost predicate DistinctIds(acc: seq<Reservation>) {
    forall i, j :: 0 <= i < j < |acc| ==> acc[i].id != acc[j].id
  }

  /** `acc` holds exactly one loaded Reservation per id in `done`. */
  ghost predicate Collected(db: Db, acc: seq<Reservation>, done: set<int>) {
    && |acc| == |done|
    && LoadedFrom(db, acc, done)
    && Covers(acc, done)
    && DistinctIds(acc)
  }

  /** Loading one more row extends the collection. */
  lemma CollectedStep(db: Db, acc: seq<Reservation>, done: set<int>, k: int, r: Reservation)
    requires Collected(db, acc, done)
    requires k !in done && k in db.rows
    requires Load(k, db.rows[k]) == Success(r)
    ensures Collected(db, acc + [r], done + {k})
  {
    LoadedFromStep(db, acc, done, k, r);
    CoversStep(acc, done, k, r);
    DistinctStep(db, acc, done, k, r);
  }

  lemma LoadedFromStep(db: Db, acc: seq<Reservation>, done: set<int>, k: int, r: Reservation)
    requires LoadedFrom(db, acc, done)
    requires k in db.rows && Load(k, db.rows[k]) == Success(r)
    ensures LoadedFrom(db, acc + [r], done + {k})
  {
  }

  lemma CoversStep(acc: seq<Reservation>, done: set<int>, k: int, r: Reservation)
    requires Covers(acc, done)
    requires r.id == Some(k)
    ensures Covers(acc + [r], done + {k})
  {
    var acc' := acc + [r];
    forall k' | k' in done + {k}
      ensures exists i :: 0 <= i < |acc'| && acc'[i].id == Some(k')
    {
      if k' == k {
        assert acc'[|acc|].id == Some(k);
      } else {
        var i :| 0 <= i < |acc| && acc[i].id == Some(k');
        assert acc'[i] == acc[i];
      }
    }
  }

  lemma DistinctStep(db: Db, acc: seq<Reservation>, done: set<int>, k: int, r: Reservation)
    requires LoadedFrom(db, acc, done) && DistinctIds(acc)
    requires k !in done && r.id == Some(k)
    ensures DistinctIds(acc + [r])
  {
  }

  /** Every collected id loaded successfully. */
  lemma CollectedLoaded(db: Db, acc: seq<Reservation>, done: set<int>, k: int)
    requires Collected(db, acc, done)
    requires k in done
    ensures k in db.rows && Load(k, db.rows[k]).Success?
  {
  }

  /** One Reservation per selected row, built by the constructor. The query
      has no ORDER BY, so rows are taken in an unspecified order; if a row
      fails to load, that error is thrown. */
  method GetReservationsForCustomer(db: Db, customerId: int) returns (r: Result<seq<Reservation>, Error>)
    ensures r.Success? <==>
      forall k :: k in MatchingIds(db, customerId) ==> Load(k, db.rows[k]).Success?
    ensures r.Success? ==> |r.value| == |MatchingIds(db, customerId)|
    ensures r.Success? ==> forall i :: 0 <= i < |r.value| ==>
      && r.value[i].id.Some?
      && r.value[i].id.value in MatchingIds(db, customerId)
      && Load(r.value[i].id.value, db.rows[r.value[i].id.value]) == Success(r.value[i])
      && r.value[i].customerId == Some(customerId)
    ensures r.Success? ==> forall k :: k in MatchingIds(db, customerId) ==>
      exists i :: 0 <= i < |r.value| && r.value[i].id == Some(k)
    ensures r.Success? ==> forall i, j :: 0 <= i < j < |r.value| ==> r.value[i].id != r.value[j].id
    ensures r.Failure? ==>
      exists k :: k in MatchingIds(db, customerId) && Load(k, db.rows[k]) == Failure(r.error)
  {
    var matching := MatchingIds(db, customerId);
    var todo := matching;
    var acc: seq<Reservation> := [];
    ghost var done: set<int> := {};
    while todo != {}
      invariant todo <= matching
      invariant done == matching - todo
      invariant Collected(db, acc, done)
      decreases todo
    {
      NonEmptyHasElement(todo);
      var k :| k in todo;
      var loaded := Load(k, db.rows[k]);
      if loaded.Failure? {
        return Failure(loaded.error);
      }
      CollectedStep(db, acc, done, k, loaded.value);
      acc := acc + [loaded.value];
      done := done + {k};
      todo := todo - {k};
    }
    forall k | k in matching
      ensures Load(k, db.rows[k]).Success?
    {
      CollectedLoaded(db, acc, done, k);
    }
    r := Success(acc);
  }

  /** A saved reservation is among those its customer's query selects. */
  lemma SavedReservationIsSelected(s: State, customerId: int)
    requires WellFormed(s.db)
    requires s.res.customerId == Some(customerId)
    requires s.res.id.Some? ==>
      s.res.id.value in s.db.rows && s.db.rows[s.res.id.value].customerId == s.res.customerId
    ensures Save(s).res.id.value in MatchingIds(Save(s).db, customerId)
    ensures MatchingIds(Save(s).db, customerId) ==
      MatchingIds(s.db, customerId) + {Save(s).res.id.value}
  {
  }

  // ---------------------------------------------------------------------------
  // Reservation.get(id)
  // ---------------------------------------------------------------------------

  /** Lookup as written: the column list lacks two commas, so the database
      rejects the query, and the row access that follows it reads a property
      the result does not have. Neither the not-found report nor a found
      reservation can come out of it. */
  function GetAsWritten(db: Db, id: int): (r: Result<Reservation, Error>)
    ensures r.Failure? && !r.error.NotFound?
  {
    Failure(QueryFailed)
  }

  /** Lookup as intended: the matching row through the constructor, or a
      not-found error carrying status 404. */
  function Get(db: Db, id: int): (r: Result<Reservation, Error>)
    ensures r == Failure(NotFound(id, NotFoundStatus)) <==> id !in db.rows
    ensures r.Success? ==> id in db.rows && r.value.id == Some(id)
    ensures id in db.rows ==> r == Load(id, db.rows[id])
  {
    if id !in db.rows then Failure(NotFound(id, NotFoundStatus))
    else Load(id, db.rows[id])
  }

  /** On an empty table the intended lookup reports 404, the written one does not. */
  lemma GetAsWrittenMissesNotFound()
    ensures Get(Db(map[], 1), 1) == Failure(NotFound(1, 404))
    ensures GetAsWritten(Db(map[], 1), 1) == Failure(QueryFailed)
  {
  }

  /** After a save, the intended lookup finds the saved reservation. */
  lemma SaveThenGet(s: State)
    requires Valid(s.res)
    requires s.res.id.Some? ==>
      s.res.id.value in s.db.rows && s.db.rows[s.res.id.value].customerId == s.res.customerId
    ensures Get(Save(s).db, Save(s).res.id.value) == Success(Save(s).res)
  {
  }
}
