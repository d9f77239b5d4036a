/** The in-memory Reservation entity: its fields, the validating setters that
    guard every assignment, and the constructor that routes a record of
    fields through those setters. */
module Reservations {
  import opened Wrappers

  /** What a setter, the constructor or a lookup can throw. Messages are not
      modelled, only which check failed. */
  datatype Error =
    | TooFewGuests                      // numGuests setter: value below 1
    | InvalidStartAt                    // startAt setter: not a valid Date
    | CustomerIdChanged                 // customerId setter: set-once guard
    | NotFound(id: int, status: int)    // lookup by id: no such row
    | QueryFailed                       // the database rejected the query

  /** A valid point in time, as milliseconds since the epoch. */
  datatype Instant = Instant(epochMillis: int)

  /** What is handed to the startAt setter: a Date object whose time value
      is a number of milliseconds or NaN (`None`, an "Invalid Date"), or any
      value that is not a Date at all (a string, a number, null, undefined). */
  datatype DateArg = DateObject(time: Option<int>) | NotADate

  /** A reservation as held in memory. `id` is `None` until the first save;
      `customerId` is `None` when it was never given. */
  datatype Reservation = Reservation(
    id: Option<int>,
    customerId: Option<int>,
    numGuests: int,
    startAt: Instant,
    notes: string)

  /** The record the constructor accepts: one raw value per field. */
  datatype Fields = Fields(
    id: Option<int>,
    customerId: Option<int>,
    numGuests: int,
    startAt: DateArg,
    notes: Option<string>)

  /** JavaScript truthiness of a customer id: `undefined` and `0` are falsy. */
  predicate Truthy(v: Option<int>) {
    v.Some? && v.value != 0
  }

  /** JavaScript truthiness of a notes value: `undefined`, `null` and `""` are falsy. */
  predicate TruthyText(v: Option<string>) {
    v.Some? && v.value != ""
  }

  /** `v instanceof Date && !isNaN(v)` */
  predicate IsValidDate(d: DateArg) {
    d.DateObject? && d.time.Some?
  }

  /** The invariant every successfully built or updated reservation keeps.
      (A valid start time and a string for notes are ensured by the types.) */
  predicate Valid(r: Reservation) {
    r.numGuests >= 1
  }

  /** The Date that the startAt getter hands back for a stored instant. */
  function AsDateArg(t: Instant): DateArg {
    DateObject(Some(t.epochMillis))
  }

  /** The record that would rebuild `r`: its own getters' values. */
  function FieldsOf(r: Reservation): Fields {
    Fields(r.id, r.customerId, r.numGuests, AsDateArg(r.startAt), Some(r.notes))
  }

  // ---------------------------------------------------------------------------
  // Field checks: the part of each setter that decides what is stored.
  // ---------------------------------------------------------------------------

  function CheckNumGuests(v: int): (r: Result<int, Error>)
    ensures r.Success? <==> v >= 1
    ensures r.Success? ==> r.value == v
    ensures r.Failure? ==> r.error == TooFewGuests
  {
    if v < 1 then Failure(TooFewGuests) else Success(v)
  }

  function CheckStartAt(d: DateArg): (r: Result<Instant, Error>)
    ensures r.Success? <==> IsValidDate(d)
    ensures r.Success? ==> AsDateArg(r.value) == d
    ensures r.Failure? ==> r.error == InvalidStartAt
  {
    if d.DateObject? && d.time.Some? then Success(Instant(d.time.value))
    else Failure(InvalidStartAt)
  }

  /** `v || ""`: a falsy value becomes the empty string. */
  function NormalizeNotes(v: Option<string>): (s: string)
    ensures TruthyText(v) ==> s == v.value
    ensures !TruthyText(v) ==> s == ""
    ensures v.Some? ==> s == v.value
  {
    if v.Some? && v.value != "" then v.value else ""
  }

  /** The set-once guard: only a truthy prior value that differs from the new
      one (strict inequality) is refused. */
  function CheckCustomerId(prior: Option<int>, v: Option<int>): (r: Result<Option<int>, Error>)
    ensures r.Failure? <==> Truthy(prior) && prior != v
    ensures r.Success? ==> r.value == v
    ensures r.Failure? ==> r.error == CustomerIdChanged
  {
    if prior.Some? && prior.value != 0 && prior != v then Failure(CustomerIdChanged)
    else Success(v)
  }

  // ---------------------------------------------------------------------------
  // Setters on a reservation. A setter that throws assigns nothing, so the
  // caller keeps the reservation it had.
  // ---------------------------------------------------------------------------

  function SetNumGuests(r: Reservation, v: int): (r': Result<Reservation, Error>)
    ensures r'.Success? <==> v >= 1
    ensures r'.Success? ==> r'.value.numGuests == v && r'.value == r.(numGuests := v)
    ensures r'.Success? ==> Valid(r'.value)
    ensures r'.Failure? ==> r'.error == TooFewGuests
  {
    var n :- CheckNumGuests(v);
    Success(r.(numGuests := n))
  }

  function SetStartAt(r: Reservation, d: DateArg): (r': Result<Reservation, Error>)
    ensures r'.Success? <==> IsValidDate(d)
    ensures r'.Success? ==> AsDateArg(r'.value.startAt) == d
    ensures r'.Success? ==> r'.value == r.(startAt := r'.value.startAt)
    ensures r'.Failure? ==> r'.error == InvalidStartAt
  {
    var t :- CheckStartAt(d);
    Success(r.(startAt := t))
  }

  /** Never throws. */
  function SetNotes(r: Reservation, v: Option<string>): (r': Reservation)
    ensures TruthyText(v) ==> r'.notes == v.value
    ensures !TruthyText(v) ==> r'.notes == ""
    ensures r' == r.(notes := r'.notes)
  {
    r.(notes := NormalizeNotes(v))
  }

  function SetCustomerId(r: Reservation, v: Option<int>): (r': Result<Reservation, Error>)
    ensures r'.Failure? <==> Truthy(r.customerId) && r.customerId != v
    ensures r'.Success? ==> r'.value == r.(customerId := v)
    ensures r'.Failure? ==> r'.error == CustomerIdChanged
  {
    var c :- CheckCustomerId(r.customerId, v);
    Success(r.(customerId := c))
  }

  // ---------------------------------------------------------------------------
  // The constructor: id, customerId, numGuests, startAt, notes, in that
  // order, each through its setter, on an object that has no prior values.
  // ---------------------------------------------------------------------------

  function New(f: Fields): (r: Result<Reservation, Error>)
    ensures r.Success? <==> f.numGuests >= 1 && IsValidDate(f.startAt)
    ensures r.Success? ==> Valid(r.value)
    ensures r.Success? ==>
      && r.value.id == f.id
      && r.value.customerId == f.customerId
      && r.value.numGuests == f.numGuests
      && AsDateArg(r.value.startAt) == f.startAt
      && (TruthyText(f.notes) ==> r.value.notes == f.notes.value)
      && (!TruthyText(f.notes) ==> r.value.notes == "")
    // the first failing setter decides the error; the customerId guard never fires
    ensures f.numGuests < 1 ==> r == Failure(TooFewGuests)
    ensures f.numGuests >= 1 && !IsValidDate(f.startAt) ==> r == Failure(InvalidStartAt)
  {
    // a fresh object has no prior customer id, so this guard always passes
    var c := CheckCustomerId(None, f.customerId).value;
    var n :- CheckNumGuests(f.numGuests);
    var t :- CheckStartAt(f.startAt);
    Success(Reservation(f.id, c, n, t, NormalizeNotes(f.notes)))
  }

  // ---------------------------------------------------------------------------
  // Properties relating several calls.
  // ---------------------------------------------------------------------------

  /** Writing back what a getter returned succeeds and changes nothing. */
  lemma GetThenSetIsIdentity(r: Reservation)
    requires Valid(r)
    ensures SetNumGuests(r, r.numGuests) == Success(r)
    ensures SetStartAt(r, AsDateArg(r.startAt)) == Success(r)
    ensures SetNotes(r, Some(r.notes)) == r
    ensures SetCustomerId(r, r.customerId) == Success(r)
  {
  }

  /** Setting notes twice with the same value is the same as setting it once,
      and the second call reads back what the first stored. */
  lemma SetNotesIdempotent(r: Reservation, v: Option<string>)
    ensures SetNotes(SetNotes(r, v), v) == SetNotes(r, v)
    ensures SetNotes(SetNotes(r, v), Some(SetNotes(r, v).notes)) == SetNotes(r, v)
  {
  }

  /** Once a truthy customer id is stored, no assignment can change it:
      either it is the same value, or the setter throws and nothing changes. */
  lemma CustomerIdSetOnce(r: Reservation, v: Option<int>)
    requires Truthy(r.customerId)
    ensures SetCustomerId(r, v).Success? <==> v == r.customerId
    ensures SetCustomerId(r, v).Success? ==> SetCustomerId(r, v).value == r
  {
  }

  /** The constructor never throws for the customer id, whatever it is given. */
  lemma NewNeverRefusesCustomerId(f: Fields)
    ensures New(f) != Failure(CustomerIdChanged)
  {
  }

  /** Rebuilding a valid reservation from its own getters' values gives it back. */
  lemma NewFieldsOfRoundTrip(r: Reservation)
    requires Valid(r)
    ensures New(FieldsOf(r)) == Success(r)
  {
  }

  /** The constructor agrees with applying the setters one after another to
      any reservation whose customer id is unset. */
  lemma NewIsSetterSequence(f: Fields, blank: Reservation)
    requires blank.customerId.None?
    ensures New(f).Success? <==>
      && SetCustomerId(blank.(id := f.id), f.customerId).Success?
      && SetNumGuests(SetCustomerId(blank.(id := f.id), f.customerId).value, f.numGuests).Success?
      && SetStartAt(SetNumGuests(SetCustomerId(blank.(id := f.id), f.customerId).value, f.numGuests).value, f.startAt).Success?
    ensures New(f).Success? ==>
      New(f).value == SetNotes(SetStartAt(SetNumGuests(SetCustomerId(blank.(id := f.id), f.customerId).value, f.numGuests).value, f.startAt).value, f.notes)
  {
  }
}
