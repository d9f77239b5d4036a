/** A reservation's life as a sequence of operations — setter calls and
    saves — over one store. A setter that throws leaves the state as it was,
    as the caller sees it after catching the error. */
module Lifecycle {
  import opened Wrappers
  import opened Reservations
  import opened Store

  datatype Op =
    | AssignNumGuests(n: int)
    | AssignStartAt(d: DateArg)
    | AssignNotes(v: Option<string>)
    | AssignCustomerId(c: Option<int>)
    | Persist

  /** Adopt the setter's result, or keep the reservation if it threw. */
  function Adopt(s: State, r: Result<Reservation, Error>): (s': State)
    ensures r.Success? ==> s' == s.(res := r.value)
    ensures r.Failure? ==> s' == s
  {
    if r.Success? then s.(res := r.value) else s
  }

  /** The ids the store holds after `s`, plus the one a first insert added. */
  function AddedKey(s: State, s': State): set<int> {
    if s.res.id.None? && s'.res.id.Some? then {s'.res.id.value} else {}
  }

  function Step(s: State, op: Op): (s': State)
    ensures WellFormed(s.db) ==> WellFormed(s'.db)
    ensures Valid(s.res) ==> Valid(s'.res)
    // the id is assigned by a save only, from the sequence, and never changes after
    ensures s.res.id.Some? ==> s'.res.id == s.res.id
    ensures s.res.id.None? && s'.res.id.Some? ==> op.Persist? && s'.res.id.value == s.db.nextId
    ensures op.Persist? ==> s'.res.id.Some?
    // a truthy customer id is frozen
    ensures Truthy(s.res.customerId) ==> s'.res.customerId == s.res.customerId
    // the store gains at most the freshly inserted row and loses none
    ensures s'.db.rows.Keys == s.db.rows.Keys + AddedKey(s, s')
    ensures s.db.nextId <= s'.db.nextId
    ensures forall k :: k in s.db.rows && Some(k) != s'.res.id ==> s'.db.rows[k] == s.db.rows[k]
    ensures WellFormed(s.db) ==>
      forall k :: k in s.db.rows ==> s'.db.rows[k].customerId == s.db.rows[k].customerId
  {
    match op
    case AssignNumGuests(n) => Adopt(s, SetNumGuests(s.res, n))
    case AssignStartAt(d) => Adopt(s, SetStartAt(s.res, d))
    case AssignNotes(v) => s.(res := SetNotes(s.res, v))
    case AssignCustomerId(c) => Adopt(s, SetCustomerId(s.res, c))
    case Persist => Save(s)
  }

  function Run(s: State, ops: seq<Op>): State
    decreases |ops|
  {
    if |ops| == 0 then s else Run(Step(s, ops[0]), ops[1..])
  }

  /** The store stays well formed and the reservation valid. */
  lemma {:induction false} RunPreservesInvariants(s: State, ops: seq<Op>)
    requires WellFormed(s.db) && Valid(s.res)
    ensures WellFormed(Run(s, ops).db) && Valid(Run(s, ops).res)
    decreases |ops|
  {
    if |ops| > 0 {
      RunPreservesInvariants(Step(s, ops[0]), ops[1..]);
    }
  }

  /** Once assigned, the id never changes. */
  lemma {:induction false} RunKeepsAssignedId(s: State, ops: seq<Op>)
    requires s.res.id.Some?
    ensures Run(s, ops).res.id == s.res.id
    decreases |ops|
  {
    if |ops| > 0 {
      RunKeepsAssignedId(Step(s, ops[0]), ops[1..]);
    }
  }

  /** A run that saves at least once ends with an id assigned. */
  lemma {:induction false} RunWithSaveAssignsId(s: State, ops: seq<Op>, i: int)
    requires 0 <= i < |ops| && ops[i].Persist?
    ensures Run(s, ops).res.id.Some?
    decreases |ops|
  {
    if i == 0 {
      RunKeepsAssignedId(Step(s, ops[0]), ops[1..]);
    } else {
      RunWithSaveAssignsId(Step(s, ops[0]), ops[1..], i - 1);
    }
  }

  /** A truthy customer id survives every operation. */
  lemma {:induction false} RunKeepsTruthyCustomerId(s: State, ops: seq<Op>)
    requires Truthy(s.res.customerId)
    ensures Run(s, ops).res.customerId == s.res.customerId
    decreases |ops|
  {
    if |ops| > 0 {
      RunKeepsTruthyCustomerId(Step(s, ops[0]), ops[1..]);
    }
  }

  /** Over a whole run the store gains exactly the row of the first insert,
      if there was one, and no other row. */
  lemma {:induction false} RunInsertsAtMostOnce(s: State, ops: seq<Op>)
    ensures Run(s, ops).db.rows.Keys == s.db.rows.Keys + AddedKey(s, Run(s, ops))
    decreases |ops|
  {
    if |ops| > 0 {
      var s1 := Step(s, ops[0]);
      RunInsertsAtMostOnce(s1, ops[1..]);
      if s1.res.id.Some? {
        RunKeepsAssignedId(s1, ops[1..]);
      }
    }
  }

  /** With a well-formed store the inserted row is new, so the row count grows
      by one exactly when the run assigned the id. */
  lemma RunRowCount(s: State, ops: seq<Op>)
    requires WellFormed(s.db)
    ensures |Run(s, ops).db.rows| ==
      |s.db.rows| + (if s.res.id.None? && Run(s, ops).res.id.Some? then 1 else 0)
  {
    RunInsertsAtMostOnce(s, ops);
    if s.res.id.None? && Run(s, ops).res.id.Some? {
      RunFreshId(s, ops);
    }
  }

  /** An id assigned during a run is not one the store held before it. */
  lemma {:induction false} RunFreshId(s: State, ops: seq<Op>)
    requires WellFormed(s.db)
    requires s.res.id.None? && Run(s, ops).res.id.Some?
    ensures Run(s, ops).res.id.value !in s.db.rows
    ensures Run(s, ops).res.id.value >= s.db.nextId
    decreases |ops|
  {
    var s1 := Step(s, ops[0]);
    if s1.res.id.Some? {
      RunKeepsAssignedId(s1, ops[1..]);
    } else {
      RunFreshId(s1, ops[1..]);
    }
  }

  /** Rows other than the reservation's own are never touched. */
  lemma {:induction false} RunTouchesOnlyOwnRow(s: State, ops: seq<Op>, k: int)
    requires WellFormed(s.db)
    requires k in s.db.rows && Some(k) != s.res.id
    ensures k in Run(s, ops).db.rows && Run(s, ops).db.rows[k] == s.db.rows[k]
    decreases |ops|
  {
    if |ops| > 0 {
      var s1 := Step(s, ops[0]);
      assert Some(k) != s1.res.id;
      RunTouchesOnlyOwnRow(s1, ops[1..], k);
    }
  }

  /** No row's customer_id is ever written after its insert. */
  lemma {:induction false} RunKeepsCustomerColumn(s: State, ops: seq<Op>, k: int)
    requires WellFormed(s.db)
    requires k in s.db.rows
    ensures k in Run(s, ops).db.rows
    ensures Run(s, ops).db.rows[k].customerId == s.db.rows[k].customerId
    decreases |ops|
  {
    if |ops| > 0 {
      var s1 := Step(s, ops[0]);
      RunKeepsCustomerColumn(s1, ops[1..], k);
    }
  }

  /** A saved reservation and its row name the same customer. */
  ghost predicate Linked(s: State) {
    s.res.id.Some? ==>
      && s.res.id.value in s.db.rows
      && s.db.rows[s.res.id.value].customerId == s.res.customerId
  }

  /** With a truthy customer id, frozen in memory and never rewritten in the
      row, the link survives every operation. */
  lemma StepKeepsLinked(s: State, op: Op)
    requires WellFormed(s.db) && Truthy(s.res.customerId) && Linked(s)
    ensures Linked(Step(s, op))
  {
  }

  lemma {:induction false} RunKeepsLinked(s: State, ops: seq<Op>)
    requires WellFormed(s.db) && Truthy(s.res.customerId) && Linked(s)
    ensures Linked(Run(s, ops))
    decreases |ops|
  {
    if |ops| > 0 {
      var s1 := Step(s, ops[0]);
      StepKeepsLinked(s, ops[0]);
      RunKeepsLinked(s1, ops[1..]);
    }
  }

  /** A run that ends with a save leaves the row in step with the
      reservation: the lookup by its id gives the reservation back. */
  lemma RunEndingInSaveIsFound(s: State, ops: seq<Op>)
    requires WellFormed(s.db) && Valid(s.res) && Truthy(s.res.customerId) && Linked(s)
    ensures
      var s' := Run(s, ops + [Persist]);
      && s'.res.id.Some?
      && Get(s'.db, s'.res.id.value) == Success(s'.res)
  {
    var mid := Run(s, ops);
    RunSplit(s, ops, [Persist]);
    RunPreservesInvariants(s, ops);
    RunKeepsLinked(s, ops);
    assert Run(mid, [Persist]) == Save(mid);
    SaveThenGet(mid);
  }

  /** Running two sequences one after the other is running their concatenation. */
  lemma {:induction false} RunSplit(s: State, a: seq<Op>, b: seq<Op>)
    ensures Run(s, a + b) == Run(Run(s, a), b)
    decreases |a|
  {
    if |a| > 0 {
      assert (a + b)[0] == a[0];
      assert (a + b)[1..] == a[1..] + b;
      RunSplit(Step(s, a[0]), a[1..], b);
    } else {
      assert a + b == b;
    }
  }
}
