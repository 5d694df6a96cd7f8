/** The relational store the routes share (`db` and its session): one map
    from row id to record per table. A route's multi-row change is staged
    on local values and assigned to the tables only when the commit
    succeeds, so a rollback is simply "nothing was assigned". */
module Database {
  import opened Common
  import Ordering
  import opened Payments
  import opened SuccessfulPayments
  import opened FailedPayments
  import opened VerifiedNgos
  import opened TempNgos
  import opened RejectedNgos

  /** A snapshot of every table. */
  datatype Tables = Tables(
    pending: map<nat, TempNgo>,
    verified: map<nat, VerifiedNgo>,
    rejected: map<nat, RejectedNgo>,
    payments: map<nat, Payment>,
    successes: map<nat, SuccessfulPayment>,
    failures: map<nat, FailedPayment>)

  /** A route's effect on the store together with what it reports. */
  datatype Step<O> = Step(tables: Tables, outcome: O)

  /** Every payment with a specialisation row has the matching status and
      discriminator, and every settled payment has exactly one such row. */
  ghost predicate SettlementConsistent(t: Tables) {
    && (forall k :: k in t.successes ==>
          k in t.payments && t.payments[k].status == Success && t.payments[k].kind == SuccessRecord)
    && (forall k :: k in t.failures ==>
          k in t.payments && t.payments[k].status == Failed && t.payments[k].kind == FailureRecord)
    && (forall k :: k in t.payments && t.payments[k].status == Success ==> k in t.successes)
    && (forall k :: k in t.payments && t.payments[k].status == Failed ==> k in t.failures)
  }

  /** The constraints the database enforces, plus settlement consistency. */
  ghost predicate Valid(t: Tables) {
    && VerifiedNgos.Unique(t.verified)
    && Payments.SessionIdsUnique(t.payments)
    && SuccessfulPayments.ChargeIdsUnique(t.successes)
    && SettlementConsistent(t)
  }

  /** The number of applications held across the three organisation tables. */
  function Population(t: Tables): nat {
    |t.pending| + |t.verified| + |t.rejected|
  }

  /** The row id SQLite gives a new `INTEGER PRIMARY KEY` row: one more than
      the largest id in the table, or 1 in an empty table. */
  function NextRowId(ids: set<nat>): (id: nat)
    ensures id !in ids && id >= 1
    ensures forall j :: j in ids ==> j < id
    ensures ids == {} ==> id == 1
    ensures ids != {} ==> id - 1 in ids
  {
    var asc := Ordering.Ascending(ids);
    if asc == [] then 1
    else
      var last := asc[|asc| - 1];
      assert forall j :: j in ids ==> j <= last by {
        forall j | j in ids
          ensures j <= last
        {
          var i :| 0 <= i < |asc| && asc[i] == j;
          if i < |asc| - 1 {
            assert asc[i] < asc[|asc| - 1];
          }
        }
      }
      last + 1
  }

  /** The database itself. Each field is one table. */
  class Db {
    var pending: map<nat, TempNgo>
    var verified: map<nat, VerifiedNgo>
    var rejected: map<nat, RejectedNgo>
    var payments: map<nat, Payment>
    var successes: map<nat, SuccessfulPayment>
    var failures: map<nat, FailedPayment>

    function Snapshot(): Tables
      reads this
    {
      Tables(pending, verified, rejected, payments, successes, failures)
    }

    /** `db.create_all()` on an empty database. */
    constructor ()
      ensures Snapshot() == Tables(map[], map[], map[], map[], map[], map[])
      ensures Valid(Snapshot())
    {
      pending, verified, rejected := map[], map[], map[];
      payments, successes, failures := map[], map[], map[];
    }
  }
}
