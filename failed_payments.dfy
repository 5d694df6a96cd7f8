/** The `failed_payments` specialisation: a row keyed by the id of the
    payment it settles, with a free-text message and an optional code. */
module FailedPayments {
  import opened Common
  import Payments

  /** Polymorphic identity of the specialisation. */
  const Identity: string := "failure"

  datatype FailedPayment = FailedPayment(errorMessage: Option<string>, errorCode: Option<string>)

  /** Inserting the row for payment `id`: the shared primary key admits one
      row per payment; both columns are nullable. `None` is the integrity
      error. */
  function Insert(records: map<nat, FailedPayment>, id: nat, record: FailedPayment): (r: Option<map<nat, FailedPayment>>)
    ensures r.Some? <==> id !in records
    ensures r.Some? ==> r.value.Keys == records.Keys + {id} && r.value[id] == record
    ensures r.Some? ==> forall k :: k in records ==> r.value[k] == records[k]
  {
    if id in records then None else Some(records[id := record])
  }

  lemma IdentityMatchesKind()
    ensures Identity == Payments.Kind.FailureRecord.Identity()
  {
  }
}
