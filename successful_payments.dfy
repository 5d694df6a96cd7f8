/** The `successful_payments` specialisation: a row keyed by the id of the
    payment it settles, carrying the gateway's charge id. */
module SuccessfulPayments {
  import opened Common
  import Payments

  /** Polymorphic identity of the specialisation. */
  const Identity: string := "success"

  datatype SuccessfulPayment = SuccessfulPayment(chargeId: string, receiptUrl: Option<string>)

  /** The UNIQUE constraint on `stripe_charge_id`. */
  ghost predicate ChargeIdsUnique(records: map<nat, SuccessfulPayment>) {
    forall i, j :: i in records && j in records && i != j ==> records[i].chargeId != records[j].chargeId
  }

  /** Inserting a row for payment `id` with the given charge id, as the
      database checks it at flush: NOT NULL on the charge id, UNIQUE on the
      charge id, and the shared primary key. `None` is the integrity error. */
  function Insert(records: map<nat, SuccessfulPayment>, id: nat, chargeId: Option<string>,
                  receiptUrl: Option<string>): (r: Option<map<nat, SuccessfulPayment>>)
    ensures r.Some? <==> chargeId.Some? && id !in records &&
                         forall k :: k in records ==> records[k].chargeId != chargeId.value
    ensures r.Some? ==> r.value.Keys == records.Keys + {id}
    ensures r.Some? ==> r.value[id] == SuccessfulPayment(chargeId.value, receiptUrl)
    ensures r.Some? ==> forall k :: k in records ==> r.value[k] == records[k]
    ensures r.Some? && ChargeIdsUnique(records) ==> ChargeIdsUnique(r.value)
  {
    if chargeId.None? || id in records then None
    else if exists k | k in records :: records[k].chargeId == chargeId.value then None
    else Some(records[id := SuccessfulPayment(chargeId.value, receiptUrl)])
  }

  lemma IdentityMatchesKind()
    ensures Identity == Payments.Kind.SuccessRecord.Identity()
  {
  }
}
