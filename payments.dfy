/** The `payments` table: one row per donation attempt, with the polymorphic
    discriminator `type` that the success and failure specialisations share. */
module Payments {
  import opened Common
  import Ordering

  /** The `transaction_status` values the platform writes. */
  datatype Status = PendingInitiation | Pending | Success | Failed {
    function Name(): string {
      match this
      case PendingInitiation => "PENDING_INITIATION"
      case Pending => "PENDING"
      case Success => "SUCCESS"
      case Failed => "FAILED"
    }

    /** `status in ('SUCCESS', 'FAILED')`: no further transition is made. */
    predicate IsTerminal() {
      Name() == "SUCCESS" || Name() == "FAILED"
    }
  }

  /** The discriminator column `type` and its polymorphic identities. */
  datatype Kind = BasePayment | SuccessRecord | FailureRecord {
    function Identity(): string {
      match this
      case BasePayment => "payment"
      case SuccessRecord => "success"
      case FailureRecord => "failure"
    }
  }

  const DefaultCurrency: string := "USD"
  const DefaultStatus: Status := Pending

  /** A `payments` row; the id is the key of the table that holds it. Amounts
      are whole cents. */
  datatype Payment = Payment(
    donorId: Option<nat>,
    ngoId: nat,
    donorName: Option<string>,
    donorEmail: string,
    amountCents: nat,
    currency: string,
    sessionId: Option<string>,
    status: Status,
    createdAt: nat,
    kind: Kind)

  /** `Payment(...)` with the columns the caller leaves out taking their
      defaults: no donor account, currency USD, no gateway session, status
      PENDING, creation time `now`. */
  function NewPayment(ngoId: nat, donorName: Option<string>, donorEmail: string, amountCents: nat,
                      status: Option<Status>, kind: Kind, now: nat): (p: Payment)
    ensures p.currency == DefaultCurrency && p.currency == "USD"
    ensures p.status == (if status.Some? then status.value else DefaultStatus)
    ensures status.None? ==> p.status.Name() == "PENDING"
    ensures p.sessionId.None? && p.donorId.None? && p.createdAt == now
    ensures p.ngoId == ngoId && p.donorName == donorName && p.donorEmail == donorEmail
    ensures p.amountCents == amountCents && p.kind == kind
  {
    Payment(None, ngoId, donorName, donorEmail, amountCents, DefaultCurrency, None,
            if status.Some? then status.value else DefaultStatus, now, kind)
  }

  /** The UNIQUE constraint on `stripe_session_id` (NULLs are exempt). */
  ghost predicate SessionIdsUnique(payments: map<nat, Payment>) {
    forall i, j :: i in payments && j in payments && i != j && payments[i].sessionId.Some? ==>
      payments[i].sessionId != payments[j].sessionId
  }

  /** Changing payments without touching their session ids keeps the
      session ids unique. */
  lemma SessionsKept(before: map<nat, Payment>, after: map<nat, Payment>)
    requires SessionIdsUnique(before)
    requires after.Keys == before.Keys
    requires forall j :: j in after ==> after[j].sessionId == before[j].sessionId
    ensures SessionIdsUnique(after)
  {
  }

  /** The ids of the payments carrying session id `sid`. */
  function SessionHolders(payments: map<nat, Payment>, sid: string): (ids: set<nat>)
    ensures forall k :: k in ids <==> k in payments && payments[k].sessionId == Some(sid)
  {
    set k | k in payments && payments[k].sessionId == Some(sid)
  }

  /** `Payment.query.filter_by(stripe_session_id=sid).first()`: the first
      matching row in id order. Under the UNIQUE constraint it is the only
      one. */
  function SessionLookup(payments: map<nat, Payment>, sid: string): (r: Option<nat>)
    ensures r.Some? ==> r.value in payments && payments[r.value].sessionId == Some(sid)
    ensures r.None? <==> forall k :: k in payments ==> payments[k].sessionId != Some(sid)
    ensures r.Some? ==> forall k :: k in payments && payments[k].sessionId == Some(sid) ==> r.value <= k
  {
    var asc := Ordering.Ascending(SessionHolders(payments, sid));
    if asc == [] then None
    else
      assert forall k :: k in SessionHolders(payments, sid) ==> asc[0] <= k by {
        forall k | k in SessionHolders(payments, sid)
          ensures asc[0] <= k
        {
          var i :| 0 <= i < |asc| && asc[i] == k;
          if i > 0 {
            assert asc[0] < asc[i];
          }
        }
      }
      Some(asc[0])
  }

  /** Under the UNIQUE constraint the lookup finds the one payment carrying
      the session id. */
  lemma SessionLookupUnique(payments: map<nat, Payment>, sid: string, k: nat)
    requires SessionIdsUnique(payments)
    requires k in payments && payments[k].sessionId == Some(sid)
    ensures SessionLookup(payments, sid) == Some(k)
  {
  }

  /** Changing payments without touching their ids or session ids leaves
      every lookup where it was. */
  lemma SessionLookupKept(before: map<nat, Payment>, after: map<nat, Payment>, sid: string)
    requires after.Keys == before.Keys
    requires forall j :: j in after ==> after[j].sessionId == before[j].sessionId
    ensures SessionLookup(after, sid) == SessionLookup(before, sid)
  {
    assert SessionHolders(after, sid) == SessionHolders(before, sid);
  }
}
