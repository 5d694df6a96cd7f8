/** The `verified_ngos` table: approved organisations, unique by name and by
    contact email, with an active flag and a running donation total. */
module VerifiedNgos {
  import opened Common
  import Ordering

  datatype VerifiedNgo = VerifiedNgo(
    name: string,
    email: string,
    ngoType: string,
    mission: string,
    phone: Option<string>,
    location: Option<string>,
    isActive: bool,
    totalCents: int,
    dateApproved: nat)

  /** `VerifiedNGO(...)` with the column defaults: active, no donations yet,
      approved at `now`. */
  function NewVerified(name: string, ngoType: string, mission: string, email: string,
                       phone: Option<string>, location: Option<string>, now: nat): (v: VerifiedNgo)
    ensures v.isActive && v.totalCents == 0 && v.dateApproved == now
    ensures v.name == name && v.ngoType == ngoType && v.mission == mission && v.email == email
    ensures v.phone == phone && v.location == location
  {
    VerifiedNgo(name, email, ngoType, mission, phone, location, true, 0, now)
  }

  /** The UNIQUE constraints on `name` and on `contact_email`. */
  ghost predicate Unique(table: map<nat, VerifiedNgo>) {
    forall i, j :: i in table && j in table && i != j ==>
      table[i].name != table[j].name && table[i].email != table[j].email
  }

  /** Inserting `v` under a fresh id, as the database checks it: `None` is the
      UNIQUE violation on name or email. */
  function Insert(table: map<nat, VerifiedNgo>, id: nat, v: VerifiedNgo): (r: Option<map<nat, VerifiedNgo>>)
    requires id !in table
    ensures r.None? <==> exists k :: k in table && (table[k].name == v.name || table[k].email == v.email)
    ensures r.Some? ==> r.value.Keys == table.Keys + {id} && r.value[id] == v
    ensures r.Some? ==> forall k :: k in table ==> r.value[k] == table[k]
    ensures r.Some? && Unique(table) ==> Unique(r.value)
  {
    if exists k | k in table :: table[k].name == v.name || table[k].email == v.email then None
    else Some(table[id := v])
  }

  /** `ngo = VerifiedNGO.query.get(id); if ngo: ngo.total_donations += amount`. */
  function Credit(table: map<nat, VerifiedNgo>, id: nat, cents: nat): (r: map<nat, VerifiedNgo>)
    ensures r.Keys == table.Keys
    ensures id in table ==> r[id] == table[id].(totalCents := table[id].totalCents + cents)
    ensures forall k :: k in table && k != id ==> r[k] == table[k]
    ensures forall k :: k in table ==> r[k].name == table[k].name && r[k].email == table[k].email
    ensures Unique(table) ==> Unique(r)
  {
    if id in table then table[id := table[id].(totalCents := table[id].totalCents + cents)] else table
  }

  /** A query result row: the id and the record. */
  type Row = (nat, VerifiedNgo)

  predicate IsActive(row: Row) {
    row.1.isActive
  }

  /** `VerifiedNGO.query.filter_by(is_active=True)`, in id order. */
  function ActiveRows(table: map<nat, VerifiedNgo>): (r: seq<Row>)
    ensures forall row :: row in r <==> row.0 in table && table[row.0] == row.1 && row.1.isActive
    ensures Ordering.NoDuplicates(r)
  {
    var rows := Ordering.Rows(table);
    Ordering.IncreasingKeysNoDuplicates(rows);
    Ordering.FilterNoDuplicates(rows, IsActive);
    Ordering.Filter(rows, IsActive)
  }
}
