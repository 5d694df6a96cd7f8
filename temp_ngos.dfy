/** The `temp_ngos` table: applications awaiting review. The contact email
    carries no UNIQUE constraint; duplicate applications are kept out by the
    registration guards, not by the table. */
module TempNgos {
  import opened Common

  datatype TempNgo = TempNgo(
    name: string,
    ngoType: string,
    mission: string,
    website: Option<string>,
    email: string,
    regDocPath: string,
    financialPath: Option<string>,
    dateSubmitted: nat)

  /** `TempNGO.query.filter_by(contact_email=email).first()` found a row. */
  predicate HasPendingFor(table: map<nat, TempNgo>, email: string) {
    exists k | k in table :: table[k].email == email
  }

  /** Inserting a pending row checks no uniqueness: any fresh id is accepted,
      even when another pending row has the same email. */
  function Insert(table: map<nat, TempNgo>, id: nat, app: TempNgo): (r: map<nat, TempNgo>)
    requires id !in table
    ensures r.Keys == table.Keys + {id} && r[id] == app
    ensures forall k :: k in table ==> r[k] == table[k]
    ensures HasPendingFor(r, app.email)
  {
    table[id := app]
  }
}
