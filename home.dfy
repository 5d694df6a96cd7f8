/** The home page: every active organisation, largest donation total first. */
module Home {
  import opened Common
  import opened Ordering
  import opened VerifiedNgos

  /** `ORDER BY total_donations DESC`. */
  predicate MostDonationsFirst(a: Row, b: Row) {
    a.1.totalCents >= b.1.totalCents
  }

  lemma MostDonationsFirstIsTotalPreorder()
    ensures TotalPreorder(MostDonationsFirst)
  {
  }

  const LoadError: string := "Failed to load NGOs."

  datatype HomePage = HomePage(ngos: seq<Row>, error: Option<string>)

  /** The home route; `queryFails` stands for the database raising. */
  function Index(table: map<nat, VerifiedNgo>, queryFails: bool): (page: HomePage)
    ensures queryFails ==> page.ngos == [] && page.error == Some(LoadError)
    ensures !queryFails ==> page.error.None?
    ensures !queryFails ==> SortedBy(page.ngos, MostDonationsFirst)
    ensures !queryFails ==> multiset(page.ngos) == multiset(ActiveRows(table))
    ensures forall row :: row in page.ngos ==> row.0 in table && table[row.0] == row.1 && row.1.isActive
    ensures !queryFails ==> forall k :: k in table && table[k].isActive ==> (k, table[k]) in page.ngos
  {
    if queryFails then HomePage([], Some(LoadError))
    else
      var active := ActiveRows(table);
      MostDonationsFirstIsTotalPreorder();
      HomePage(OrderBy(active, MostDonationsFirst), None)
  }
}
