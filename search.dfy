/** The search page: a default list of the newest active organisations, and
    on a valid POST a keyword and category search ordered by name. */
module Search {
  import opened Common
  import opened Ordering
  import opened VerifiedNgos
  import opened Forms

  const DefaultLimit: nat := 12

  /** `ORDER BY date_approved DESC`. */
  predicate NewestFirst(a: Row, b: Row) {
    a.1.dateApproved >= b.1.dateApproved
  }

  /** `ORDER BY name` under SQLite's binary collation. */
  predicate ByName(a: Row, b: Row) {
    LexLeq(a.1.name, b.1.name)
  }

  lemma NewestFirstIsTotalPreorder()
    ensures TotalPreorder(NewestFirst)
  {
  }

  lemma ByNameIsTotalPreorder()
    ensures TotalPreorder(ByName)
  {
    forall a: Row, b: Row
      ensures ByName(a, b) || ByName(b, a)
    {
      LexLeqTotal(a.1.name, b.1.name);
    }
    forall a: Row, b: Row, c: Row | ByName(a, b) && ByName(b, c)
      ensures ByName(a, c)
    {
      LexLeqTransitive(a.1.name, b.1.name, c.1.name);
    }
  }

  /** The default list: the twelve most recently approved active
      organisations, newest first. */
  function DefaultList(table: map<nat, VerifiedNgo>): (r: seq<Row>)
    ensures |r| == if |ActiveRows(table)| <= DefaultLimit then |ActiveRows(table)| else DefaultLimit
    ensures forall row :: row in r ==> row in ActiveRows(table)
    ensures multiset(r) <= multiset(ActiveRows(table))
    ensures NoDuplicates(r)
    ensures SortedBy(r, NewestFirst)
    ensures forall row :: row in ActiveRows(table) && row !in r ==>
              |r| == DefaultLimit && forall i :: 0 <= i < |r| ==> r[i].1.dateApproved >= row.1.dateApproved
  {
    NewestFirstIsTotalPreorder();
    var sorted := OrderBy(ActiveRows(table), NewestFirst);
    NewestTwelve(ActiveRows(table), sorted);
    Take(sorted, DefaultLimit)
  }

  /** A row left out of the first twelve of a list sorted newest first is
      outranked by every one of those twelve. */
  lemma LeftOutOutranked(rows: seq<Row>, sorted: seq<Row>)
    requires SortedBy(sorted, NewestFirst)
    requires forall row :: row in sorted <==> row in rows
    ensures var r := Take(sorted, DefaultLimit);
            forall row :: row in rows && row !in r ==>
              |r| == DefaultLimit && forall i :: 0 <= i < |r| ==> r[i].1.dateApproved >= row.1.dateApproved
  {
    var r := Take(sorted, DefaultLimit);
    forall row | row in rows && row !in r
      ensures |r| == DefaultLimit && forall i :: 0 <= i < |r| ==> r[i].1.dateApproved >= row.1.dateApproved
    {
      TakeKeepsFirst(sorted, DefaultLimit, NewestFirst, row);
      assert forall i :: 0 <= i < |r| ==> NewestFirst(r[i], row);
    }
  }

  /** The first twelve of `rows` sorted newest first: twelve rows, or all
      of them when there are fewer, none repeated that `rows` does not
      repeat, and outranking every row they leave out. */
  lemma NewestTwelve(rows: seq<Row>, sorted: seq<Row>)
    requires SortedBy(sorted, NewestFirst)
    requires multiset(sorted) == multiset(rows)
    ensures var r := Take(sorted, DefaultLimit);
            && |r| == (if |rows| <= DefaultLimit then |rows| else DefaultLimit)
            && (forall row :: row in r ==> row in rows)
            && multiset(r) <= multiset(rows)
            && (NoDuplicates(rows) ==> NoDuplicates(r))
            && SortedBy(r, NewestFirst)
            && forall row :: row in rows && row !in r ==>
                 |r| == DefaultLimit && forall i :: 0 <= i < |r| ==> r[i].1.dateApproved >= row.1.dateApproved
  {
    assert |sorted| == |multiset(sorted)| == |rows|;
    assert forall row :: row in sorted <==> row in multiset(rows);
    LeftOutOutranked(rows, sorted);
  }

  /** `search_term and search_term.strip()`. */
  predicate KeywordApplies(term: Option<string>) {
    Truthy(term) && !IsBlank(term.value)
  }

  /** `category and category.strip() != '' and category != 'All Categories'`. */
  predicate CategoryApplies(category: Option<string>) {
    Truthy(category) && !IsBlank(category.value) && category.value != "All Categories"
  }

  /** `name ILIKE '%term%' OR mission ILIKE '%term%'`. */
  predicate MatchesKeyword(row: Row, term: string) {
    ContainsIgnoringCase(row.1.name, term) || ContainsIgnoringCase(row.1.mission, term)
  }

  /** `ngo_type ILIKE '%category%'`. */
  predicate MatchesCategory(row: Row, category: string) {
    ContainsIgnoringCase(row.1.ngoType, category)
  }

  /** The row passes every filter the submission applies. */
  predicate Selected(row: Row, form: SearchSubmission) {
    && row.1.isActive
    && (KeywordApplies(form.searchTerm) ==> MatchesKeyword(row, form.searchTerm.value))
    && (CategoryApplies(form.category) ==> MatchesCategory(row, form.category.value))
  }

  /** The active rows every applied filter lets through, in id order. */
  function Found(table: map<nat, VerifiedNgo>, form: SearchSubmission): (r: seq<Row>)
    ensures forall row :: row in r <==> row in ActiveRows(table) && Selected(row, form)
    ensures NoDuplicates(r)
  {
    Filter(ActiveRows(table), row => Selected(row, form))
  }

  datatype Request = Get | Post(form: SearchSubmission)

  datatype SearchPage = SearchPage(results: seq<Row>, queryExecuted: bool)

  /** The search route. */
  function Index(table: map<nat, VerifiedNgo>, request: Request): (page: SearchPage)
    ensures forall row :: row in page.results ==> row in ActiveRows(table)
    ensures page.queryExecuted <==> request.Post? && SearchFormValid(request.form)
    ensures !page.queryExecuted ==> page.results == DefaultList(table)
    ensures page.queryExecuted && !KeywordApplies(request.form.searchTerm) && !CategoryApplies(request.form.category) ==>
              page.results == DefaultList(table)
    ensures page.queryExecuted && (KeywordApplies(request.form.searchTerm) || CategoryApplies(request.form.category)) ==>
              && SortedBy(page.results, ByName)
              && multiset(page.results) == multiset(Found(table, request.form))
              && forall row :: row in page.results <==> row in ActiveRows(table) && Selected(row, request.form)
    ensures NoDuplicates(page.results)
  {
    var default := DefaultList(table);
    if request.Post? && SearchFormValid(request.form) then
      var form := request.form;
      var found := Found(table, form);
      ByNameIsTotalPreorder();
      var results := OrderBy(found, ByName);
      var applied := KeywordApplies(form.searchTerm) || CategoryApplies(form.category);
      SearchPage(if applied then results else default, true)
    else
      SearchPage(default, false)
  }

  /** A term of Unicode whitespace alone, such as a no-break space, applies
      no keyword filter: without a category the default list is shown. */
  lemma WhitespaceTermShowsDefault(table: map<nat, VerifiedNgo>, form: SearchSubmission)
    requires SearchFormValid(form) && !CategoryApplies(form.category)
    requires form.searchTerm == Some("\U{A0}\U{3000}")
    ensures Index(table, Post(form)) == SearchPage(DefaultList(table), true)
  {
    var term := form.searchTerm.value;
    assert forall i :: 0 <= i < |term| ==> IsSpace(term[i]);
    assert !KeywordApplies(form.searchTerm);
  }
}
