/** The moderation routes: an administrator moves an application between
    the pending, verified and rejected tables. Each move inserts into the
    target table and deletes from the source in one commit, so it happens
    completely or not at all. Lists of each table and the post-login
    redirect guard complete the routes. */
module Admin {
  import opened Common
  import opened Ordering
  import opened Database
  import opened TempNgos
  import opened VerifiedNgos
  import opened RejectedNgos

  /** The user behind a request: `current_user`. */
  datatype Caller = Anonymous | Member(id: nat, isAdmin: bool)

  /** What a moderation route answers. `Moved` carries the id of the new
      row in the target table. */
  datatype Moderation =
    | LoginRequired     // `@login_required` redirects to the login page
    | AccessDenied      // not an administrator: redirected home
    | NotFound          // `get_or_404`
    | Moved(newId: nat)
    | UniqueConflict    // "UNIQUE constraint failed": rolled back
    | DatabaseError     // any other exception: rolled back

  /** `@login_required` followed by `current_user.is_admin()`: `None` lets
      the route go on. */
  function Guard(caller: Caller): (r: Option<Moderation>)
    ensures r.None? <==> caller.Member? && caller.isAdmin
    ensures r.Some? ==> r.value == LoginRequired || r.value == AccessDenied
    ensures r == Some(LoginRequired) <==> caller.Anonymous?
  {
    if caller.Anonymous? then Some(LoginRequired)
    else if !caller.isAdmin then Some(AccessDenied)
    else None
  }

  /** The verified row an approval creates: the application's name, type,
      mission and e-mail, no phone or location, and the column defaults. */
  function Approved(app: TempNgo, now: nat): (v: VerifiedNgo)
    ensures v.name == app.name && v.ngoType == app.ngoType && v.mission == app.mission && v.email == app.email
    ensures v.phone.None? && v.location.None?
    ensures v.isActive && v.totalCents == 0 && v.dateApproved == now
  {
    NewVerified(app.name, app.ngoType, app.mission, app.email, None, None, now)
  }

  /** The rejected row a rejection creates, stamped with the rejecting
      administrator and the fixed reason. */
  const RejectionReason: string := "Manual rejection by admin."

  function Rejected(app: TempNgo, adminId: nat, now: nat): (x: RejectedNgo)
    ensures x.name == app.name && x.ngoType == app.ngoType && x.mission == app.mission && x.email == app.email
    ensures x.regDocPath == app.regDocPath && x.financialPath == app.financialPath
    ensures x.rejectedBy == Some(adminId) && x.reason == Some(RejectionReason) && x.dateRejected == now
  {
    RejectedNgo(app.name, app.ngoType, app.mission, app.email, app.regDocPath, app.financialPath,
                now, Some(adminId), Some(RejectionReason))
  }

  /** The pending row a restoration creates: the rejected row's fields, a
      fresh submission time, and no website (the rejected table has none). */
  function Restored(x: RejectedNgo, now: nat): (app: TempNgo)
    ensures app.name == x.name && app.ngoType == x.ngoType && app.mission == x.mission && app.email == x.email
    ensures app.regDocPath == x.regDocPath && app.financialPath == x.financialPath
    ensures app.website.None? && app.dateSubmitted == now
  {
    TempNgo(x.name, x.ngoType, x.mission, None, x.email, x.regDocPath, x.financialPath, now)
  }

  /** Only the tables named may differ between `t` and `u`. */
  predicate OnlyOrganisationsChange(t: Tables, u: Tables) {
    u.payments == t.payments && u.successes == t.successes && u.failures == t.failures
  }

  /** `approve_ngo(id)`; `dbFails` stands for a commit that raises for a
      reason other than the UNIQUE constraints. */
  function Approve(t: Tables, caller: Caller, id: nat, now: nat, dbFails: bool): (s: Step<Moderation>)
    ensures s.outcome.Moved? <==>
              && Guard(caller).None? && id in t.pending && !dbFails
              && !exists k :: k in t.verified && (t.verified[k].name == t.pending[id].name || t.verified[k].email == t.pending[id].email)
    ensures s.outcome == UniqueConflict <==>
              && Guard(caller).None? && id in t.pending
              && exists k :: k in t.verified && (t.verified[k].name == t.pending[id].name || t.verified[k].email == t.pending[id].email)
    ensures s.outcome == NotFound <==> Guard(caller).None? && id !in t.pending
    ensures Guard(caller).Some? ==> s.outcome == Guard(caller).value
    ensures !s.outcome.Moved? ==> s.tables == t
    ensures s.outcome.Moved? ==>
              && s.outcome.newId !in t.verified
              && s.tables.verified == t.verified[s.outcome.newId := Approved(t.pending[id], now)]
              && s.tables.pending == t.pending - {id}
              && s.tables.rejected == t.rejected
              && OnlyOrganisationsChange(t, s.tables)
    ensures Valid(t) ==> Valid(s.tables)
  {
    match Guard(caller)
    case Some(denied) => Step(t, denied)
    case None =>
      if id !in t.pending then Step(t, NotFound)
      else
        var newId := NextRowId(t.verified.Keys);
        match VerifiedNgos.Insert(t.verified, newId, Approved(t.pending[id], now))
        case None => Step(t, UniqueConflict)
        case Some(verified) =>
          if dbFails then Step(t, DatabaseError)
          else Step(t.(pending := t.pending - {id}, verified := verified), Moved(newId))
  }

  /** `reject_ngo(id)`. The rejected table has no UNIQUE constraint, so only
      a failing commit stops a rejection. */
  function Reject(t: Tables, caller: Caller, id: nat, now: nat, dbFails: bool): (s: Step<Moderation>)
    ensures s.outcome.Moved? <==> Guard(caller).None? && id in t.pending && !dbFails
    ensures s.outcome == NotFound <==> Guard(caller).None? && id !in t.pending
    ensures Guard(caller).Some? ==> s.outcome == Guard(caller).value
    ensures s.outcome != UniqueConflict
    ensures !s.outcome.Moved? ==> s.tables == t
    ensures s.outcome.Moved? ==>
              && s.outcome.newId !in t.rejected
              && s.tables.rejected == t.rejected[s.outcome.newId := Rejected(t.pending[id], caller.id, now)]
              && s.tables.pending == t.pending - {id}
              && s.tables.verified == t.verified
              && OnlyOrganisationsChange(t, s.tables)
    ensures Valid(t) ==> Valid(s.tables)
  {
    match Guard(caller)
    case Some(denied) => Step(t, denied)
    case None =>
      if id !in t.pending then Step(t, NotFound)
      else if dbFails then Step(t, DatabaseError)
      else
        var newId := NextRowId(t.rejected.Keys);
        Step(t.(pending := t.pending - {id},
                rejected := t.rejected[newId := Rejected(t.pending[id], caller.id, now)]),
             Moved(newId))
  }

  /** `restore_ngo(id)`: back to the pending queue. The pending table has no
      UNIQUE constraint either. */
  function Restore(t: Tables, caller: Caller, id: nat, now: nat, dbFails: bool): (s: Step<Moderation>)
    ensures s.outcome.Moved? <==> Guard(caller).None? && id in t.rejected && !dbFails
    ensures s.outcome == NotFound <==> Guard(caller).None? && id !in t.rejected
    ensures Guard(caller).Some? ==> s.outcome == Guard(caller).value
    ensures s.outcome != UniqueConflict
    ensures !s.outcome.Moved? ==> s.tables == t
    ensures s.outcome.Moved? ==>
              && s.outcome.newId !in t.pending
              && s.tables.pending == t.pending[s.outcome.newId := Restored(t.rejected[id], now)]
              && s.tables.rejected == t.rejected - {id}
              && s.tables.verified == t.verified
              && OnlyOrganisationsChange(t, s.tables)
    ensures Valid(t) ==> Valid(s.tables)
  {
    match Guard(caller)
    case Some(denied) => Step(t, denied)
    case None =>
      if id !in t.rejected then Step(t, NotFound)
      else if dbFails then Step(t, DatabaseError)
      else
        var newId := NextRowId(t.pending.Keys);
        Step(t.(pending := t.pending[newId := Restored(t.rejected[id], now)],
                rejected := t.rejected - {id}),
             Moved(newId))
  }

  lemma RemoveOne<K, V>(m: map<K, V>, k: K)
    requires k in m
    ensures |m - {k}| == |m| - 1
  {
    assert (m - {k}).Keys == m.Keys - {k};
  }

  lemma AddOne<K, V>(m: map<K, V>, k: K, v: V)
    requires k !in m
    ensures |m[k := v]| == |m| + 1
  {
    assert m[k := v].Keys == m.Keys + {k};
  }

  /** A move neither creates nor loses an application: the number of rows
      across the three organisation tables stays the same whatever happens. */
  lemma ApproveConserves(t: Tables, caller: Caller, id: nat, now: nat, dbFails: bool)
    ensures Population(Approve(t, caller, id, now, dbFails).tables) == Population(t)
  {
    var a := Approve(t, caller, id, now, dbFails);
    if a.outcome.Moved? {
      RemoveOne(t.pending, id);
      AddOne(t.verified, a.outcome.newId, Approved(t.pending[id], now));
    }
  }

  lemma RejectConserves(t: Tables, caller: Caller, id: nat, now: nat, dbFails: bool)
    ensures Population(Reject(t, caller, id, now, dbFails).tables) == Population(t)
  {
    var r := Reject(t, caller, id, now, dbFails);
    if r.outcome.Moved? {
      RemoveOne(t.pending, id);
      AddOne(t.rejected, r.outcome.newId, Rejected(t.pending[id], caller.id, now));
    }
  }

  lemma RestoreConserves(t: Tables, caller: Caller, id: nat, now: nat, dbFails: bool)
    ensures Population(Restore(t, caller, id, now, dbFails).tables) == Population(t)
  {
    var s := Restore(t, caller, id, now, dbFails);
    if s.outcome.Moved? {
      RemoveOne(t.rejected, id);
      AddOne(t.pending, s.outcome.newId, Restored(t.rejected[id], now));
    }
  }

  /** An application once approved cannot be approved again: the second
      request finds nothing and changes nothing. */
  lemma ApproveOnce(t: Tables, caller: Caller, id: nat, now: nat, now2: nat, dbFails: bool, dbFails2: bool)
    requires Approve(t, caller, id, now, dbFails).outcome.Moved?
    ensures var t2 := Approve(t, caller, id, now, dbFails).tables;
            Approve(t2, caller, id, now2, dbFails2) == Step(t2, NotFound)
  {
  }

  /** Rejecting an application and restoring it puts an application with the
      same name, type, mission, e-mail and documents back in the queue; its
      website is lost, because the rejected table does not keep it. */
  lemma RejectThenRestore(t: Tables, caller: Caller, id: nat, now: nat, later: nat)
    requires Reject(t, caller, id, now, false).outcome.Moved?
    ensures var r := Reject(t, caller, id, now, false);
            var s := Restore(r.tables, caller, r.outcome.newId, later, false);
            && s.outcome.Moved?
            && var back := s.tables.pending[s.outcome.newId];
            && back == t.pending[id].(website := None, dateSubmitted := later)
            && s.tables.rejected == t.rejected
            && s.tables.verified == t.verified
  {
    var r := Reject(t, caller, id, now, false);
    var n := r.outcome.newId;
    var x := Rejected(t.pending[id], caller.id, now);
    assert r.tables.rejected == t.rejected[n := x];
    assert n in r.tables.rejected && r.tables.rejected[n] == x;
    var s := Restore(r.tables, caller, n, later, false);
    assert s.outcome.Moved?;
    assert s.tables.pending[s.outcome.newId] == Restored(x, later);
    AddThenRemove(t.rejected, n, x);
  }

  /** Adding a fresh key and removing it again gives back the map. */
  lemma AddThenRemove<K, V>(m: map<K, V>, k: K, v: V)
    requires k !in m
    ensures m[k := v] - {k} == m
  {
  }

  /** The database object with the moderation routes as its operations. */
  method ApproveNgo(db: Db, caller: Caller, id: nat, now: nat, dbFails: bool) returns (r: Moderation)
    modifies db
    ensures Step(db.Snapshot(), r) == Approve(old(db.Snapshot()), caller, id, now, dbFails)
  {
    var denied := Guard(caller);
    if denied.Some? {
      return denied.value;
    }
    if id !in db.pending {
      return NotFound;
    }
    var newId := NextRowId(db.verified.Keys);
    var staged := VerifiedNgos.Insert(db.verified, newId, Approved(db.pending[id], now));
    if staged.None? {
      return UniqueConflict;
    }
    if dbFails {
      return DatabaseError;
    }
    db.verified := staged.value;
    db.pending := db.pending - {id};
    r := Moved(newId);
  }

  method RejectNgo(db: Db, caller: Caller, id: nat, now: nat, dbFails: bool) returns (r: Moderation)
    modifies db
    ensures Step(db.Snapshot(), r) == Reject(old(db.Snapshot()), caller, id, now, dbFails)
  {
    var denied := Guard(caller);
    if denied.Some? {
      return denied.value;
    }
    if id !in db.pending {
      return NotFound;
    }
    if dbFails {
      return DatabaseError;
    }
    var newId := NextRowId(db.rejected.Keys);
    db.rejected := db.rejected[newId := Rejected(db.pending[id], caller.id, now)];
    db.pending := db.pending - {id};
    r := Moved(newId);
  }

  method RestoreNgo(db: Db, caller: Caller, id: nat, now: nat, dbFails: bool) returns (r: Moderation)
    modifies db
    ensures Step(db.Snapshot(), r) == Restore(old(db.Snapshot()), caller, id, now, dbFails)
  {
    var denied := Guard(caller);
    if denied.Some? {
      return denied.value;
    }
    if id !in db.rejected {
      return NotFound;
    }
    if dbFails {
      return DatabaseError;
    }
    var newId := NextRowId(db.pending.Keys);
    db.pending := db.pending[newId := Restored(db.rejected[id], now)];
    db.rejected := db.rejected - {id};
    r := Moved(newId);
  }

  /** A listing page, or the redirect the guard answers with. */
  datatype Listing<T> = Redirect(to: Moderation) | Page(rows: seq<(nat, T)>)

  predicate OldestSubmittedFirst(a: (nat, TempNgo), b: (nat, TempNgo)) {
    a.1.dateSubmitted <= b.1.dateSubmitted
  }

  predicate NewestApprovedFirst(a: (nat, VerifiedNgo), b: (nat, VerifiedNgo)) {
    a.1.dateApproved >= b.1.dateApproved
  }

  predicate NewestRejectedFirst(a: (nat, RejectedNgo), b: (nat, RejectedNgo)) {
    a.1.dateRejected >= b.1.dateRejected
  }

  /** `list_pending_ngos`: every application, oldest submission first. */
  function PendingList(t: Tables, caller: Caller): (l: Listing<TempNgo>)
    ensures l.Redirect? <==> Guard(caller).Some?
    ensures l.Redirect? ==> l.to == Guard(caller).value
    ensures l.Page? ==> SortedBy(l.rows, OldestSubmittedFirst)
    ensures l.Page? ==> forall row :: row in l.rows <==> row.0 in t.pending && t.pending[row.0] == row.1
    ensures l.Page? ==> |l.rows| == |Rows(t.pending)|
  {
    match Guard(caller)
    case Some(denied) => Redirect(denied)
    case None =>
      assert TotalPreorder(OldestSubmittedFirst);
      Page(OrderBy(Rows(t.pending), OldestSubmittedFirst))
  }

  /** `list_verified_ngos`: every verified organisation, active or not,
      most recently approved first. */
  function VerifiedList(t: Tables, caller: Caller): (l: Listing<VerifiedNgo>)
    ensures l.Redirect? <==> Guard(caller).Some?
    ensures l.Redirect? ==> l.to == Guard(caller).value
    ensures l.Page? ==> SortedBy(l.rows, NewestApprovedFirst)
    ensures l.Page? ==> forall row :: row in l.rows <==> row.0 in t.verified && t.verified[row.0] == row.1
    ensures l.Page? ==> |l.rows| == |Rows(t.verified)|
  {
    match Guard(caller)
    case Some(denied) => Redirect(denied)
    case None =>
      assert TotalPreorder(NewestApprovedFirst);
      Page(OrderBy(Rows(t.verified), NewestApprovedFirst))
  }

  /** `list_rejected_ngos`: every rejected application, most recent first. */
  function RejectedList(t: Tables, caller: Caller): (l: Listing<RejectedNgo>)
    ensures l.Redirect? <==> Guard(caller).Some?
    ensures l.Redirect? ==> l.to == Guard(caller).value
    ensures l.Page? ==> SortedBy(l.rows, NewestRejectedFirst)
    ensures l.Page? ==> forall row :: row in l.rows <==> row.0 in t.rejected && t.rejected[row.0] == row.1
    ensures l.Page? ==> |l.rows| == |Rows(t.rejected)|
  {
    match Guard(caller)
    case Some(denied) => Redirect(denied)
    case None =>
      assert TotalPreorder(NewestRejectedFirst);
      Page(OrderBy(Rows(t.rejected), NewestRejectedFirst))
  }

  /** The characters a URL scheme may hold after its first letter. */
  predicate SchemeChar(c: char) {
    ('a' <= c <= 'z') || ('A' <= c <= 'Z') || ('0' <= c <= '9') || c == '+' || c == '-' || c == '.'
  }

  predicate IsLetter(c: char) {
    ('a' <= c <= 'z') || ('A' <= c <= 'Z')
  }

  /** The index of the first `c` in `s`. */
  function FirstIndexOf(s: string, c: char): (r: Option<nat>)
    ensures r.Some? ==> r.value < |s| && s[r.value] == c && forall j :: 0 <= j < r.value ==> s[j] != c
    ensures r.None? ==> c !in s
  {
    if s == [] then None
    else if s[0] == c then Some(0)
    else match FirstIndexOf(s[1..], c)
      case None => None
      case Some(i) => Some(i + 1)
  }

  /** `url[..i]` is a scheme: `i` is the first ':', and the text before it
      is a letter followed by scheme characters. */
  predicate SchemeEndsAt(url: string, i: int) {
    && 0 < i < |url| && url[i] == ':'
    && (forall j :: 0 <= j < i ==> url[j] != ':')
    && IsLetter(url[0])
    && (forall j :: 0 <= j < i ==> SchemeChar(url[j]))
  }

  /** What `urlsplit` leaves after removing a scheme: the text after the
      first ':' when everything before it is a scheme, else the whole URL. */
  function AfterScheme(url: string): (rest: string)
    ensures forall i :: SchemeEndsAt(url, i) ==> rest == url[i + 1..]
    ensures (forall i :: !SchemeEndsAt(url, i)) ==> rest == url
  {
    match FirstIndexOf(url, ':')
    case Some(i) =>
      if i > 0 && IsLetter(url[0]) && forall j :: 0 <= j < i ==> SchemeChar(url[j]) then
        assert SchemeEndsAt(url, i);
        url[i + 1..]
      else
        url
    case None => url
  }

  predicate Delimiter(c: char) {
    c == '/' || c == '?' || c == '#'
  }

  /** The text before the first '/', '?' or '#'. */
  function UpToDelimiter(s: string): (r: string)
    ensures |r| <= |s| && r == s[..|r|]
    ensures forall j :: 0 <= j < |r| ==> !Delimiter(r[j])
    ensures |r| < |s| ==> Delimiter(s[|r|])
  {
    if s == [] || Delimiter(s[0]) then [] else [s[0]] + UpToDelimiter(s[1..])
  }

  /** The text `urlsplit` takes as the network location: after a leading
      "//" (once any scheme is removed), up to the first '/', '?' or '#'. */
  function Authority(url: string): (n: string)
    ensures var rest := AfterScheme(url);
            n != "" <==> |rest| > 2 && rest[..2] == "//" && !Delimiter(rest[2])
    ensures var rest := AfterScheme(url);
            n != "" ==>
              && 2 + |n| <= |rest| && n == rest[2..2 + |n|]
              && (forall j :: 0 <= j < |n| ==> !Delimiter(n[j]))
              && (2 + |n| < |rest| ==> Delimiter(rest[2 + |n|]))
  {
    var rest := AfterScheme(url);
    if |rest| >= 2 && rest[..2] == "//" then UpToDelimiter(rest[2..]) else ""
  }

  /** A network location holding '[' without ']', or ']' without '['. */
  predicate UnbalancedBrackets(n: string) {
    ('[' in n) != (']' in n)
  }

  /** `urlparse(url).netloc`, or `None` where `urlsplit` raises
      `ValueError("Invalid IPv6 URL")`. */
  function Netloc(url: string): (r: Option<string>)
    ensures r.None? <==> UnbalancedBrackets(Authority(url))
    ensures r.Some? ==> r.value == Authority(url) && !UnbalancedBrackets(r.value)
  {
    var n := Authority(url);
    if UnbalancedBrackets(n) then None else Some(n)
  }

  /** Where a successful login leads: the dashboard, `next`, or an error
      response when parsing `next` raises (nothing in the route catches it). */
  datatype LoginTarget = Dashboard | Next(url: string) | ServerError

  /** The redirect after a successful login: `next` only when it is present,
      non-empty and names no other host. */
  function LoginRedirect(next: Option<string>): (target: LoginTarget)
    ensures target == ServerError <==> Truthy(next) && Netloc(next.value).None?
    ensures target.Next? <==> Truthy(next) && Netloc(next.value) == Some("")
    ensures target.Next? ==> target.url == next.value
  {
    if !Truthy(next) then Dashboard
    else match Netloc(next.value)
      case None => ServerError
      case Some(n) => if n != "" then Dashboard else Next(next.value)
  }

  /** `next=//[x`: the bracket is never closed, so parsing raises and the
      request, after `login_user` has run, ends in an error response. */
  lemma UnclosedBracketFails()
    ensures LoginRedirect(Some("//[x")) == ServerError
  {
    var u := "//[x";
    assert !IsLetter(u[0]);
    assert AfterScheme(u) == u;
    assert u[..2] == "//" && u[2..] == "[x";
    assert UpToDelimiter("[x") == "[x";
    assert '[' in Authority(u) && ']' !in Authority(u);
  }

  /** A protocol-relative URL naming a host (`//evil.example/...`) is never
      followed. */
  lemma ProtocolRelativeRejected(host: string)
    requires host != "" && !Delimiter(host[0])
    ensures !LoginRedirect(Some("//" + host)).Next?
    ensures '[' !in host && ']' !in host ==> LoginRedirect(Some("//" + host)) == Dashboard
  {
    var u := "//" + host;
    assert !IsLetter(u[0]);
    assert AfterScheme(u) == u;
    assert u[..2] == "//" && u[2..] == host;
    assert UpToDelimiter(host) != [];
  }

  /** An absolute URL naming a host (`https://evil.example/...`) is never
      followed. */
  lemma AbsoluteUrlRejected(host: string)
    requires host != "" && !Delimiter(host[0])
    ensures !LoginRedirect(Some("https://" + host)).Next?
    ensures '[' !in host && ']' !in host ==> LoginRedirect(Some("https://" + host)) == Dashboard
  {
    var w := "https://" + host;
    assert w[5] == ':';
    assert forall j :: 0 <= j < 5 ==> w[j] != ':' && SchemeChar(w[j]);
    assert FirstIndexOf(w, ':') == Some(5);
    assert IsLetter(w[0]);
    var rest := AfterScheme(w);
    assert rest == w[6..];
    assert rest[..2] == "//" && rest[2..] == host;
    assert UpToDelimiter(host) != [];
  }
}
