/** Self-registration of an organisation: an e-mail address asks for a
    signed link, and the link's form files an application in the pending
    table. The link's signature is modelled as a partial map from token to
    the e-mail it was issued for; saving an uploaded file is modelled by
    the path it returned, if any. */
module Registration {
  import opened Common
  import opened Forms
  import opened Database
  import opened TempNgos

  /** What `register` answers. */
  datatype LinkRequest =
    | ShowEmailForm          // not a valid submission: the form again
    | AlreadyApplied         // an application under this e-mail exists
    | LinkSent(to: string)
    | LinkNotSent(to: string)  // building the message raised; reported, not raised

  /** `register`. `sendFails` stands for `send_email` raising before it hands
      the message to the mailing thread. Nothing is stored either way. */
  function Register(pending: map<nat, TempNgo>, submission: Option<EmailSubmission>, sendFails: bool): (r: LinkRequest)
    ensures r == ShowEmailForm <==> submission.None? || !EmailFormValid(submission.value)
    ensures r == AlreadyApplied <==>
              submission.Some? && EmailFormValid(submission.value) && HasPendingFor(pending, submission.value.email.value)
    ensures (r.LinkSent? || r.LinkNotSent?) ==>
              && submission.Some? && EmailFormValid(submission.value)
              && r.to == submission.value.email.value
              && !HasPendingFor(pending, r.to)
    ensures r.LinkSent? <==>
              submission.Some? && EmailFormValid(submission.value) && !HasPendingFor(pending, submission.value.email.value) && !sendFails
  {
    if submission.None? || !EmailFormValid(submission.value) then ShowEmailForm
    else
      var email := submission.value.email.value;
      if HasPendingFor(pending, email) then AlreadyApplied
      else if sendFails then LinkNotSent(email)
      else LinkSent(email)
  }

  /** `confirm_registration_token`: the e-mail bound to a valid token. An
      empty e-mail is falsy and treated like an invalid token. */
  function TokenEmail(tokens: map<string, string>, token: string): (r: Option<string>)
    ensures r.Some? <==> token in tokens && tokens[token] != ""
    ensures r.Some? ==> r.value == tokens[token]
  {
    if token in tokens && tokens[token] != "" then Some(tokens[token]) else None
  }

  const MissingDocument: string := "N/A (File Optional)"

  /** The path saved for an upload field: `save_document`'s result when a
      file was chosen, else nothing. */
  function SavedPath(upload: Option<Upload>, saved: Option<string>): (path: Option<string>)
    ensures upload.None? || upload.value.filename == "" ==> path.None?
    ensures upload.Some? && upload.value.filename != "" ==> path == saved
  {
    if upload.Some? && upload.value.filename != "" then saved else None
  }

  /** `reg_doc_path if reg_doc_path else "N/A (File Optional)"`. */
  function DocumentPath(path: Option<string>): (r: string)
    ensures r != ""
    ensures Truthy(path) ==> r == path.value
    ensures !Truthy(path) ==> r == MissingDocument
  {
    if Truthy(path) then path.value else MissingDocument
  }

  /** `website if website else None`. */
  function Website(data: Option<string>): (r: Option<string>)
    ensures r.Some? ==> r.value != ""
    ensures r.None? <==> !Truthy(data)
    ensures r.Some? ==> r == data
  {
    if Truthy(data) then data else None
  }

  datatype FormRequest = FormGet | FormPost(form: NgoSubmission)

  /** What `ngo_form` answers. */
  datatype Application =
    | InvalidLink        // redirected to `register`
    | AlreadyPending     // redirected to the confirmation page
    | ShowForm           // GET, or a POST that fails validation
    | Filed(newId: nat)  // committed: redirected to the confirmation page
    | IntegrityFailure   // a required column was NULL: rolled back, form again
    | SaveFailure        // any other error on commit: rolled back, form again

  /** The pending row a valid form produces, before the NOT NULL check: the
      e-mail is the token's, whatever the form carried. */
  function NewApplication(form: NgoSubmission, email: string, regSaved: Option<string>,
                          financialSaved: Option<string>, now: nat): (app: Option<TempNgo>)
    ensures app.Some? <==> form.name.Some? && form.ngoType.Some? && form.mission.Some?
    ensures app.Some? ==>
              && app.value.email == email
              && app.value.name == form.name.value
              && app.value.ngoType == form.ngoType.value
              && app.value.mission == form.mission.value
              && app.value.website == Website(form.website)
              && app.value.regDocPath == DocumentPath(SavedPath(form.registrationDocument, regSaved))
              && app.value.financialPath == SavedPath(form.financialReport, financialSaved)
              && app.value.dateSubmitted == now
  {
    if form.name.None? || form.ngoType.None? || form.mission.None? then None
    else Some(TempNgo(form.name.value, form.ngoType.value, form.mission.value, Website(form.website), email,
                      DocumentPath(SavedPath(form.registrationDocument, regSaved)),
                      SavedPath(form.financialReport, financialSaved), now))
  }

  /** `ngo_form(token)`. `dbFails` stands for a commit raising for any
      reason other than a NULL required column. */
  function NgoForm(t: Tables, tokens: map<string, string>, token: string, request: FormRequest,
                   regSaved: Option<string>, financialSaved: Option<string>, now: nat, dbFails: bool): (s: Step<Application>)
    ensures s.outcome == InvalidLink <==> TokenEmail(tokens, token).None?
    ensures s.outcome == AlreadyPending <==>
              TokenEmail(tokens, token).Some? && HasPendingFor(t.pending, TokenEmail(tokens, token).value)
    ensures s.outcome == ShowForm <==>
              && TokenEmail(tokens, token).Some? && !HasPendingFor(t.pending, TokenEmail(tokens, token).value)
              && (request.FormGet? || !NgoFormValid(request.form))
    ensures s.outcome == IntegrityFailure <==>
              && TokenEmail(tokens, token).Some? && !HasPendingFor(t.pending, TokenEmail(tokens, token).value)
              && request.FormPost? && NgoFormValid(request.form)
              && NewApplication(request.form, TokenEmail(tokens, token).value, regSaved, financialSaved, now).None?
    ensures s.outcome == SaveFailure <==>
              && TokenEmail(tokens, token).Some? && !HasPendingFor(t.pending, TokenEmail(tokens, token).value)
              && request.FormPost? && NgoFormValid(request.form)
              && NewApplication(request.form, TokenEmail(tokens, token).value, regSaved, financialSaved, now).Some?
              && dbFails
    ensures s.outcome.Filed? <==>
              && TokenEmail(tokens, token).Some? && !HasPendingFor(t.pending, TokenEmail(tokens, token).value)
              && request.FormPost? && NgoFormValid(request.form)
              && NewApplication(request.form, TokenEmail(tokens, token).value, regSaved, financialSaved, now).Some?
              && !dbFails
    ensures !s.outcome.Filed? ==> s.tables == t
    ensures s.outcome.Filed? ==>
              && request.FormPost? && NgoFormValid(request.form)
              && var email := TokenEmail(tokens, token).value;
              && !HasPendingFor(t.pending, email)
              && s.outcome.newId !in t.pending
              && var app := NewApplication(request.form, email, regSaved, financialSaved, now);
              && app.Some?
              && s.tables == t.(pending := t.pending[s.outcome.newId := app.value])
    ensures s.outcome.Filed? ==> s.tables.pending[s.outcome.newId].email == tokens[token]
  {
    match TokenEmail(tokens, token)
    case None => Step(t, InvalidLink)
    case Some(email) =>
      if HasPendingFor(t.pending, email) then Step(t, AlreadyPending)
      else if request.FormGet? || !NgoFormValid(request.form) then Step(t, ShowForm)
      else
        match NewApplication(request.form, email, regSaved, financialSaved, now)
        case None => Step(t, IntegrityFailure)
        case Some(app) =>
          if dbFails then Step(t, SaveFailure)
          else
            var newId := NextRowId(t.pending.Keys);
            Step(t.(pending := TempNgos.Insert(t.pending, newId, app)), Filed(newId))
  }

  /** Filing keeps the pending table free of two applications under one
      e-mail: if it held none before, it holds none after. */
  ghost predicate OnePerEmail(pending: map<nat, TempNgo>) {
    forall i, j :: i in pending && j in pending && i != j ==> pending[i].email != pending[j].email
  }

  lemma FilingKeepsOnePerEmail(t: Tables, tokens: map<string, string>, token: string, request: FormRequest,
                               regSaved: Option<string>, financialSaved: Option<string>, now: nat, dbFails: bool)
    requires OnePerEmail(t.pending)
    ensures OnePerEmail(NgoForm(t, tokens, token, request, regSaved, financialSaved, now, dbFails).tables.pending)
  {
    var s := NgoForm(t, tokens, token, request, regSaved, financialSaved, now, dbFails);
    if s.outcome.Filed? {
      var p := s.tables.pending;
      var id := s.outcome.newId;
      forall i, j | i in p && j in p && i != j
        ensures p[i].email != p[j].email
      {
        if i == id {
          assert j in t.pending;
        } else if j == id {
          assert i in t.pending;
        }
      }
    }
  }

  /** A link whose e-mail already has an application files nothing, and a
      filed application makes every later use of the same link answer
      `AlreadyPending`. */
  lemma LinkFilesOnce(t: Tables, tokens: map<string, string>, token: string, request: FormRequest,
                      regSaved: Option<string>, financialSaved: Option<string>, now: nat, dbFails: bool,
                      request2: FormRequest, regSaved2: Option<string>, financialSaved2: Option<string>, now2: nat, dbFails2: bool)
    requires NgoForm(t, tokens, token, request, regSaved, financialSaved, now, dbFails).outcome.Filed?
    ensures var t2 := NgoForm(t, tokens, token, request, regSaved, financialSaved, now, dbFails).tables;
            NgoForm(t2, tokens, token, request2, regSaved2, financialSaved2, now2, dbFails2) == Step(t2, AlreadyPending)
  {
    var s := NgoForm(t, tokens, token, request, regSaved, financialSaved, now, dbFails);
    assert s.tables.pending[s.outcome.newId].email == tokens[token];
  }

  /** `ngo_form` on the database. */
  method SubmitApplication(db: Db, tokens: map<string, string>, token: string, request: FormRequest,
                           regSaved: Option<string>, financialSaved: Option<string>, now: nat, dbFails: bool)
    returns (r: Application)
    modifies db
    ensures Step(db.Snapshot(), r) == NgoForm(old(db.Snapshot()), tokens, token, request, regSaved, financialSaved, now, dbFails)
  {
    var email := TokenEmail(tokens, token);
    if email.None? {
      return InvalidLink;
    }
    if HasPendingFor(db.pending, email.value) {
      return AlreadyPending;
    }
    if request.FormGet? || !NgoFormValid(request.form) {
      return ShowForm;
    }
    var app := NewApplication(request.form, email.value, regSaved, financialSaved, now);
    if app.None? {
      return IntegrityFailure;
    }
    if dbFails {
      return SaveFailure;
    }
    var newId := NextRowId(db.pending.Keys);
    db.pending := TempNgos.Insert(db.pending, newId, app.value);
    r := Filed(newId);
  }
}
