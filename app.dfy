/**
 * The three request handlers of backend/app.py that decide something:
 * resume upload, document-request generation and document submission, as
 * transitions of a store that keeps candidate records, document records,
 * document requests and the files on disk apart.
 */
module App {
  import opened Wrappers
  import opened Strings
  import opened JsonValues
  import ResumeParser
  import Agent

  /** The HTTP status codes the handlers answer with: 201, 400, 409 and 500. */
  datatype Status = Created201 | BadRequest400 | Conflict409 | ServerError500

  datatype ExtractionStatus = Pending | Completed | Failed

  /** A candidate row; a column holding SQL `NULL` is `None`. */
  datatype Candidate = Candidate(
    id: nat,
    name: Option<string>,
    email: Option<string>,
    phone: Option<string>,
    company: Option<string>,
    designation: Option<string>,
    skills: Json,
    confidenceScores: Json,
    resumePath: string,
    status: ExtractionStatus)

  datatype DocType = Pan | Aadhaar

  datatype Document = Document(path: string)

  datatype DocumentRequest = DocumentRequest(candidateId: nat, message: string, requestType: string, status: string)

  /** One part of a multipart form: the client's file name and the bytes sent. */
  datatype Upload = Upload(filename: string, content: ResumeParser.Blob)

  const ResumeExtensions: set<string> := {"pdf", "docx", "txt"}
  const DocumentExtensions: set<string> := {"pdf", "jpg", "jpeg", "png"}

  // ---------------------------------------------------------------- allowed_file

  /** `allowed_file`: the text after the last '.' of the name, lower-cased, is in the allowed set. */
  function AllowedFile(filename: string, allowed: set<string>): (r: bool)
    ensures '.' !in filename ==> !r
  {
    '.' in filename && Lower(filename[LastIndex(filename, '.') + 1..]) in allowed
  }

  /** An allowed name has a '.' with no '.' after it whose lower-cased suffix is in the set. */
  lemma AllowedFileHasExtension(filename: string, allowed: set<string>)
    requires AllowedFile(filename, allowed)
    ensures exists k :: (0 <= k < |filename| && filename[k] == '.' &&
                         (forall j :: k < j < |filename| ==> filename[j] != '.') &&
                         Lower(filename[k + 1..]) in allowed)
  {
    var last := LastIndex(filename, '.');
    assert 0 <= last < |filename| && filename[last] == '.';
  }

  /** Conversely, a '.' with no '.' after it whose lower-cased suffix is in the set makes the name allowed. */
  lemma ExtensionMakesAllowed(filename: string, allowed: set<string>, k: int)
    requires 0 <= k < |filename| && filename[k] == '.'
    requires forall j :: k < j < |filename| ==> filename[j] != '.'
    requires Lower(filename[k + 1..]) in allowed
    ensures AllowedFile(filename, allowed)
  {
    LastIndexUnique(filename, '.', k);
    assert filename[LastIndex(filename, '.') + 1..] == filename[k + 1..];
    assert filename[k] == '.';
  }

  /** A name made of a stem and a '.'-led extension without a further '.' is judged by that extension alone. */
  lemma AllowedByExtension(stem: string, ext: string, allowed: set<string>)
    requires |ext| > 0 && ext[0] == '.' && '.' !in ext[1..]
    ensures AllowedFile(stem + ext, allowed) <==> Lower(ext[1..]) in allowed
  {
    LastIndexAppend(stem, ext, '.');
    assert forall j :: 1 <= j < |ext| ==> ext[j] == ext[1..][j - 1];
    assert LastIndex(ext, '.') == 0;
    assert (stem + ext)[|stem| + 1..] == ext[1..];
  }

  // ---------------------------------------------------------------- lookups over the candidate table

  /** `Candidate.query.get(id)`. */
  function Find(cs: seq<Candidate>, id: nat): (r: Option<Candidate>)
    ensures r.Some? ==> r.value in cs && r.value.id == id
    ensures r.None? <==> forall i :: 0 <= i < |cs| ==> cs[i].id != id
  {
    if |cs| == 0 then None
    else if cs[0].id == id then Some(cs[0])
    else Find(cs[1..], id)
  }

  datatype Contact = EmailContact | PhoneContact

  function ContactOf(c: Candidate, k: Contact): Option<string> {
    if k == EmailContact then c.email else c.phone
  }

  /** `Candidate.query.filter_by(<contact>=v).first()`: the id of the earliest row holding `v`. */
  function FirstWith(cs: seq<Candidate>, k: Contact, v: string): (r: Option<nat>)
    ensures r.None? <==> forall i :: 0 <= i < |cs| ==> ContactOf(cs[i], k) != Some(v)
    ensures r.Some? ==> exists i :: 0 <= i < |cs| && cs[i].id == r.value && ContactOf(cs[i], k) == Some(v) &&
                                    forall j :: 0 <= j < i ==> ContactOf(cs[j], k) != Some(v)
  {
    if |cs| == 0 then None
    else if ContactOf(cs[0], k) == Some(v) then Some(cs[0].id)
    else
      var r := FirstWith(cs[1..], k, v);
      if r.Some? then
        ghost var i :| 0 <= i < |cs| - 1 && cs[1..][i].id == r.value && ContactOf(cs[1..][i], k) == Some(v) &&
                       forall j :: 0 <= j < i ==> ContactOf(cs[1..][j], k) != Some(v);
        assert cs[i + 1].id == r.value && ContactOf(cs[i + 1], k) == Some(v);
        assert forall j :: 0 <= j < i + 1 ==> ContactOf(cs[j], k) != Some(v) by {
          forall j | 0 <= j < i + 1 ensures ContactOf(cs[j], k) != Some(v) {
            if j > 0 { assert cs[j] == cs[1..][j - 1]; }
          }
        }
        r
      else
        assert forall i :: 0 <= i < |cs| ==> ContactOf(cs[i], k) != Some(v) by {
          forall i | 0 <= i < |cs| ensures ContactOf(cs[i], k) != Some(v) {
            if i > 0 { assert cs[i] == cs[1..][i - 1]; }
          }
        }
        r
  }

  /** Two rows share a non-empty email or a non-empty phone. */
  predicate Clash(a: Candidate, b: Candidate) {
    (Agent.Truthy(a.email) && a.email == b.email) || (Agent.Truthy(a.phone) && a.phone == b.phone)
  }

  predicate ContactsUnique(cs: seq<Candidate>) {
    forall i, j :: 0 <= i < j < |cs| ==> !Clash(cs[i], cs[j])
  }

  // ---------------------------------------------------------------- upload_resume

  datatype UploadError =
    | NoResumePart
    | NoFileSelected
    | DisallowedExtension
    | EmptyUpload
    | TooLarge
    | NothingExtracted
    | DuplicateEmail(existing: nat)
    | DuplicatePhone(existing: nat)
    | ParseFailed(raised: ResumeParser.Raised)
    | Crashed

  /** The status each outcome of an upload is answered with. */
  function UploadStatus(r: Result<Candidate, UploadError>): (s: Status)
    ensures s == Created201 <==> r.Success?
    ensures s == Conflict409 <==> r.Failure? && (r.error.DuplicateEmail? || r.error.DuplicatePhone?)
    ensures s == ServerError500 <==> r.Failure? && (r.error.Crashed? || (r.error.ParseFailed? && r.error.raised.OtherError?))
  {
    match r
    case Success(_) => Created201
    case Failure(e) =>
      match e
      case DuplicateEmail(_) => Conflict409
      case DuplicatePhone(_) => Conflict409
      case ParseFailed(raised) => if raised.ValueError? then BadRequest400 else ServerError500
      case Crashed => ServerError500
      case _ => BadRequest400
  }

  /** The checks made before anything is saved, in the order the handler makes them. */
  function UploadGate(resume: Option<Upload>, maxSize: nat): (r: Option<UploadError>)
    ensures r.None? <==> resume.Some? && resume.value.filename != "" &&
                         AllowedFile(resume.value.filename, ResumeExtensions) &&
                         0 < resume.value.content.size <= maxSize
    ensures r.Some? ==> UploadStatus(Failure(r.value)) == BadRequest400
  {
    if resume.None? then Some(NoResumePart)
    else if resume.value.filename == "" then Some(NoFileSelected)
    else if !AllowedFile(resume.value.filename, ResumeExtensions) then Some(DisallowedExtension)
    else if resume.value.content.size == 0 then Some(EmptyUpload)
    else if resume.value.content.size > maxSize then Some(TooLarge)
    else None
  }

  /** Each rejection is reached only when every earlier check has passed. */
  lemma GateOrder(resume: Option<Upload>, maxSize: nat)
    ensures UploadGate(resume, maxSize) == Some(NoResumePart) <==> resume.None?
    ensures UploadGate(resume, maxSize) == Some(NoFileSelected) <==> resume.Some? && resume.value.filename == ""
    ensures UploadGate(resume, maxSize) == Some(DisallowedExtension) <==>
      resume.Some? && resume.value.filename != "" && !AllowedFile(resume.value.filename, ResumeExtensions)
    ensures UploadGate(resume, maxSize) == Some(EmptyUpload) <==>
      resume.Some? && AllowedFile(resume.value.filename, ResumeExtensions) && resume.value.content.size == 0
    ensures UploadGate(resume, maxSize) == Some(TooLarge) <==>
      resume.Some? && AllowedFile(resume.value.filename, ResumeExtensions) && resume.value.content.size > maxSize
  {
  }

  /** `parsed_data.get('data', {})`; `None` when `data` is there but has no `.get`, which raises. */
  function AppData(parsed: map<string, Json>): Option<map<string, Json>> {
    if "data" !in parsed then Some(map[])
    else if parsed["data"].JObj? then Some(parsed["data"].fields)
    else None
  }

  /** A value a text column takes: a string or `null`. */
  predicate Storable(v: Json) {
    v.JNull? || v.JStr?
  }

  /** Every text column of a new row has a storable value in `data`. */
  predicate StorableColumns(data: map<string, Json>) {
    && Storable(Get(data, "name")) && Storable(Get(data, "email")) && Storable(Get(data, "phone"))
    && Storable(Get(data, "company")) && Storable(Get(data, "designation"))
  }

  function Column(v: Json): Option<string> {
    if v.JStr? then Some(v.s) else None
  }

  /**
   * The columns of a new row: each text column is the `data` entry of that
   * name (a string, or `null` read as `NULL`), skills are `data['skills']`
   * or `[]`, and the scores are the result's `confidence_scores` or `{}`.
   */
  predicate Recorded(data: map<string, Json>, parsed: map<string, Json>, c: Candidate) {
    && StorableColumns(data)
    && c.name == Column(Get(data, "name")) && c.email == Column(Get(data, "email"))
    && c.phone == Column(Get(data, "phone")) && c.company == Column(Get(data, "company"))
    && c.designation == Column(Get(data, "designation"))
    && c.skills == (if "skills" in data then data["skills"] else JArr([]))
    && c.confidenceScores == (if "confidence_scores" in parsed then parsed["confidence_scores"] else JObj(map[]))
  }

  /**
   * What the handler does with a parsed resume: its own identity check, the
   * duplicate guard (email first, phone only when the email found nothing),
   * then the new row.
   */
  function Admit(cs: seq<Candidate>, parsed: map<string, Json>, savedAs: string, newId: nat): (r: Result<Candidate, UploadError>)
    ensures r.Success? ==> r.value.id == newId && r.value.status == Completed && r.value.resumePath == savedAs
    ensures r.Success? ==> Agent.Truthy(r.value.name) || Agent.Truthy(r.value.email) || Agent.Truthy(r.value.phone)
    ensures r.Success? ==> forall i :: 0 <= i < |cs| ==> !Clash(cs[i], r.value)
    ensures r.Failure? && (r.error.DuplicateEmail? || r.error.DuplicatePhone?) ==>
      exists i :: 0 <= i < |cs| && cs[i].id == r.error.existing
    ensures r.Success? ==> AppData(parsed).Some? && Recorded(AppData(parsed).value, parsed, r.value)
  {
    match AppData(parsed)
    case None => Failure(Crashed)
    case Some(data) =>
      var name, email, phone := Get(data, "name"), Get(data, "email"), Get(data, "phone");
      if !Truthy(name) && !Truthy(email) && !Truthy(phone) then Failure(NothingExtracted)
      else if Truthy(email) && !email.JStr? then Failure(Crashed)
      else if Truthy(email) && FirstWith(cs, EmailContact, email.s).Some? then
        Failure(DuplicateEmail(FirstWith(cs, EmailContact, email.s).value))
      else if Truthy(phone) && !phone.JStr? then Failure(Crashed)
      else if Truthy(phone) && FirstWith(cs, PhoneContact, phone.s).Some? then
        Failure(DuplicatePhone(FirstWith(cs, PhoneContact, phone.s).value))
      else if !StorableColumns(data) then Failure(Crashed)
      else
        Success(Candidate(
          newId, Column(name), Column(email), Column(phone),
          Column(Get(data, "company")), Column(Get(data, "designation")),
          if "skills" in data then data["skills"] else JArr([]),
          if "confidence_scores" in parsed then parsed["confidence_scores"] else JObj(map[]),
          savedAs, Completed))
  }

  /**
   * The whole upload as a decision: the gate, the parse of the file saved
   * under `savedAs`, then admission.
   */
  function UploadDecision(cs: seq<Candidate>, files: map<string, ResumeParser.Blob>, resume: Option<Upload>,
                          savedAs: string, maxSize: nat, model: string -> ResumeParser.Reply, newId: nat): (r: Result<Candidate, UploadError>)
    ensures r.Success? ==> resume.Some? && AllowedFile(resume.value.filename, ResumeExtensions) &&
                           0 < resume.value.content.size <= maxSize
    ensures r.Success? ==> ResumeParser.ParseResume(files[savedAs := resume.value.content], savedAs, model).Success?
    ensures r.Success? ==> r.value.id == newId && r.value.status == Completed && r.value.resumePath == savedAs
    ensures r.Success? ==> forall i :: 0 <= i < |cs| ==> !Clash(cs[i], r.value)
    ensures r.Success? ==> var parsed := ResumeParser.ParseResume(files[savedAs := resume.value.content], savedAs, model).value;
      AppData(parsed).Some? && Recorded(AppData(parsed).value, parsed, r.value)
  {
    match UploadGate(resume, maxSize)
    case Some(e) => Failure(e)
    case None => AfterSave(cs, files, resume.value, savedAs, model, newId)
  }

  /** The part of the upload after the file is saved under `savedAs`: the parse, then admission. */
  function AfterSave(cs: seq<Candidate>, files: map<string, ResumeParser.Blob>, upload: Upload,
                     savedAs: string, model: string -> ResumeParser.Reply, newId: nat): (r: Result<Candidate, UploadError>)
    ensures r.Success? ==> ResumeParser.ParseResume(files[savedAs := upload.content], savedAs, model).Success?
    ensures r.Success? ==> r.value.id == newId && r.value.status == Completed && r.value.resumePath == savedAs
    ensures r.Success? ==> forall i :: 0 <= i < |cs| ==> !Clash(cs[i], r.value)
    ensures r.Success? ==> var parsed := ResumeParser.ParseResume(files[savedAs := upload.content], savedAs, model).value;
      AppData(parsed).Some? && Recorded(AppData(parsed).value, parsed, r.value)
    ensures var parse := ResumeParser.ParseResume(files[savedAs := upload.content], savedAs, model);
      parse.Failure? ==> r == Failure(ParseFailed(parse.error))
  {
    match ResumeParser.ParseResume(files[savedAs := upload.content], savedAs, model)
    case Failure(raised) => Failure(ParseFailed(raised))
    case Success(parsed) => Admit(cs, parsed, savedAs, newId)
  }

  /** A request the gate rejects is answered the same whatever the store, the disk and the model. */
  lemma RejectedBeforeSave(cs: seq<Candidate>, files: map<string, ResumeParser.Blob>, resume: Option<Upload>,
                           savedAs: string, maxSize: nat, model: string -> ResumeParser.Reply, newId: nat)
    requires UploadGate(resume, maxSize).Some?
    ensures UploadDecision(cs, files, resume, savedAs, maxSize, model, newId) == Failure(UploadGate(resume, maxSize).value)
    ensures UploadStatus(UploadDecision(cs, files, resume, savedAs, maxSize, model, newId)) == BadRequest400
  {
  }

  /**
   * A parse failure reaches the client unchanged: a `ValueError` is answered
   * 400 and any other exception 500.
   */
  lemma ParseFailureStatus(cs: seq<Candidate>, files: map<string, ResumeParser.Blob>, resume: Option<Upload>,
                           savedAs: string, maxSize: nat, model: string -> ResumeParser.Reply, newId: nat)
    requires UploadGate(resume, maxSize).None?
    requires ResumeParser.ParseResume(files[savedAs := resume.value.content], savedAs, model).Failure?
    ensures var raised := ResumeParser.ParseResume(files[savedAs := resume.value.content], savedAs, model).error;
      && UploadDecision(cs, files, resume, savedAs, maxSize, model, newId) == Failure(ParseFailed(raised))
      && UploadStatus(UploadDecision(cs, files, resume, savedAs, maxSize, model, newId)) ==
         (if raised.ValueError? then BadRequest400 else ServerError500)
  {
  }

  /**
   * Admission succeeds when some identity field is set, every text column is
   * storable, and neither the email nor the phone is held by an existing row.
   */
  lemma AdmitSucceeds(cs: seq<Candidate>, parsed: map<string, Json>, savedAs: string, newId: nat)
    requires AppData(parsed).Some?
    requires var data := AppData(parsed).value;
      && (Truthy(Get(data, "name")) || Truthy(Get(data, "email")) || Truthy(Get(data, "phone")))
      && StorableColumns(data)
      && (Truthy(Get(data, "email")) ==> forall i :: 0 <= i < |cs| ==> cs[i].email != Column(Get(data, "email")))
      && (Truthy(Get(data, "phone")) ==> forall i :: 0 <= i < |cs| ==> cs[i].phone != Column(Get(data, "phone")))
    ensures Admit(cs, parsed, savedAs, newId).Success?
  {
    var data := AppData(parsed).value;
    var email, phone := Get(data, "email"), Get(data, "phone");
    if Truthy(email) {
      forall i | 0 <= i < |cs| ensures ContactOf(cs[i], EmailContact) != Some(email.s) {
        assert cs[i].email != Column(email);
      }
    }
    if Truthy(phone) {
      forall i | 0 <= i < |cs| ensures ContactOf(cs[i], PhoneContact) != Some(phone.s) {
        assert cs[i].phone != Column(phone);
      }
    }
  }

  /**
   * An upload that passes the gate and parses, with storable columns and an
   * email and phone nobody holds, is answered 201 with the parsed row.
   */
  lemma UploadSucceeds(cs: seq<Candidate>, files: map<string, ResumeParser.Blob>, resume: Option<Upload>,
                       savedAs: string, maxSize: nat, model: string -> ResumeParser.Reply, newId: nat)
    requires UploadGate(resume, maxSize).None?
    requires ResumeParser.ParseResume(files[savedAs := resume.value.content], savedAs, model).Success?
    requires var parsed := ResumeParser.ParseResume(files[savedAs := resume.value.content], savedAs, model).value;
      && AppData(parsed).Some?
      && StorableColumns(AppData(parsed).value)
      && (Truthy(Get(AppData(parsed).value, "email")) ==>
            forall i :: 0 <= i < |cs| ==> cs[i].email != Column(Get(AppData(parsed).value, "email")))
      && (Truthy(Get(AppData(parsed).value, "phone")) ==>
            forall i :: 0 <= i < |cs| ==> cs[i].phone != Column(Get(AppData(parsed).value, "phone")))
    ensures var parsed := ResumeParser.ParseResume(files[savedAs := resume.value.content], savedAs, model).value;
      && UploadDecision(cs, files, resume, savedAs, maxSize, model, newId) == Admit(cs, parsed, savedAs, newId)
      && UploadStatus(UploadDecision(cs, files, resume, savedAs, maxSize, model, newId)) == Created201
  {
    var disk := files[savedAs := resume.value.content];
    var parsed := ResumeParser.ParseResume(disk, savedAs, model).value;
    IdentityGateNeverFires(disk, savedAs, model);
    AdmitSucceeds(cs, parsed, savedAs, newId);
  }

  /**
   * The handler's own identity check (app.py:81) never fires: a parse that
   * succeeded has an object `data` in which name, email or phone is truthy.
   */
  lemma IdentityGateNeverFires(disk: map<string, ResumeParser.Blob>, path: string, model: string -> ResumeParser.Reply)
    requires ResumeParser.ParseResume(disk, path, model).Success?
    ensures var parsed := ResumeParser.ParseResume(disk, path, model).value;
      && AppData(parsed).Some?
      && (Truthy(Get(AppData(parsed).value, "name")) || Truthy(Get(AppData(parsed).value, "email")) ||
          Truthy(Get(AppData(parsed).value, "phone")))
  {
  }

  /** Admission refuses for lack of identity only when name, email and phone are all falsy. */
  lemma AdmitNothingOnlyWithoutIdentity(cs: seq<Candidate>, parsed: map<string, Json>, savedAs: string, newId: nat)
    requires AppData(parsed).Some?
    requires var data := AppData(parsed).value;
      Truthy(Get(data, "name")) || Truthy(Get(data, "email")) || Truthy(Get(data, "phone"))
    ensures Admit(cs, parsed, savedAs, newId) != Failure(NothingExtracted)
  {
  }

  /** Hence no upload is ever answered with `NothingExtracted`. */
  lemma NothingExtractedUnreachable(cs: seq<Candidate>, files: map<string, ResumeParser.Blob>, resume: Option<Upload>,
                                    savedAs: string, maxSize: nat, model: string -> ResumeParser.Reply, newId: nat)
    ensures UploadDecision(cs, files, resume, savedAs, maxSize, model, newId) != Failure(NothingExtracted)
  {
    if UploadGate(resume, maxSize).None? {
      var disk := files[savedAs := resume.value.content];
      var parsed := ResumeParser.ParseResume(disk, savedAs, model);
      assert UploadDecision(cs, files, resume, savedAs, maxSize, model, newId) == AfterSave(cs, files, resume.value, savedAs, model, newId);
      if parsed.Success? {
        IdentityGateNeverFires(disk, savedAs, model);
        AdmitNothingOnlyWithoutIdentity(cs, parsed.value, savedAs, newId);
      }
    }
  }

  /**
   * The parser's rule is strictly stronger than the handler's: a name "null"
   * or "  " passes `not name` but is not identifying.
   */
  lemma IdentityRuleStrictlyStronger()
    ensures Truthy(JStr("null")) && !ResumeParser.Identifying(JStr("null"))
    ensures Truthy(JStr("  ")) && !ResumeParser.Identifying(JStr("  "))
  {
    assert Lower("null") == "null";
    assert IsBlank("  ");
    StripEmptyIffBlank("  ");
  }

  /** A taken email is reported with the earliest holder's id, whatever the phone. */
  lemma EmailCheckedFirst(cs: seq<Candidate>, parsed: map<string, Json>, savedAs: string, newId: nat, e: string)
    requires "data" in parsed && parsed["data"].JObj?
    requires Get(parsed["data"].fields, "email") == JStr(e) && e != ""
    requires exists i :: 0 <= i < |cs| && cs[i].email == Some(e)
    ensures Admit(cs, parsed, savedAs, newId) == Failure(DuplicateEmail(FirstWith(cs, EmailContact, e).value))
  {
    var i :| 0 <= i < |cs| && cs[i].email == Some(e);
    assert ContactOf(cs[i], EmailContact) == Some(e);
  }

  /** A phone conflict is reported only when the email is absent or held by nobody. */
  lemma PhoneCheckedOnlyWithoutEmailMatch(cs: seq<Candidate>, parsed: map<string, Json>, savedAs: string, newId: nat)
    requires Admit(cs, parsed, savedAs, newId).Failure? && Admit(cs, parsed, savedAs, newId).error.DuplicatePhone?
    ensures var data := parsed["data"].fields;
      && Get(data, "phone").JStr?
      && (exists i :: 0 <= i < |cs| && cs[i].id == Admit(cs, parsed, savedAs, newId).error.existing &&
                      cs[i].phone == Some(Get(data, "phone").s))
      && (Truthy(Get(data, "email")) ==> forall i :: 0 <= i < |cs| ==> cs[i].email != Column(Get(data, "email")))
  {
    var data := parsed["data"].fields;
    var i :| 0 <= i < |cs| && cs[i].id == Admit(cs, parsed, savedAs, newId).error.existing &&
             ContactOf(cs[i], PhoneContact) == Some(Get(data, "phone").s);
    if Truthy(Get(data, "email")) {
      forall j | 0 <= j < |cs| ensures cs[j].email != Column(Get(data, "email")) {
        assert ContactOf(cs[j], EmailContact) != Some(Get(data, "email").s);
      }
    }
  }

  /**
   * A phone held by an existing row, with no email or an email nobody holds,
   * is reported with the earliest holder's id.
   */
  lemma PhoneDuplicateReported(cs: seq<Candidate>, parsed: map<string, Json>, savedAs: string, newId: nat, p: string)
    requires "data" in parsed && parsed["data"].JObj?
    requires Get(parsed["data"].fields, "phone") == JStr(p) && p != ""
    requires exists i :: 0 <= i < |cs| && cs[i].phone == Some(p)
    requires var email := Get(parsed["data"].fields, "email");
      Truthy(email) ==> email.JStr? && forall i :: 0 <= i < |cs| ==> cs[i].email != Some(email.s)
    ensures Admit(cs, parsed, savedAs, newId) == Failure(DuplicatePhone(FirstWith(cs, PhoneContact, p).value))
  {
    var email := Get(parsed["data"].fields, "email");
    var i :| 0 <= i < |cs| && cs[i].phone == Some(p);
    assert ContactOf(cs[i], PhoneContact) == Some(p);
    if Truthy(email) {
      forall j | 0 <= j < |cs| ensures ContactOf(cs[j], EmailContact) != Some(email.s) {
        assert cs[j].email != Some(email.s);
      }
    }
  }

  /**
   * A `.txt` name passes the upload gate, and the parser then refuses it with
   * a `ValueError`, so the upload is answered 400.
   */
  lemma TxtUploadRefusedByParser(cs: seq<Candidate>, files: map<string, ResumeParser.Blob>, resume: Option<Upload>,
                                 savedAs: string, maxSize: nat, model: string -> ResumeParser.Reply, newId: nat,
                                 stem: string, folder: string, savedStem: string)
    requires resume.Some? && resume.value.filename == stem + ".txt" && 0 < resume.value.content.size <= maxSize
    requires savedAs == folder + "/" + savedStem + ".txt"
    requires '/' !in savedStem && exists k :: 0 <= k < |savedStem| && savedStem[k] != '.'
    ensures UploadGate(resume, maxSize).None?
    ensures UploadDecision(cs, files, resume, savedAs, maxSize, model, newId) ==
            Failure(ParseFailed(ResumeParser.ValueError(ResumeParser.UnsupportedFormat(".txt"))))
  {
    TxtNameAllowed(stem);
    var disk := files[savedAs := resume.value.content];
    ResumeParser.TxtNeverReachesModel(disk, folder, savedStem, model);
  }

  /**
   * A `.pdf` resume with no pages or only blank pages passes the gate, is
   * saved, and the parser's plain exception is answered with 500.
   */
  lemma BlankPdfUploadIs500(cs: seq<Candidate>, files: map<string, ResumeParser.Blob>, resume: Option<Upload>,
                            maxSize: nat, model: string -> ResumeParser.Reply, newId: nat,
                            stem: string, folder: string, savedStem: string)
    requires resume.Some? && resume.value.filename == stem + ".pdf" && 0 < resume.value.content.size <= maxSize
    requires '/' !in savedStem && exists k :: 0 <= k < |savedStem| && savedStem[k] != '.'
    requires var pdf := resume.value.content.pdf;
      pdf.PdfPages? && forall i :: 0 <= i < |pdf.pages| ==> IsBlank(pdf.pages[i])
    ensures UploadGate(resume, maxSize).None?
    ensures UploadStatus(UploadDecision(cs, files, resume, folder + "/" + savedStem + ".pdf", maxSize, model, newId)) ==
            ServerError500
  {
    PdfNameAllowed(stem, ResumeExtensions);
    var savedAs := folder + "/" + savedStem + ".pdf";
    var disk := files[savedAs := resume.value.content];
    ResumeParser.BlankPdfFails(disk, folder, savedStem, model);
    assert ResumeParser.ParseResume(disk, savedAs, model).error.OtherError?;
    ParseFailureStatus(cs, files, resume, savedAs, maxSize, model, newId);
  }

  /** A name ending in ".txt" has an allowed resume extension. */
  lemma TxtNameAllowed(stem: string)
    ensures AllowedFile(stem + ".txt", ResumeExtensions)
  {
    assert ".txt"[1..] == "txt";
    LowerOfNoCapitals("txt");
    AllowedByExtension(stem, ".txt", ResumeExtensions);
  }

  // ---------------------------------------------------------------- request_documents

  /** The three refusals of the handler, in its order: no identity, failed extraction, no contact. */
  predicate RequestAllowed(c: Candidate)
    ensures RequestAllowed(c) <==> c.status != Failed && (Agent.Truthy(c.email) || Agent.Truthy(c.phone))
  {
    && (Agent.Truthy(c.name) || Agent.Truthy(c.email) || Agent.Truthy(c.phone))
    && c.status != Failed
    && (Agent.Truthy(c.email) || Agent.Truthy(c.phone))
  }

  /** The `candidate_data` handed to the agent. */
  function AgentInput(c: Candidate): map<string, Agent.Field> {
    map["name" := Some(Agent.Or(c.name, "Candidate")), "email" := c.email, "phone" := c.phone,
        "company" := c.company, "designation" := c.designation]
  }

  /** Each key the agent reads from `candidate_data` holds the candidate's own column. */
  lemma AgentInputFields(c: Candidate)
    ensures Agent.Lookup(AgentInput(c), "name") == Some(Agent.Or(c.name, "Candidate"))
    ensures Agent.Lookup(AgentInput(c), "email") == c.email
    ensures Agent.Lookup(AgentInput(c), "phone") == c.phone
    ensures Agent.Lookup(AgentInput(c), "company") == c.company
    ensures Agent.Lookup(AgentInput(c), "designation") == c.designation
  {
  }

  /** The request row a successful call appends. */
  function RequestFor(c: Candidate, generate: Agent.Prompt -> string): (r: DocumentRequest)
    ensures r.candidateId == c.id && r.status == "sent"
    ensures r.requestType == (if Agent.Truthy(c.email) then "email" else if Agent.Truthy(c.phone) then "sms" else "email")
  {
    var channel := Agent.Route(c.email, c.phone);
    var prompt := Agent.PromptFor(channel, Some(Agent.Or(c.name, "Candidate")), c.email, c.phone, c.company, c.designation);
    DocumentRequest(c.id, generate(prompt), channel.Key(), "sent")
  }

  /**
   * The agent's "neither email nor phone" branch cannot be reached from the
   * handler, and the agent never falls back to its own "Candidate" name.
   */
  lemma FallbackUnreachable(c: Candidate)
    requires RequestAllowed(c)
    ensures !Agent.TakesFallback(Agent.Lookup(AgentInput(c), "email"), Agent.Lookup(AgentInput(c), "phone"))
    ensures Agent.Route(Agent.Lookup(AgentInput(c), "email"), Agent.Lookup(AgentInput(c), "phone")) ==
            (if Agent.Truthy(c.email) then Agent.Email else Agent.Sms)
    ensures Agent.Lookup(AgentInput(c), "name") == Some(Agent.Or(c.name, "Candidate"))
  {
  }

  // ---------------------------------------------------------------- submit_documents

  /** The document table and the files on disk. */
  datatype State = State(documents: map<(nat, DocType), Document>, files: map<string, ResumeParser.Blob>)

  datatype Outcome = Outcome(status: Status, state: State)

  /** Every record's file is on disk, and no two records share a file. */
  predicate Consistent(s: State) {
    && (forall k :: k in s.documents ==> s.documents[k].path in s.files)
    && (forall k1, k2 :: k1 in s.documents && k2 in s.documents && k1 != k2 ==> s.documents[k1].path != s.documents[k2].path)
  }

  predicate Active(part: Option<Upload>) {
    part.Some? && part.value.filename != ""
  }

  predicate Rejected(u: Upload, maxSize: nat) {
    !AllowedFile(u.filename, DocumentExtensions) || u.content.size == 0 || u.content.size > maxSize
  }

  /** Replace-on-resubmit: drop the old file and record of this type, save the new file, add the new record. */
  function Replace(s: State, key: (nat, DocType), u: Upload, path: string): (r: State)
    ensures r.documents == s.documents[key := Document(path)]
    ensures path in r.files && r.files[path] == u.content
    ensures key in s.documents && s.documents[key].path != path ==> s.documents[key].path !in r.files
    ensures forall p :: p in s.files && p != path && !(key in s.documents && p == s.documents[key].path) ==>
                        p in r.files && r.files[p] == s.files[p]
    ensures forall p :: p in r.files ==> p == path || p in s.files
  {
    var kept := if key in s.documents then s.files - {s.documents[key].path} else s.files;
    State(s.documents[key := Document(path)], kept[path := u.content])
  }

  /** The change one part makes when it is present and named. */
  function ApplyPart(s: State, key: (nat, DocType), part: Option<Upload>, path: string): State {
    if Active(part) then Replace(s, key, part.value, path) else s
  }

  /**
   * `submit_documents` as written. The PAN part is applied to the disk before
   * the Aadhaar part is validated; a refusal then returns 400 without commit,
   * so the records are as before but the disk is not.
   */
  function SubmitAsWritten(cs: seq<Candidate>, s: State, id: nat, pan: Option<Upload>, aadhaar: Option<Upload>,
                           panPath: string, aadhaarPath: string, maxSize: nat): (o: Outcome)
    ensures o.status == Created201 ==> Find(cs, id).Some? && (Active(pan) || Active(aadhaar))
    ensures o.status == Created201 ==>
      o.state == ApplyPart(ApplyPart(s, (id, Pan), pan, panPath), (id, Aadhaar), aadhaar, aadhaarPath)
    ensures o.status != Created201 ==> o.state.documents == s.documents
    ensures o.status != Created201 && !(Active(aadhaar) && Rejected(aadhaar.value, maxSize)) ==> o.state == s
    ensures o.status in {Created201, BadRequest400, ServerError500}
  {
    if Find(cs, id).None? then Outcome(ServerError500, s)
    else if pan.None? && aadhaar.None? then Outcome(BadRequest400, s)
    else if Active(pan) && Rejected(pan.value, maxSize) then Outcome(BadRequest400, s)
    else
      var s1 := ApplyPart(s, (id, Pan), pan, panPath);
      if Active(aadhaar) && Rejected(aadhaar.value, maxSize) then Outcome(BadRequest400, State(s.documents, s1.files))
      else
        var s2 := ApplyPart(s1, (id, Aadhaar), aadhaar, aadhaarPath);
        if !Active(pan) && !Active(aadhaar) then Outcome(BadRequest400, s)
        else Outcome(Created201, s2)
  }

  /** `submit_documents` with every part validated before anything is changed. */
  function SubmitAtomic(cs: seq<Candidate>, s: State, id: nat, pan: Option<Upload>, aadhaar: Option<Upload>,
                        panPath: string, aadhaarPath: string, maxSize: nat): (o: Outcome)
    ensures o.status != Created201 ==> o.state == s
    ensures o.status == Created201 ==> Find(cs, id).Some? && (Active(pan) || Active(aadhaar))
    ensures o.status == Created201 ==>
      o.state == ApplyPart(ApplyPart(s, (id, Pan), pan, panPath), (id, Aadhaar), aadhaar, aadhaarPath)
  {
    if Find(cs, id).None? then Outcome(ServerError500, s)
    else if pan.None? && aadhaar.None? then Outcome(BadRequest400, s)
    else if Active(pan) && Rejected(pan.value, maxSize) then Outcome(BadRequest400, s)
    else if Active(aadhaar) && Rejected(aadhaar.value, maxSize) then Outcome(BadRequest400, s)
    else if !Active(pan) && !Active(aadhaar) then Outcome(BadRequest400, s)
    else
      var s1 := ApplyPart(s, (id, Pan), pan, panPath);
      Outcome(Created201, ApplyPart(s1, (id, Aadhaar), aadhaar, aadhaarPath))
  }

  /**
   * A 201 records each named part under its own path and saves its content;
   * every other record stays as it was.
   */
  lemma AcceptedPartsRecorded(cs: seq<Candidate>, s: State, id: nat, pan: Option<Upload>, aadhaar: Option<Upload>,
                              panPath: string, aadhaarPath: string, maxSize: nat)
    requires SubmitAsWritten(cs, s, id, pan, aadhaar, panPath, aadhaarPath, maxSize).status == Created201
    ensures var o := SubmitAsWritten(cs, s, id, pan, aadhaar, panPath, aadhaarPath, maxSize);
      && (Active(pan) ==> (id, Pan) in o.state.documents && o.state.documents[(id, Pan)] == Document(panPath))
      && (Active(aadhaar) ==> (id, Aadhaar) in o.state.documents && o.state.documents[(id, Aadhaar)] == Document(aadhaarPath)
                              && aadhaarPath in o.state.files && o.state.files[aadhaarPath] == aadhaar.value.content)
      && (Active(pan) && !(Active(aadhaar) && (aadhaarPath == panPath || ((id, Aadhaar) in s.documents &&
                                                  s.documents[(id, Aadhaar)].path == panPath))) ==>
            panPath in o.state.files && o.state.files[panPath] == pan.value.content)
      && (forall k :: k in s.documents && !(k == (id, Pan) && Active(pan)) && !(k == (id, Aadhaar) && Active(aadhaar)) ==>
            k in o.state.documents && o.state.documents[k] == s.documents[k])
  {
    var s1 := ApplyPart(s, (id, Pan), pan, panPath);
    var s2 := ApplyPart(s1, (id, Aadhaar), aadhaar, aadhaarPath);
    assert SubmitAsWritten(cs, s, id, pan, aadhaar, panPath, aadhaarPath, maxSize).state == s2;
    if Active(pan) && Active(aadhaar) {
      assert s1.documents == s.documents[(id, Pan) := Document(panPath)];
    }
  }

  /** A row that clashes with no earlier row can be appended without breaking uniqueness. */
  lemma AppendKeepsContactsUnique(cs: seq<Candidate>, c: Candidate)
    requires ContactsUnique(cs)
    requires forall i :: 0 <= i < |cs| ==> !Clash(cs[i], c)
    ensures ContactsUnique(cs + [c])
  {
    var cs' := cs + [c];
    forall i, j | 0 <= i < j < |cs'| ensures !Clash(cs'[i], cs'[j]) {
      if j < |cs| {
        assert cs'[i] == cs[i] && cs'[j] == cs[j];
      } else {
        assert cs'[i] == cs[i] && cs'[j] == c;
      }
    }
  }

  /** Replacing one record with a fresh file keeps records and disk consistent. */
  lemma ReplaceKeepsConsistent(s: State, key: (nat, DocType), u: Upload, path: string)
    requires Consistent(s) && path !in s.files
    ensures Consistent(Replace(s, key, u, path))
  {
    var r := Replace(s, key, u, path);
    forall k | k in r.documents ensures r.documents[k].path in r.files {
      if k != key {
        assert s.documents[k].path in s.files;
        assert s.documents[k].path != path;
        if key in s.documents { assert s.documents[k].path != s.documents[key].path; }
      }
    }
  }

  /**
   * The corrected handler answers every request with the status the original
   * gives and, on success, makes the same change; otherwise it changes
   * nothing, and with fresh file names it keeps records and disk consistent.
   */
  lemma AtomicSubmitAgrees(cs: seq<Candidate>, s: State, id: nat, pan: Option<Upload>, aadhaar: Option<Upload>,
                           panPath: string, aadhaarPath: string, maxSize: nat)
    ensures SubmitAtomic(cs, s, id, pan, aadhaar, panPath, aadhaarPath, maxSize).status ==
            SubmitAsWritten(cs, s, id, pan, aadhaar, panPath, aadhaarPath, maxSize).status
    ensures SubmitAsWritten(cs, s, id, pan, aadhaar, panPath, aadhaarPath, maxSize).status == Created201 ==>
            SubmitAtomic(cs, s, id, pan, aadhaar, panPath, aadhaarPath, maxSize) ==
            SubmitAsWritten(cs, s, id, pan, aadhaar, panPath, aadhaarPath, maxSize)
  {
  }

  lemma AtomicSubmitKeepsConsistent(cs: seq<Candidate>, s: State, id: nat, pan: Option<Upload>, aadhaar: Option<Upload>,
                                    panPath: string, aadhaarPath: string, maxSize: nat)
    requires Consistent(s) && panPath !in s.files && aadhaarPath !in s.files && panPath != aadhaarPath
    ensures Consistent(SubmitAtomic(cs, s, id, pan, aadhaar, panPath, aadhaarPath, maxSize).state)
  {
    var o := SubmitAtomic(cs, s, id, pan, aadhaar, panPath, aadhaarPath, maxSize);
    if o.status == Created201 {
      var s1 := ApplyPart(s, (id, Pan), pan, panPath);
      if Active(pan) { ReplaceKeepsConsistent(s, (id, Pan), pan.value, panPath); }
      assert aadhaarPath !in s1.files;
      if Active(aadhaar) { ReplaceKeepsConsistent(s1, (id, Aadhaar), aadhaar.value, aadhaarPath); }
    }
  }

  /**
   * As written, when a PAN is on record and a new acceptable PAN arrives with
   * an Aadhaar part that is refused, the answer is 400 and the records are
   * unchanged, yet the recorded PAN file is gone and the new one stays on
   * disk, recorded nowhere: records and disk no longer agree.
   */
  lemma PartialSubmitLosesOldFile(cs: seq<Candidate>, s: State, id: nat, pan: Option<Upload>, aadhaar: Option<Upload>,
                                  panPath: string, aadhaarPath: string, maxSize: nat)
    requires Consistent(s) && Find(cs, id).Some?
    requires Active(pan) && !Rejected(pan.value, maxSize)
    requires Active(aadhaar) && Rejected(aadhaar.value, maxSize)
    requires (id, Pan) in s.documents && s.documents[(id, Pan)].path != panPath
    ensures var o := SubmitAsWritten(cs, s, id, pan, aadhaar, panPath, aadhaarPath, maxSize);
      && o.status == BadRequest400
      && o.state.documents == s.documents
      && s.documents[(id, Pan)].path !in o.state.files
      && panPath in o.state.files
      && !Consistent(o.state)
  {
    var o := SubmitAsWritten(cs, s, id, pan, aadhaar, panPath, aadhaarPath, maxSize);
    var s1 := Replace(s, (id, Pan), pan.value, panPath);
    assert o == Outcome(BadRequest400, State(s.documents, s1.files));
    assert s.documents[(id, Pan)].path !in o.state.files;
  }

  /** The smallest such request: a PAN on record, a new `pan.pdf`, and an Aadhaar file named `scan`. */
  lemma PartialSubmitExample()
    ensures
      var blob := ResumeParser.Blob(1, ResumeParser.UnreadablePdf, ResumeParser.NotAPackage);
      var cs := [Candidate(1, Some("A"), Some("a@x"), None, None, None, JArr([]), JObj(map[]), "r.pdf", Completed)];
      var s := State(map[(1, Pan) := Document("old.pdf")], map["old.pdf" := blob]);
      && Consistent(s)
      && Find(cs, 1).Some?
      && Active(Some(Upload("pan" + ".pdf", blob))) && !Rejected(Upload("pan" + ".pdf", blob), 10)
      && Active(Some(Upload("scan", blob))) && Rejected(Upload("scan", blob), 10)
      && var o := SubmitAsWritten(cs, s, 1, Some(Upload("pan" + ".pdf", blob)), Some(Upload("scan", blob)),
                                  "pan" + ".pdf", "scan", 10);
         o.status == BadRequest400 && "old.pdf" !in o.state.files && !Consistent(o.state)
  {
    var blob := ResumeParser.Blob(1, ResumeParser.UnreadablePdf, ResumeParser.NotAPackage);
    var cs := [Candidate(1, Some("A"), Some("a@x"), None, None, None, JArr([]), JObj(map[]), "r.pdf", Completed)];
    var s := State(map[(1, Pan) := Document("old.pdf")], map["old.pdf" := blob]);
    var pan, scan := Upload("pan" + ".pdf", blob), Upload("scan", blob);
    PdfNameAllowed("pan", DocumentExtensions);
    assert !Rejected(pan, 10);
    assert '.' !in "scan";
    assert Rejected(scan, 10);
    assert Find(cs, 1).Some?;
    assert Consistent(s);
    assert "old.pdf"[0] != ("pan" + ".pdf")[0];
    PartialSubmitLosesOldFile(cs, s, 1, Some(pan), Some(scan), "pan" + ".pdf", "scan", 10);
    assert s.documents[(1, Pan)].path == "old.pdf";
  }

  /** A name ending in ".pdf" passes any extension check that allows "pdf". */
  lemma PdfNameAllowed(stem: string, allowed: set<string>)
    requires "pdf" in allowed
    ensures AllowedFile(stem + ".pdf", allowed)
  {
    assert ".pdf"[1..] == "pdf";
    LowerOfNoCapitals("pdf");
    AllowedByExtension(stem, ".pdf", allowed);
  }

  // ---------------------------------------------------------------- the store

  /** Removing a file just saved leaves the disk as it was, less any earlier file of that name. */
  lemma SaveThenRemove(files: map<string, ResumeParser.Blob>, path: string, blob: ResumeParser.Blob)
    ensures files[path := blob] - {path} == files - {path}
  {
  }

  /** The database and the upload folders. */
  class Store {
    const maxContentLength: nat
    var candidates: seq<Candidate>
    var documents: map<(nat, DocType), Document>
    var requests: seq<DocumentRequest>
    var files: map<string, ResumeParser.Blob>
    var nextId: nat

    /** Row ids are distinct and below the next id; emails and phones are not shared. */
    predicate Valid()
      reads this
    {
      && (forall i :: 0 <= i < |candidates| ==> candidates[i].id < nextId)
      && (forall i, j :: 0 <= i < j < |candidates| ==> candidates[i].id != candidates[j].id)
      && ContactsUnique(candidates)
    }

    constructor (maxContentLength: nat)
      ensures this.maxContentLength == maxContentLength
      ensures candidates == [] && documents == map[] && requests == [] && files == map[] && nextId == 1
      ensures Valid()
    {
      this.maxContentLength := maxContentLength;
      candidates, documents, requests, files, nextId := [], map[], [], map[], 1;
    }

    /**
     * `upload_resume`: refuse before saving, or save under `savedAs`, parse,
     * and either insert the new row or remove the saved file again.
     */
    method UploadResume(resume: Option<Upload>, savedAs: string, model: string -> ResumeParser.Reply)
      returns (status: Status, created: Option<nat>)
      requires Valid()
      modifies this`candidates, this`files, this`nextId
      ensures Valid()
      ensures var d := UploadDecision(old(candidates), old(files), resume, savedAs, maxContentLength, model, old(nextId));
        && status == UploadStatus(d)
        && (d.Success? ==> && candidates == old(candidates) + [d.value]
                           && nextId == old(nextId) + 1
                           && created == Some(d.value.id)
                           && files == old(files)[savedAs := resume.value.content])
        && (d.Failure? ==> candidates == old(candidates) && nextId == old(nextId) && created.None?)
        && (d.Failure? && UploadGate(resume, maxContentLength).Some? ==> files == old(files))
        && (d.Failure? && UploadGate(resume, maxContentLength).None? ==> files == old(files) - {savedAs})
    {
      var gate := UploadGate(resume, maxContentLength);
      if gate.Some? {
        return UploadStatus(Failure(gate.value)), None;
      }
      var d := SaveAndAdmit(resume.value, savedAs, model);
      status := UploadStatus(d);
      created := if d.Success? then Some(d.value.id) else None;
    }

    /** Save the upload, parse it, and insert the new row or remove the saved file again. */
    method SaveAndAdmit(upload: Upload, savedAs: string, model: string -> ResumeParser.Reply)
      returns (d: Result<Candidate, UploadError>)
      requires Valid()
      modifies this`candidates, this`files, this`nextId
      ensures Valid()
      ensures d == AfterSave(old(candidates), old(files), upload, savedAs, model, old(nextId))
      ensures d.Success? ==> && candidates == old(candidates) + [d.value]
                             && nextId == old(nextId) + 1
                             && files == old(files)[savedAs := upload.content]
      ensures d.Failure? ==> candidates == old(candidates) && nextId == old(nextId) && files == old(files) - {savedAs}
    {
      SaveThenRemove(files, savedAs, upload.content);
      files := files[savedAs := upload.content];
      var parsed := ResumeParser.ParseResume(files, savedAs, model);
      if parsed.Failure? {
        files := files - {savedAs};
        return Failure(ParseFailed(parsed.error));
      }
      d := AdmitParsed(parsed.value, savedAs);
    }

    /** Admission of a parsed resume saved under `savedAs`: insert the row, or remove the file. */
    method AdmitParsed(parsed: map<string, Json>, savedAs: string) returns (d: Result<Candidate, UploadError>)
      requires Valid()
      modifies this`candidates, this`files, this`nextId
      ensures Valid()
      ensures d == Admit(old(candidates), parsed, savedAs, old(nextId))
      ensures d.Success? ==> candidates == old(candidates) + [d.value] && nextId == old(nextId) + 1 && files == old(files)
      ensures d.Failure? ==> candidates == old(candidates) && nextId == old(nextId) && files == old(files) - {savedAs}
    {
      d := Admit(candidates, parsed, savedAs, nextId);
      if d.Failure? {
        files := files - {savedAs};
        return;
      }
      AppendKeepsContactsUnique(candidates, d.value);
      candidates := candidates + [d.value];
      nextId := nextId + 1;
    }

    /**
     * `request_documents`: an unknown id is a 500, a refused candidate a 400;
     * otherwise the agent runs once and one request with status "sent" is
     * appended, earlier requests untouched.
     */
    method RequestDocuments(id: nat, generate: Agent.Prompt -> string) returns (status: Status)
      modifies this`requests
      ensures var c := Find(candidates, id);
        && (c.None? ==> status == ServerError500)
        && (c.Some? && !RequestAllowed(c.value) ==> status == BadRequest400)
        && (status == Created201 <==> c.Some? && RequestAllowed(c.value))
        && (status == Created201 ==> requests == old(requests) + [RequestFor(c.value, generate)])
        && (status != Created201 ==> requests == old(requests))
    {
      var found := Find(candidates, id);
      if found.None? {
        return ServerError500;
      }
      var c := found.value;
      if !Agent.Truthy(c.name) && !Agent.Truthy(c.email) && !Agent.Truthy(c.phone) {
        return BadRequest400;
      }
      if c.status == Failed {
        return BadRequest400;
      }
      if !Agent.Truthy(c.email) && !Agent.Truthy(c.phone) {
        return BadRequest400;
      }
      var message, requestType, log;
      ghost var calls;
      AgentInputFields(c);
      message, requestType, log, calls := Agent.RequestDocuments(AgentInput(c), generate);
      requests := requests + [DocumentRequest(c.id, message, requestType, "sent")];
      return Created201;
    }

    /** One accepted part: the old file of this type goes, the new file is saved, the staged record replaced. */
    method Stage(staged: map<(nat, DocType), Document>, key: (nat, DocType), u: Upload, path: string)
      returns (next: map<(nat, DocType), Document>)
      modifies this`files
      ensures State(next, files) == Replace(State(staged, old(files)), key, u, path)
    {
      if key in staged {
        files := files - {staged[key].path};
      }
      files := files[path := u.content];
      next := staged[key := Document(path)];
    }

    /** `submit_documents` as written: records are committed only on 201, files change as each part is handled. */
    method SubmitDocuments(id: nat, pan: Option<Upload>, aadhaar: Option<Upload>, panPath: string, aadhaarPath: string)
      returns (status: Status)
      modifies this`documents, this`files
      ensures var o := SubmitAsWritten(candidates, old(State(documents, files)), id, pan, aadhaar, panPath, aadhaarPath, maxContentLength);
        status == o.status && State(documents, files) == o.state
    {
      if Find(candidates, id).None? {
        return ServerError500;
      }
      if pan.None? && aadhaar.None? {
        return BadRequest400;
      }
      var staged := documents;
      var uploaded: seq<DocType> := [];
      if pan.Some? && pan.value.filename != "" {
        if Rejected(pan.value, maxContentLength) {
          return BadRequest400;
        }
        staged := Stage(staged, (id, Pan), pan.value, panPath);
        uploaded := uploaded + [Pan];
      }
      if aadhaar.Some? && aadhaar.value.filename != "" {
        if Rejected(aadhaar.value, maxContentLength) {
          return BadRequest400;
        }
        staged := Stage(staged, (id, Aadhaar), aadhaar.value, aadhaarPath);
        uploaded := uploaded + [Aadhaar];
      }
      if uploaded == [] {
        return BadRequest400;
      }
      documents := staged;
      return Created201;
    }

    /** `submit_documents` with both parts validated first: a refusal changes neither records nor files. */
    method SubmitDocumentsAtomic(id: nat, pan: Option<Upload>, aadhaar: Option<Upload>, panPath: string, aadhaarPath: string)
      returns (status: Status)
      modifies this`documents, this`files
      ensures var o := SubmitAtomic(candidates, old(State(documents, files)), id, pan, aadhaar, panPath, aadhaarPath, maxContentLength);
        status == o.status && State(documents, files) == o.state
      ensures status != Created201 ==> documents == old(documents) && files == old(files)
    {
      if Find(candidates, id).None? {
        return ServerError500;
      }
      if pan.None? && aadhaar.None? {
        return BadRequest400;
      }
      var panActive := pan.Some? && pan.value.filename != "";
      var aadhaarActive := aadhaar.Some? && aadhaar.value.filename != "";
      if panActive && Rejected(pan.value, maxContentLength) {
        return BadRequest400;
      }
      if aadhaarActive && Rejected(aadhaar.value, maxContentLength) {
        return BadRequest400;
      }
      if !panActive && !aadhaarActive {
        return BadRequest400;
      }
      var staged := documents;
      if panActive {
        staged := Stage(staged, (id, Pan), pan.value, panPath);
      }
      if aadhaarActive {
        staged := Stage(staged, (id, Aadhaar), aadhaar.value, aadhaarPath);
      }
      documents := staged;
      return Created201;
    }
  }
}
