# TraqCheck backend core in Dafny

TraqCheck takes a candidate's resume, extracts the candidate's details with a
language model, then asks the candidate for PAN and Aadhaar identity documents
and stores what they send back. This project models the three pieces of
decision logic in that flow and proves properties about them:

- `resume_parser.dfy` (module `ResumeParser`): text extraction from PDF
  and DOCX resumes, dispatch on the file extension, the length gate before
  the model call, validation of the model's JSON reply, and the repairs
  applied to an accepted reply. The PDF and DOCX extraction loops are
  methods. Each is proved equal to a specification function, and the
  properties are proved about those functions.
- `agent.dfy` (module `Agent`): the document-request workflow. An
  analysis node picks a channel (email or SMS), and exactly one generator
  node then runs before END. The state is a class that the nodes update
  in place. The generators substitute fallback texts for missing entries.
  The language model is a function parameter.
- `app.dfy` (module `App`): the upload, request and submit handlers, as
  methods of a `Store` class. The store keeps the candidate rows, the
  document records keyed by (candidate, type), the document requests and
  the files on disk apart from each other. Each handler is specified by a
  pure decision function, and the lemmas are proved about those functions.
- `strings.dfy` (module `Strings`) models the Python string operations the
  code relies on: `str.isspace`, `str.strip`, `str.lower`, `str.rfind` and
  POSIX `os.path.splitext`. `json_values.dfy` holds a JSON value type with
  Python truthiness. `wrappers.dfy` holds `Option` and `Result`.

Python exceptions are modelled as a result datatype. `Raised` has two cases:
`ValueError` and any other exception. The upload handler answers the first
with 400 and the second with 500.

Where the code and the system's design description disagree, the model
follows the code:

- The upload gate admits `.txt` names, but the extractor refuses them.
- The "no pages", "no paragraphs" and "no text" errors surface as generic
  exceptions (500), not as `ValueError` (400).
- An unknown candidate id is answered with 500, not 404: `get_or_404` is
  called inside `try/except Exception`.
- Document replacement is not atomic (see Findings).

## Model

| member | source | states |
|---|---|---|
| Strings.BlankConcat | backend/resume_parser.py:35 | a concatenation is blank exactly when both parts are |
| Strings.TrimStartSpec | backend/resume_parser.py:43 | `lstrip` removes a blank prefix and stops at a character that is not whitespace |
| Strings.TrimEndSpec | backend/resume_parser.py:43 | `rstrip` removes a blank suffix and stops at a character that is not whitespace |
| Strings.TrimEndOfBlank | backend/resume_parser.py:35 | `rstrip` of a blank text is empty |
| Strings.StripEmptyIffBlank | backend/resume_parser.py:35 | `strip()` yields the empty string exactly when every character is Python whitespace |
| Strings.StripEnds | backend/resume_parser.py:43 | the stripped text is no longer than the input, and it neither starts nor ends with whitespace |
| Strings.Lower | backend/resume_parser.py:79 | lower-casing keeps the length, leaves no capital letter, and keeps every character that is not a capital where it is |
| Strings.LowerOfNoCapitals | backend/resume_parser.py:79 | lower-casing leaves a text without capital letters unchanged |
| Strings.LowerIdempotent | backend/resume_parser.py:79 | lower-casing a lower-cased text changes nothing |
| Strings.LastIndex | backend/app.py:28 | the result is -1 or the position of `c`, and no `c` occurs after it |
| Strings.LastIndexAppend | backend/app.py:28 | the last `c` of a concatenation lies in the second part when that part holds a `c`, and is otherwise the last `c` of the first part |
| Strings.LastIndexUnique | backend/app.py:28 | a position holding `c` with no `c` after it is the last position of `c` |
| Strings.SplitExt | backend/resume_parser.py:78 | the extension is empty, or it starts with '.', is a suffix of the path and holds no further '.' or '/' |
| Strings.SplitExtFinds | backend/resume_parser.py:78 | when the last part of a path has a '.' after some other character, the extension is non-empty and runs from the last '.' to the end |
| Strings.SplitExtOfSuffix | backend/resume_parser.py:78 | a path made of a directory part (empty or ending in '/'), a stem without '/' that holds some character other than '.', and a '.'-led suffix without '.' or '/' has that suffix as its extension |
| ResumeParser.PdfExtraction | backend/resume_parser.py:18-43 | a failure is a `ValueError` exactly when the PDF cannot be read; a success is the stripped text of the pages |
| ResumeParser.PdfLinesBlank | backend/resume_parser.py:29-35 | the page text is blank exactly when every page's text is blank |
| ResumeParser.PdfExtractionSucceeds | backend/resume_parser.py:20-43 | extraction succeeds iff the PDF is readable and some page has non-blank text; the text is then non-empty and stripped |
| ResumeParser.ExtractTextFromPdf | backend/resume_parser.py:18-43 | the page loop computes exactly the PDF extraction result |
| ResumeParser.DocxExtraction | backend/resume_parser.py:45-75 | a failure is a `ValueError` exactly when the file is not a DOCX package; a success needs at least one paragraph |
| ResumeParser.DocxExtractionOrder | backend/resume_parser.py:47-68 | success iff there are paragraphs and some paragraph or table cell is non-blank; the text is the non-blank paragraphs, then the non-blank cells in table/row/cell order, each followed by a newline, then stripped |
| ResumeParser.ItemLineByStrip | backend/resume_parser.py:56-57 | a paragraph or cell contributes its text and a newline exactly when `strip()` leaves something |
| ResumeParser.DocxLinesAppend | backend/resume_parser.py:55-64 | the text of the paragraphs followed by the cells is the paragraph text followed by the cell text |
| ResumeParser.DocxLinesBlank | backend/resume_parser.py:55-67 | the text of a run of paragraphs or cells is blank exactly when each of them is blank |
| ResumeParser.TableTextIsCellLines | backend/resume_parser.py:61-64 | the row and cell loops of one table produce the same text as one pass over its cells |
| ResumeParser.TablesTextIsCellLines | backend/resume_parser.py:60-64 | the nested table/row/cell loops produce the same text as one pass over the flattened cells |
| ResumeParser.AppendRow | backend/resume_parser.py:62-64 | the cell loop appends exactly the lines of the row's non-blank cells |
| ResumeParser.AppendTable | backend/resume_parser.py:61-64 | the row loop appends exactly the lines of the table |
| ResumeParser.AppendTables | backend/resume_parser.py:60-64 | the table loop appends exactly the lines of all tables |
| ResumeParser.ExtractTextFromDocx | backend/resume_parser.py:45-75 | the paragraph and table loops compute exactly the DOCX extraction result |
| ResumeParser.ExtractText | backend/resume_parser.py:77-86 | a lower-cased `.pdf` extension goes to the PDF path and `.docx` to the DOCX path; every other extension fails with a `ValueError` naming that extension |
| ResumeParser.TxtIsUnsupported | backend/resume_parser.py:77-86 | a file saved as `<folder>/<stem>.txt` has the extension ".txt" and fails with a `ValueError` naming the unsupported format |
| ResumeParser.TxtNeverReachesModel | backend/resume_parser.py:181-191 | a non-empty file on disk at `<folder>/<stem>.txt` fails with that `ValueError` in `parse_resume`, before the model is called |
| ResumeParser.ValidateReply | backend/resume_parser.py:133-170 | an accepted reply is an object whose `data` is an object holding a list of skills and an identifying field; scores are always present, and no other key is added |
| ResumeParser.StructuralRejections | backend/resume_parser.py:133-143 | a reply that is not JSON, not an object, or has no `data` is rejected with a `ValueError` |
| ResumeParser.Identifying | backend/resume_parser.py:148-150 | an identifying value is truthy; a string is identifying exactly when it is not blank and its lower-case form is not "null" |
| ResumeParser.HasIdentity | backend/resume_parser.py:148-152 | a reply with an identity has a truthy name, email or phone |
| ResumeParser.IdentityRuleDecides | backend/resume_parser.py:147-153 | a structurally valid reply is accepted exactly when name, email or phone is truthy, non-blank and not "null"; otherwise a `ValueError` |
| ResumeParser.Repaired | backend/resume_parser.py:155-168 | the repaired reply has the original keys plus scores and `data`; present scores are kept; `data` gains a `skills` list and keeps every other entry; the other keys of the reply are kept |
| ResumeParser.RepairDefaults | backend/resume_parser.py:155-168 | missing scores become six fields at 0.5 and existing scores are kept; a list of skills is kept and anything else becomes `[]`; every other entry is unchanged |
| ResumeParser.TextForModel | backend/resume_parser.py:181-195 | a missing file and an empty file are `ValueError`s; an extraction error passes through unchanged; an extracted text shorter than 50 characters is a `ValueError` and a longer one is passed to the model unchanged |
| ResumeParser.ParseResume | backend/resume_parser.py:179-200 | a gate failure is the result unchanged; an accepted result is well shaped and came through the gate |
| ResumeParser.ParseAccepts | backend/resume_parser.py:193-200 | past the gate, a reply whose `data` is an object with an identity makes `parse_resume` return exactly that reply repaired |
| ResumeParser.PdfSavedPath | backend/resume_parser.py:77-84 | a file saved as `<folder>/<stem>.pdf` has the extension ".pdf" and is extracted as a PDF |
| ResumeParser.BlankPdfFails | backend/resume_parser.py:18-43 | a saved `.pdf` with no pages, or with only blank pages, fails in `parse_resume` with a plain exception, not a `ValueError`, before the model is called |
| ResumeParser.GateFailsWithoutModel | backend/resume_parser.py:181-198 | a missing file, an empty file or a short text is a `ValueError`, and the result is the same whatever the model would answer |
| Agent.Route | backend/agent.py:54-59 | SMS is chosen exactly when there is no email but there is a phone; email otherwise |
| Agent.Successor | backend/agent.py:36-46 | the analysis node has a successor exactly for the keys "email" and "sms", and it is a generator; each generator's only successor is END; no other node has one |
| Agent.EmailPromptFor | backend/agent.py:99-104 | a present name, email, company or designation is passed through; a missing name, email, company or designation becomes "Candidate", "", "your organization" or "the position" |
| Agent.SmsPromptFor | backend/agent.py:136-139 | a present name or phone is passed through; a missing name becomes "Candidate" and a missing phone "" |
| Agent.OneGeneratorPerRun | backend/agent.py:27-48 | for either routed key, a run visits the analysis node, the matching generator and END, so exactly one generator runs |
| Agent.AgentState.constructor | backend/agent.py:150-159 | the initial state holds the candidate entries, empty message and type, and an empty log |
| Agent.AgentState.AnalyzeCandidate | backend/agent.py:50-63 | appends "Analyzing candidate: <name>" to the log and sets the routed type; nothing else changes |
| Agent.AgentState.RouteRequestType | backend/agent.py:65-66 | once the analysis has stored the routed key, the edge it selects leads to the generator of the routed channel |
| Agent.AgentState.GenerateEmailRequest | backend/agent.py:68-111 | one model call with the email prompt; the output becomes the message and the email log line is appended |
| Agent.AgentState.GenerateSmsRequest | backend/agent.py:113-146 | one model call with the SMS prompt; the output becomes the message and the SMS log line is appended |
| Agent.RunWorkflow | backend/agent.py:161 | after a run, the type is the routed key and the message is the routed generator's output; the log gains exactly the analysis line then one generator line; exactly one model call is made |
| Agent.RequestDocuments | backend/agent.py:148-167 | missing keys read as ""; it returns the routed type, the model output for that channel's prompt, and a two-line log; exactly one model call is made |
| App.AllowedFileHasExtension | backend/app.py:26-28 | an allowed name has a '.' with no '.' after it whose lower-cased suffix is in the allowed set |
| App.ExtensionMakesAllowed | backend/app.py:26-28 | conversely, any '.' with no '.' after it whose lower-cased suffix is in the set makes the name allowed |
| App.AllowedByExtension | backend/app.py:26-28 | a stem followed by a '.'-led extension without a further '.' is allowed exactly when the lower-cased extension is in the set, whatever the stem |
| App.AllowedFile | backend/app.py:26-28 | a name without a '.' is never allowed |
| App.TxtNameAllowed | backend/app.py:49 | every name ending in ".txt" passes the resume extension check |
| App.Find | backend/app.py:176 | returns a row with the id if there is one, and nothing exactly when no row has it |
| App.FirstWith | backend/app.py:92 | returns the id of the earliest row holding the contact value, and nothing exactly when no row holds it |
| App.UploadStatus | backend/app.py:130-149 | 201 exactly on success; 409 exactly for a duplicate; 500 exactly for a non-`ValueError` failure; 400 otherwise |
| App.UploadGate | backend/app.py:39-61 | the upload passes iff there is a resume part with a non-empty name, an allowed extension and a size in (0, max]; every refusal is a 400 |
| App.GateOrder | backend/app.py:39-61 | each refusal is reached only after the earlier checks pass: part, name, extension, empty, too large |
| App.Admit | backend/app.py:74-128 | an admitted row has the new id, status completed and an identity, and clashes with no existing email or phone; its text columns are the `data` entries, its skills are `data['skills']` or `[]`, and its scores are the reply's or `{}`; a duplicate refusal names an existing row |
| App.AdmitNothingOnlyWithoutIdentity | backend/app.py:81-87 | admission refuses for lack of identity only when name, email and phone are all falsy |
| App.AdmitSucceeds | backend/app.py:74-128 | conversely, admission succeeds when name, email or phone is set, every text column is storable, and no existing row holds the email or the phone |
| App.AfterSave | backend/app.py:68-149 | after the save, a parse failure is passed on unchanged; a success needs a successful parse of the saved file and adds the row built from the parsed reply, with the new id and status completed, that clashes with no existing row |
| App.UploadDecision | backend/app.py:37-149 | a successful upload has an allowed, non-empty, in-bounds file that parsed successfully, and adds the row built from the parsed reply, with the new id and status completed, that clashes with no existing row |
| App.RejectedBeforeSave | backend/app.py:39-68 | a gate refusal is answered 400 whatever the store, the disk and the model |
| App.ParseFailureStatus | backend/app.py:70-149 | an upload that passes the gate but fails to parse is answered 400 for a `ValueError` and 500 for any other exception |
| App.UploadSucceeds | backend/app.py:63-128 | an upload that passes the gate and parses, with storable columns and an email and phone nobody holds, is answered 201 with the row admission builds |
| App.IdentityGateNeverFires | backend/app.py:74-87 | after a successful parse, `data` is an object in which name, email or phone is truthy, so the handler's own identity check cannot fire |
| App.NothingExtractedUnreachable | backend/app.py:81-87 | no upload is ever refused by the handler's identity check |
| App.IdentityRuleStrictlyStronger | backend/resume_parser.py:148-150 | a name of "null" or of blanks is truthy for the handler's check but not identifying for the parser |
| App.EmailCheckedFirst | backend/app.py:90-100 | a taken email gives a 409 naming the earliest holder, whatever the phone |
| App.PhoneCheckedOnlyWithoutEmailMatch | backend/app.py:102-111 | a phone conflict is reported only when the email is absent or held by nobody, and the id it names belongs to a row holding that phone |
| App.PhoneDuplicateReported | backend/app.py:102-111 | conversely, a phone held by an existing row, with no email or an email nobody holds, is refused with the earliest holder's id |
| App.TxtUploadRefusedByParser | backend/app.py:49-72 | a non-empty, in-bounds `.txt` upload saved as `<folder>/<stem>.txt` passes the gate and then fails with the parser's `ValueError`, which `UploadStatus` answers with 400 |
| App.BlankPdfUploadIs500 | backend/app.py:49-149 | a non-empty, in-bounds `.pdf` upload with no pages or only blank pages passes the gate, and the parser's plain exception is answered with 500 |
| App.AppendKeepsContactsUnique | backend/app.py:89-128 | a row that clashes with no existing row keeps emails and phones unshared |
| App.Store.constructor | backend/app.py:13-24 | a new store is empty and valid |
| App.Store.UploadResume | backend/app.py:34-152 | the store ends as the upload decision says: a success adds exactly one row and keeps the saved file; every failure after the save removes the saved file and adds no row; gate refusals touch nothing; ids stay distinct and contacts unshared |
| App.Store.SaveAndAdmit | backend/app.py:63-149 | the save, parse and admission steps give the after-save decision; a success adds that row and keeps the file, a failure adds nothing and removes the file |
| App.Store.AdmitParsed | backend/app.py:74-128 | admission of a parsed reply inserts exactly the admitted row with the next id, or removes the saved file and changes nothing else; ids stay distinct and contacts unshared |
| App.RequestAllowed | backend/app.py:179-194 | a request is allowed exactly when the extraction did not fail and there is an email or a phone; the identity guard adds nothing |
| App.AgentInputFields | backend/app.py:196-202 | the agent reads the candidate's own email, phone, company and designation, and the name or "Candidate" |
| App.RequestFor | backend/app.py:196-211 | the appended request belongs to the candidate, has status "sent", and has type "email" if there is an email, else "sms" if there is a phone |
| App.FallbackUnreachable | backend/app.py:190-204 | once the guards pass, the agent's no-contact fallback cannot be taken; the name passed is the candidate's, or "Candidate" |
| App.Store.RequestDocuments | backend/app.py:172-222 | an unknown id gives 500 and a refused candidate 400; success, exactly when the guards pass, appends one "sent" request with the agent's output and leaves earlier requests untouched |
| App.Replace | backend/app.py:254-279 | the new record replaces any record of the type; the new file is saved, the old record's file is gone, other files are kept, and no other file appears |
| App.Store.Stage | backend/app.py:260-279 | staging one part changes the staged records and the disk exactly as a replacement does |
| App.SubmitAsWritten | backend/app.py:224-340 | 201 needs a known candidate and an accepted part, and its state is each named part applied in turn, PAN first; every other answer leaves the records as they were, and it leaves the disk as it was too unless the Aadhaar part was refused |
| App.Store.SubmitDocuments | backend/app.py:224-340 | the records and the disk end as the as-written submission says |
| App.SubmitAtomic | backend/app.py:224-340 | every answer other than 201 leaves records and disk as they were; 201 applies each named part in turn, PAN first |
| App.AcceptedPartsRecorded | backend/app.py:237-335 | on 201 each named part is recorded under its own path and its file holds the uploaded content, unless a later replacement removed it; every other record is unchanged |
| App.Store.SubmitDocumentsAtomic | backend/app.py:224-340 | the records and the disk end as the corrected submission says; a refusal changes nothing |
| App.ReplaceKeepsConsistent | backend/app.py:260-279 | replacing a record with a freshly named file keeps every record's file on disk and no file shared |
| App.AtomicSubmitAgrees | backend/app.py:224-340 | the corrected submission gives the same status as the original, and on 201 the same records and disk |
| App.AtomicSubmitKeepsConsistent | backend/app.py:224-340 | with fresh file names, the corrected submission keeps every record's file on disk |
| App.PartialSubmitLosesOldFile | backend/app.py:260-298 | as written, from a consistent state, an accepted new PAN with a refused Aadhaar part gives 400 with the records unchanged, yet the recorded PAN file is gone, the new one stays on disk, and records and disk disagree |
| App.PartialSubmitExample | backend/app.py:260-298 | a concrete request meets those conditions: a PAN recorded at `old.pdf`, a new `pan.pdf`, and an Aadhaar part named `scan`; it is answered 400, `old.pdf` is gone from disk, and records and disk disagree |

## Left out

- HTTP plumbing is not modelled: Flask routing, `jsonify`, CORS and response bodies. The handlers return only their status.
- `secure_filename` and the timestamped names are not modelled. The saved paths are parameters chosen by the caller.
- SQLAlchemy is not modelled: sessions, unique constraints and cascades. The store is plain collections. A refused submission stands in for a session that is never committed.
- The race between the duplicate check and the insert is not modelled, because it is a concurrency issue.
- Outages of the file system or the database are not modelled. The server-error catch-alls that wrap each handler are reached only through the failures the model names.
- PDF and DOCX parsing libraries are not modelled. A file is the view each library would give: a size, pages or an unreadable flag, and paragraphs and tables or a missing-package flag.
- The language-model calls and the prompt texts are not modelled. The models are function parameters.
- Failures of the generation call inside the agent are not modelled.
- Agent.AgentState.AnalyzeCandidate: the log is modelled as a plain append. LangGraph's `operator.add` merge of the returned `messages` into the channel is library behaviour.
- Strings.Lower: lower-cases ASCII letters only, not the full Unicode case mapping of Python's `str.lower`.
- App.Admit: a truthy email or phone that is not a string, and any non-string, non-null value for a text column, is treated as a store failure (500). The real driver also stores numbers and booleans.
- App.AdmitSucceeds: the converse of admission asks for storable text columns, because non-string values are modelled as a store failure.
- ResumeParser.Identifying: a truthy non-string value counts as identifying. Its `str()` rendering is never blank and never "null".
- Confidence scores are opaque JSON values, and no arithmetic is done on them.
- The DOCX extraction loops are split into one method per nesting level (tables, rows, cells). The source nests them in one function.
- The upload handler is split into three methods: the gate, the save and parse, and the admission. The source is one function.
- The other routes are not part of this model: health, listing, fetching and deleting candidates, and serving documents.
- `backend/db_manager.py`, the configuration loaders, database initialisation and the frontend are not part of this model. `MAX_CONTENT_LENGTH` becomes the store's constant `maxContentLength`. The allowed-extension sets are constants matching `backend/config.py`.
- App.UploadGate: the `TooLarge` refusal (400) is the handler's own size check as written (backend/app.py:60-61). The web framework's request-size limit is not modelled. Flask enforces `MAX_CONTENT_LENGTH` itself (backend/config.py:25) and raises `RequestEntityTooLarge` when `request.files` is first read (backend/app.py:39). That happens inside the handler's `try`, so the catch-all at backend/app.py:151-152 answers it with 500. A multipart body is always longer than the file it carries, so on a request with a `Content-Length` header an oversized resume gets that 500, and this 400 branch is not reached.
- App.Rejected: likewise, the oversize clause is the submit handler's own check (backend/app.py:251-252 and 297-298). Flask's limit is not modelled. It would refuse such a request when `request.files` is read at backend/app.py:230, and the catch-all at backend/app.py:338-340 would answer 500.

## Findings

| source | as written | input that shows it | evidently intended | confidence | as-written member | corrected member |
|---|---|---|---|---|---|---|
| backend/app.py:260-298 | the old PAN file is deleted and the new PAN saved before the Aadhaar part is validated; a refused Aadhaar part then returns 400 without commit | a candidate with a PAN recorded at `old.pdf`, a new PAN `pan.pdf`, and an Aadhaar part named `scan` | a refused submission leaves the records and the disk as they were, so every record's file stays on disk | high, not executed | App.PartialSubmitLosesOldFile, App.PartialSubmitExample | App.Store.SubmitDocumentsAtomic |
