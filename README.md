# Legal Q&A backend: ledger, store client, identity and RAG post-processing

A Dafny model of the rule-bearing core of a legal question-and-answer
backend. Users post questions; a retrieval-augmented pipeline drafts an AI
answer; verified lawyers post paid answers; admins register reference
documents and set lawyers' verification status.

What is modelled:

- **The lawyer-profile ledger** (`ledger.dfy`, module `Ledger`): the
  `lawyer_profiles` table keyed by user id, the append-only `answers` table,
  and the three transitions that act on them. A verification submission
  upserts the caller's profile with status pending. An admin status update
  sets the status and, when asked, resets the balance. A paid answer checks,
  in order, that the profile exists, that it is approved and that the
  balance is at least 1000. It then writes `balance - 1000` and appends one
  answer. Lemmas over arbitrary runs of transitions show two things: no
  balance ever becomes negative, and, without resets, each lawyer's balance
  drops by exactly 1000 per answer they wrote and by nothing else.
- **The store client** (`supabase.dfy`, module `Supabase`): the response
  normaliser `HandleResponse`, the request bodies and record helpers, and a
  `Store` class. Its fields are the tables, held in memory. Its methods are
  the service calls. The methods that write profiles or answers are proved
  against the `Ledger` function that specifies them; the question and
  document methods state the rows they store and read back.
- **Identity and role resolution** (`security.py` → `security.dfy`): the
  401/403/500 decisions of `get_current_user`, the role taken from the
  top-level claim or from `app_metadata`, the closed role set, and the
  `require_role` gate. The JWT library is a function parameter that yields
  the claims or None.
- **RAG post-processing** (`rag.py` → `rag.dfy`): building `sources` from
  the retrieved chunks, with 200-character previews and in retrieval order.
  Ingestion tags chunk `i` with `chunk_index = i` and the common
  `document_id`, in place on an array, and returns the chunk count.
- **Schemas** (`schemas.dfy`): the field constraints and defaults of the
  lawyer, answer and document request and response models.
- **Routes** (`routes_questions.dfy`, `routes_lawyers.dfy`,
  `routes_admin.dfy`): the handlers. The gated ones take the outcome of
  `get_current_user` as `caller`, apply their role gate, and call the store.
  `create_question` takes the caller's user id instead (see "Left out").

Modelling choices:

- JSON values are the `Json` datatype. Python's `dict.get`, truthiness and
  `str()` are written out in `json.dfy`.
- A Python exception that is not an `HTTPException` is modelled as the
  framework's 500. Examples: a `.get` on a non-object `app_metadata`,
  membership of a list in a set, a body that claims JSON but does not parse,
  and a response-schema validation failure.
- Profiles are typed rows. `status` holds one of the three literals, since
  only those are ever written. `balance` is `Option<int>`, where None is SQL
  null.
- The table schema is not part of the source. So the balance a new profile
  row receives (the column default) is a parameter of the store,
  `balanceDefault`.
- Row ids assigned by the store are the decimal position of the row in its
  table, so distinct rows have distinct ids.

Behaviour of the code that the model keeps as written:

- Every store response status of 400 or more is an error; a 3xx response
  is read as data.
- `create_question` never stores or returns the AI answer. The method it
  would call to store it does not exist. So the question is created and
  read back whatever the AI step does.
- The fallback text is the handler's Korean message.
- The chain always returns its source documents, so the `[]` default of
  `result.get("source_documents", [])` is never used.

## Model

| member | source | states |
|---|---|---|
| `Ledger.AnswerGate` | backend/app/api/routes/questions.py:65-74 | success iff the profile exists, its status is exactly approved and its balance (null read as 0) is at least 1000; otherwise the error of the first failing check, in the order existence (403), approval (403), balance (402) |
| `Ledger.PayAnswer` | backend/app/api/routes/questions.py:65-78 | a failing gate changes nothing; on success the stored balance is exactly old − 1000 (never negative), and one answer carrying the path's question id, the caller and the content is appended |
| `Ledger.PayAnswerResult` | backend/app/api/routes/questions.py:65-79 | the handler returns the inserted answer iff the gate passes, else the gate's error; the answer is the one appended to the table |
| `Ledger.Upsert` | backend/app/services/supabase.py:58-61 | upsert on conflict of user_id: one row per user id, keyed by the caller's id; an existing row keeps its id and balance and takes the written columns; other rows untouched |
| `Ledger.SubmissionPayload` | backend/app/api/routes/lawyers.py:19-23 | the written columns are name and document URL copied from the request and status pending; no balance |
| `Ledger.Submit` | backend/app/api/routes/lawyers.py:19-24 | after a submission the caller's profile is pending whatever its previous status, name and URL are the request's, and the balance is the previous one (or the column default for a new row) |
| `Ledger.StatusPatch` | backend/app/services/supabase.py:70-72 | the patch sets the status, and contains a balance only when an override is given, equal to it |
| `Ledger.BalancePatch` | backend/app/services/supabase.py:85 | the deduction patch writes the given absolute balance and no status |
| `Ledger.Patched` | backend/app/services/supabase.py:73-77 | only the row whose user_id matches changes; no matching row leaves the tables unchanged |
| `Ledger.PatchResult` | backend/app/services/supabase.py:78-80 | the updated row when one matches, otherwise 404 "Lawyer profile not found" |
| `Ledger.SetStatus` | backend/app/api/routes/admin.py:31-35 | the status becomes exactly the requested one; the balance changes only when reset_balance is given and then equals it; nothing else in the row or the table changes; solvency is kept for valid updates |
| `Ledger.AppendAnswer` | backend/app/services/supabase.py:41-48 | inserting an answer appends exactly one row and leaves profiles unchanged |
| `Ledger.StepKeepsSolvent` | backend/app/api/routes/questions.py:72-77 | one valid transition never makes a stored balance negative |
| `Ledger.RunKeepsSolvent` | backend/app/api/routes/questions.py:72-78 | any sequence of submissions, valid status updates and paid answers, run one after another, keeps every balance non-negative |
| `Ledger.RunAppendsAnswers` | backend/app/services/supabase.py:41-48 | runs only ever append to the answer table |
| `Ledger.StepPaysExactly` | backend/app/api/routes/questions.py:72-78 | per transition without reset: a lawyer's balance plus 1000 per answer it appended for them is unchanged |
| `Ledger.RunPaysExactly` | backend/app/api/routes/questions.py:72-78 | over any run without balance resets, each lawyer's balance drops by exactly 1000 per answer they wrote and by nothing else |
| `Ledger.ResubmissionKeepsOneRow` | backend/app/services/supabase.py:58-61 | submitting twice leaves one row for the user, identical to submitting once with the second request |
| `Supabase.HandleResponse` | backend/app/services/supabase.py:119-131 | status ≥ 400 is an error with that code (detail the JSON body or the text; 500 if a JSON body does not parse); 204 is `[]`; a list is returned unchanged; an object becomes a one-element list; anything else is 500 |
| `Supabase.WithUserId` | backend/app/services/supabase.py:24-25 | the body is the payload with user_id set to the caller's id, overriding any user_id in the payload; other keys kept |
| `Supabase.FirstOrNone` | backend/app/services/supabase.py:56 | None iff there are no rows, otherwise the first row |
| `Supabase.SetDefault` | backend/app/services/supabase.py:38 | the key is bound afterwards; an existing binding is kept, an absent one gets the default |
| `Supabase.SelectQuestion` | backend/app/services/supabase.py:35-39 | no rows is 404 "Question not found"; otherwise the first row, with answers defaulted to `[]` only when absent |
| `Supabase.AnswerRecord` | backend/app/services/supabase.py:42-46 | the stored answer row (question_id, lawyer_id, content, id) validates as an AnswerResponse with exactly those values and no created_at |
| `Supabase.AnswerIndices` | backend/app/services/supabase.py:32 | the increasing positions of exactly the answers whose question_id is the question's |
| `Supabase.AnswersOfSelects` | backend/app/services/supabase.py:32 | the embedded answers are exactly the records of the table's answers to that question, one per answer, in table order |
| `Supabase.QuestionIndices` | backend/app/services/supabase.py:31 | the increasing positions of exactly the questions whose id matches |
| `Supabase.FirstQuestionIndex` | backend/app/services/supabase.py:37 | the first of those positions is the first question in the table with that id |
| `Supabase.QuestionRowsSelect` | backend/app/services/supabase.py:30-34 | the rows read are exactly the stored questions whose id matches, one per question, in table order, each with its answers embedded |
| `Supabase.Store.constructor` | backend/app/services/supabase.py:13-14 | the store starts with empty tables |
| `Supabase.Store.GetLawyerProfile` | backend/app/services/supabase.py:50-56 | the caller's profile when one exists, None otherwise |
| `Supabase.Store.UpsertLawyerProfile` | backend/app/services/supabase.py:58-61 | the ledger afterwards is `Ledger.Upsert` of the old one; the returned row is the stored one |
| `Supabase.Store.PatchProfile` | backend/app/services/supabase.py:113-117 | the ledger afterwards is `Ledger.Patched` of the old one; the result is `Ledger.PatchResult` |
| `Supabase.Store.UpdateLawyerStatus` | backend/app/services/supabase.py:63-80 | patches status and the optional balance override; 404 when no profile matches |
| `Supabase.Store.DeductLawyerBalance` | backend/app/services/supabase.py:82-90 | writes the given balance; 404 when no profile matches |
| `Supabase.Store.CreateAnswer` | backend/app/services/supabase.py:41-48 | appends one answer row and returns it |
| `Supabase.Store.CreateQuestion` | backend/app/services/supabase.py:24-27 | appends the payload under the caller's user_id with a fresh id and returns that row; every stored question keeps the id it was assigned |
| `Supabase.Store.FetchQuestion` | backend/app/services/supabase.py:29-39 | found iff some question has the id; then the result is the first stored question with that id, with its answers embedded; otherwise 404 "Question not found" |
| `Supabase.Store.CreateDocument` | backend/app/services/supabase.py:92-94 | appends the payload as given, with a fresh id |
| `Security.RoleOf` | backend/app/core/security.py:52 | a role is accepted iff the claim is exactly "user", "lawyer" or "admin" |
| `Security.Decode` | backend/app/core/security.py:26-38 | a token the JWT library rejects is 401 "Invalid or expired access token"; otherwise its claims |
| `Security.RoleClaim` | backend/app/core/security.py:51 | the top-level role when truthy, else app_metadata's role (None when absent); a non-object app_metadata raises |
| `Security.ResolveRole` | backend/app/core/security.py:51-53 | success iff the chosen claim is one of the three role names; an absent or unknown role is 403 "Unsupported role", never defaulted to user |
| `Security.GetCurrentUser` | backend/app/core/security.py:41-59 | no credentials is 401 before decoding; a rejected token is 401; a role that does not resolve gives exactly `ResolveRole`'s error (403 "Unsupported role", or 500); otherwise success, with id = str(sub), email = the email claim or None, and that role |
| `Security.RequireRole` | backend/app/core/security.py:62-66 | returns the same user iff their role is allowed, else 403 "Insufficient role permissions"; authentication errors pass through |
| `Security.UserTokensNeverReachGatedEndpoints` | backend/app/core/security.py:45-66 | a token with no role claim is refused with 403 at authentication; a user-role identity is refused by the lawyer and admin gates |
| `Schemas.ParseStatus` | backend/app/schemas/lawyer.py:27 | accepted iff one of pending/approved/rejected, and the parsed status prints back as the same literal |
| `Schemas.ValidateVerificationRequest` | backend/app/schemas/lawyer.py:9-11 | valid iff both name and verification_document_url are given; the values are copied |
| `Schemas.ValidateStatusUpdate` | backend/app/schemas/lawyer.py:26-28 | valid iff the status is a literal and reset_balance is absent (None, meaning no change) or ≥ 0 |
| `Schemas.ProfileResponse` | backend/app/schemas/lawyer.py:14-20 | a profile row validates iff its balance is an integer (null fails), with the status restricted to the literals |
| `Schemas.ValidateAnswerCreate` | backend/app/schemas/answer.py:9-10 | content is required and must have at least 10 characters |
| `Schemas.AnswerResponseFrom` | backend/app/schemas/answer.py:13-18 | valid iff id, question_id, lawyer_id and content are present; created_at is optional and defaults to None |
| `Schemas.ValidateDocumentCreate` | backend/app/schemas/document.py:8-12 | file_name and storage_url required; version defaults to 1 and must be ≥ 1; is_active defaults to true |
| `Schemas.DocumentResponseFrom` | backend/app/schemas/document.py:15-17 | a row validates iff file_name, storage_url, id and uploaded_by are strings, version is absent or an integer ≥ 1 and is_active is absent or a boolean; the values are the row's, with version 1 and is_active true when absent |
| `Schemas.DocumentRoundTrip` | backend/app/schemas/document.py:8-17 | a stored DocumentCreate plus uploader and id validates back to every DocumentCreate field unchanged, plus id and uploaded_by |
| `Rag.Preview` | backend/app/services/rag.py:128 | the preview is a prefix of the text of length min(200, len(text)) |
| `Rag.SourceOf` | backend/app/services/rag.py:123-130 | document_id and chunk_index copied from the metadata (None if missing), the preview, and the full metadata |
| `Rag.TopK` | backend/app/services/rag.py:100-102 | the retriever asks for at most 5 chunks: a prefix of the store's ranking, of length min(5, n) |
| `Rag.BuildSources` | backend/app/services/rag.py:121-131 | one source per retrieved chunk, in retrieval order, each preview a prefix of its chunk |
| `Rag.AnswerQuestion` | backend/app/services/rag.py:100-137 | content is the model's text, model the configured chat model, and sources one per chunk of the top 5 of the ranking, in order, so never more than 5 |
| `Rag.Tagged` | backend/app/services/rag.py:163-165 | after tagging, chunk i has chunk_index = i and every chunk the same document_id; text and other metadata unchanged |
| `Rag.VectorStore.AddDocuments` | backend/app/services/rag.py:168 | the chunks are appended to the vector table in order |
| `Rag.IngestPdf` | backend/app/services/rag.py:139-170 | the chunk array is tagged in place, all chunks are stored, and the count returned is the number of chunks |
| `Rag.SourceOfTaggedChunk` | backend/app/services/rag.py:126-127 | a source built from the i-th ingested chunk of a document cites that document id and index i |
| `QuestionRoutes.FallbackAnswer` | backend/app/api/routes/questions.py:37-41 | the fallback AI answer has the placeholder text, empty sources and the error message |
| `QuestionRoutes.CreateQuestion` | backend/app/api/routes/questions.py:16-45 | whatever the AI step does, the question is inserted and the handler returns that same stored row: user_id is the caller's, the other payload fields are unchanged, with its answers |
| `QuestionRoutes.CreateAnswer` | backend/app/api/routes/questions.py:58-79 | non-lawyers are refused with no change; for a lawyer the ledger becomes `Ledger.PayAnswer` of the old one, the result is the gate's error or the new answer, and solvency is kept |
| `LawyerRoutes.SubmitVerification` | backend/app/api/routes/lawyers.py:13-25 | only lawyers are admitted; the caller's own profile becomes pending with the submitted name and URL, its balance untouched; the response reflects it |
| `AdminRoutes.CreateDocument` | backend/app/api/routes/admin.py:14-21 | only admins are admitted; the stored document carries every DocumentCreate field unchanged plus uploaded_by = the admin's id, and so does the response |
| `AdminRoutes.UpdateLawyerStatus` | backend/app/api/routes/admin.py:24-36 | only admins are admitted; the ledger becomes `Ledger.SetStatus`; an unknown user id is 404; for a known one the response succeeds iff the updated balance is non-null and then has the requested status and that balance (the reset one when given) |

## Left out

- HTTP transport of the store client (clients, headers, URL building, timeouts): I/O. The tables are in-memory fields of `Store`, and every store call in the handlers succeeds. Upstream errors are modelled only by `HandleResponse`.
- The JWT signature and expiry check: a foreign library, passed in as a function from (token, secret) to claims or None.
- The PDF loader, the text splitter, embeddings, the chat model, the prompt and the similarity search: foreign calls. Their outputs (chunks, the ranking, the model's text) are inputs. So chunk sizes and overlaps are not modelled.
- The lazily cached clients of the RAG service: resource plumbing.
- Concurrency. The balance check and the deduction are two separate store calls and can race. Only sequential execution is modelled.
- A failed answer insert after the deduction: the store always accepts the insert. The handler does not check that the question exists, and no foreign-key constraint is modelled.
- `create_question` depends on a user dependency and an AI-answer update method that the repository does not define. The caller's id is a parameter. The AI step (generation and storage) is one outcome whose failure is caught.
- `get_question` (a plain `fetch_question` call), the health endpoint, configuration loading and dependency wiring: these hold no logic beyond what is modelled.
- The question schemas: required fields and defaults only. The `answers` default is covered by `Supabase.SelectQuestion`.
- The web front-end pages: static UI. Their displayed thresholds are not enforced.
- Pydantic's type coercion of raw JSON and UUID format checks: validators take already-typed fields, and ids are plain strings.
- `created_at` and other store-assigned timestamps: clock.
- `Json.StrOf`: Python's `str()` of a list or dict (its repr) is not reproduced and yields "". It matters only for a `sub` claim that is a container.
- Floating-point JSON numbers: not part of the `Json` datatype.
- Chunks are values in an array. Aliasing between chunk objects is not modelled.
