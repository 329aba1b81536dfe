# newservice core rules, modelled in Dafny

newservice is a Django backend for a career office. Students submit
CVs. The career office approves or rejects them. Students then get an
e-mail about the decision, and companies view the CVs through
time-limited signed URLs. This project models the small business rules
at the centre of the service and proves their contracts:

- `Models`: the CV status constants and labels, and the review state
  machine. `Curriculo.Approve` and `Curriculo.Reject` change the CV and
  put one status-notification job into an outbox, as the source intends
  (see "## Left out" for what the code as written does). The module also covers
  the `Notification` record: its defaults, its newest-first ordering and
  its string form.
- `Tasks`: `send_cv_status_notification`, meant to run as a background
  task. It
  validates its parameters and looks up the CV. It then ends in one of
  four outcomes (e-mail lookup failed, rendering failed, sending failed,
  delivered), and each outcome appends exactly one notification row and
  returns a specific result.
- `Serializers`: the CV submission checks and the default status that
  `create` writes.
- `SupabaseAuth`: how the result of a role query or of an auth-user
  lookup becomes a role, an e-mail address, the DEBUG fallback address
  or an error.
- `Middleware`: the gate that admits, rejects with 401, or tags each
  request with the caller's id and role.
- `Apps`: the start-up check of the SMTP settings.
- `CvService`: signed-URL generation with its access audit log, and the
  500 / 503 / 200 answer.
- `Filters`: the student search filters, as functions over a sequence of
  student rows.
- `ClientSingleton`: the guarded client factory and the lazily created
  global client.
- `Wrappers`, `Text` and `Seqs` are helpers: Option/Result values, ASCII
  lower-casing, substring search, joining, and a generic order-keeping
  filter with its subsequence lemmas.

The outside collaborators become parameters:

- the hosted database and auth service;
- template rendering, tag stripping and mail sending;
- blob storage;
- the clock.

In the repository, `approve` and `reject` are indented under the
`CVAccessLog` class (service/models.py:133-190). Yet they use the status
constants of `Curriculo` and stamp a CV's fields. The model makes them
methods of `Curriculo`, and a comment in `Models.dfy` notes the
placement.

## Model

| member | source | states |
|---|---|---|
| Models.StatusLabelsMatchConstants | newservice/service/models.py:13-17 | The label map has exactly the keys PENDENTE=0, APROVADO=1 and REJEITADO=2. They map to "pendente", "aprovado" and "rejeitado" (constants at models.py:119-121). |
| Models.TaskQueue.Enqueue | newservice/service/models.py:158-162 | Enqueueing appends exactly that job to the outbox and changes nothing else in it. |
| Models.Curriculo.Approve | newservice/service/models.py:144-162 | For any feedback, including empty, the status becomes 1 and the validated date becomes the given day. Exactly one job (this CV's id, status 1, the feedback unchanged) is appended to the queue. The job is one the task accepts, and the status stays a labelled one. |
| Models.Curriculo.Reject | newservice/service/models.py:164-190 | It fails exactly when the feedback is empty, with the ValueError message. On failure the status, the date and the queue are unchanged. Otherwise the status becomes 2, the date is stamped, and exactly one job (id, 2, feedback) is appended. |
| Models.NewNotification | newservice/service/models.py:351-394 | A created row has `read` false. Its error message is "" when none is given, otherwise the one given. Every other field is as passed. |
| Models.NotificationTable.Create | newservice/service/models.py:325-394 | The new row is the defaulted record, and the table grows by exactly that row at the end. |
| Models.InsertByCreatedAt | newservice/service/models.py:397-399 | Inserting into a newest-first sequence keeps it newest first. It adds exactly the new row (as a multiset) and grows the length by one. |
| Models.OrderNewestFirst | newservice/service/models.py:397-399 | The result is newest first by creation time and is a permutation of its input. |
| Models.OrderNewestFirstKeepsOrderedRows | newservice/service/models.py:399 | Rows that are already newest first come back unchanged (the model's insertion keeps rows with equal timestamps in place). |
| Models.OrderNewestFirstIdempotent | newservice/service/models.py:399 | Ordering twice gives the same sequence as ordering once. |
| Models.Describe | newservice/service/models.py:401-402 | The string starts with "Notification(type, status" and ends with ") -> email". Its length is 20 plus the lengths of the three fields. |
| Tasks.LabelOrCode | newservice/service/tasks.py:30-33 | A mapped status gives its label ("Aprovado" or "Rejeitado"). Any other status gives its decimal text. |
| Tasks.SubjectOrDefault | newservice/service/tasks.py:165-168 | A mapped status gives its subject. Any other status gives "Notificação de CV". |
| Tasks.ValidateParams | newservice/service/tasks.py:106-114 | It passes iff the status is 1 or 2 and a status 2 has feedback. Any status other than 1 or 2 is reported as invalid, ahead of the feedback check. Status 2 with empty feedback gives the feedback error. Status 1 accepts empty feedback. |
| Tasks.ValidatedStatusIsMapped | newservice/service/tasks.py:106-114 | After validation the status is a key of the label, template and subject maps, so no `.get` default can be used. |
| Tasks.ReviewJobsAreAccepted | newservice/service/tasks.py:106-114 | A job is one that approve or reject can enqueue iff the task's validation passes for it. |
| Tasks.StudentName | newservice/service/tasks.py:130 | The name is never empty. It is the stored name when that is non-empty, otherwise "Estudante". |
| Tasks.RenderEmail | newservice/service/tasks.py:54-74 | A status without a template fails with the key error's text. It succeeds iff the mapped template renders. The HTML part is the rendered text, and the plain part is that text with its tags stripped. |
| Tasks.TemplatesFollowStatus | newservice/service/tasks.py:65-70 | Status 1 uses cv_aprovado.html, status 2 uses cv_rejeitado.html, and no other status has a template. |
| Tasks.DeliveryOf | newservice/service/tasks.py:140-259 | It classifies a validated run. The lookup fails iff the address lookup fails, and it carries the lookup's error. Rendering fails iff the lookup succeeds and rendering does not, and it carries the render error. It is delivered iff the lookup and rendering succeed and `send_mail` accepts the subject-map subject, the plain part, the sender, [email] and the HTML part. A failed send carries the error `send_mail` raised. |
| Tasks.ErrorMessagesNameTheInput | newservice/service/tasks.py:106-125 | The invalid-status ValueError contains the status it rejected. The not-found ValueError contains the CV id. |
| Tasks.SendCvStatusNotification | newservice/service/tasks.py:77-259 | Validation errors and an unknown CV id are raised with no row written. Otherwise exactly one row is appended: type "cv_status_change", the CV id, the student's UUID, unread. Its fields and the result follow the outcome. A failed lookup gives a "failed" row with an empty address, subject "CV "+label, and email None. A failed render gives a "failed" row with the address and the default-aware subject. A failed send gives a "failed" row with the raw error text. Delivery gives a "sent" row, a result with success true, the label and "Email enviado com sucesso.". |
| Serializers.Validate | newservice/service/serializers.py:21-27 | It passes iff a student is given and their consent flag is true, and then returns the attrs unchanged. A missing student gives the "not identified" error, and a falsy or null consent gives the consent error. |
| Serializers.ValidateFile | newservice/service/serializers.py:29-34 | It passes iff the lower-cased path ends in ".pdf" and is at most 255 characters long, and then returns the path unchanged. The suffix error takes precedence over the length error. |
| Serializers.UpperCaseSuffixAccepted | newservice/service/serializers.py:30 | "CV.PDF" is accepted: the suffix test ignores case. |
| Serializers.ValidateSubmission | newservice/service/serializers.py:21-34 | The serializer's two custom validators, in the order the framework runs them. The submission passes them iff the path rules and the student rules all hold. A path error is reported in place of any student error. Once the path passes, the result is exactly `validate`'s. |
| Serializers.Create | newservice/service/serializers.py:35-38 | Afterwards the data has a status. A supplied status is kept and everything else is untouched. A missing one is set to 0. The method returns the dictionary that is handed to the model's `create`, not the saved instance. |
| SupabaseAuth.GetUserRole | newservice/service/supabase_client.py:74-108 | It returns a role iff the query returned a row whose `tipo` is in {0,1,2}, and the role is that value. A row with None or any other value gives InvalidUserRole. No row, or a Postgrest API error, gives UserNotFound. A request or timeout error gives ConnectionFailure with its text. Any other exception propagates. |
| SupabaseAuth.RoleErrorMessagesNameTheCause | newservice/service/supabase_client.py:92-108 | The UserNotFoundError text contains the user id, and the ConnectionError text contains the network error's text. |
| SupabaseAuth.EmailOf | newservice/service/supabase_client.py:48-49 | An address is returned exactly when the response, its user and that user's e-mail are all present and non-empty. |
| SupabaseAuth.FallbackEmail | newservice/service/supabase_client.py:53-57 | It is DEBUG_FALLBACK_EMAIL when that is set. Otherwise it is "estudante+" followed by the first 8 characters of the UUID and then "@teste.local". |
| SupabaseAuth.GetUserEmail | newservice/service/supabase_client.py:22-71 | With configuration and a call that returns, the result is the user's address or the fall-through None. The result is None exactly in that case. Missing configuration or a raised call gives the fallback address under DEBUG. Without DEBUG it gives the ValueError naming the UUID and the reason. No error is raised under DEBUG. |
| Middleware.Decide | newservice/service/middleware.py:12-28 | It passes through iff the path is exactly an excluded path. It rejects iff the path is not excluded and X-User-ID is missing or empty. Otherwise it attaches that id, with X-User-Role as the role or "user" when the role header is absent. |
| Middleware.ExclusionIsExactMatch | newservice/service/middleware.py:3-5 | "/service/" is let through, while "/service/teste/" without headers is rejected: exclusion is not a prefix match. |
| Middleware.UserHeaderMiddleware.Call | newservice/service/middleware.py:12-28 | An excluded path reaches the handler once with the request's attributes untouched. A rejected request gets the 401 body and the handler is not called. Otherwise `user_id` and `role` are set before the handler is called exactly once, and the handler's answer is returned. |
| Apps.MissingVars | newservice/service/apps.py:38-40 | A required variable is listed iff its setting is absent or falsy. Every listed name is required and unset, in declared order (a subsequence of the required list). |
| Apps.ValidateEmailSettings | newservice/service/apps.py:25-54 | A backend whose lower-cased name lacks "smtp" is skipped. It raises iff the backend is SMTP, something is missing and DEBUG is off, with the message listing the missing names. Under DEBUG it only warns, and it completes when nothing is missing. |
| Apps.IncompleteMessageNamesMissing | newservice/service/apps.py:49-54 | The RuntimeError message contains every missing variable's name. |
| CvService.StatusLabel | newservice/service/services/cv_service.py:83 | A known status gives its label from the CV label map. An unset or unknown one gives "desconhecido". |
| CvService.SignedUrlResponse | newservice/service/services/cv_service.py:62-89 | No file path gives a 500 with its detail. No URL, or an empty one, gives a 503. It gives a 200 iff both are present, with the id, URL, status, label, validated date and 900 s expiry. |
| CvService.CVService.LogCvAccess | newservice/service/services/cv_service.py:91-109 | One audit row (CV id, user id, role) is appended when the table accepts the insert. A failing insert is swallowed and leaves the table as it was. |
| CvService.CVService.GetSignedUrlForCurriculo | newservice/service/services/cv_service.py:21-48 | A CV without a file gives None, with no storage call and no audit row. Otherwise storage is asked once for bucket "cvs", the path and 900 seconds. A storage failure gives None and no audit row. A success returns the URL, after logging the access. |
| CvService.CVService.GenerateSignedUrlResponse | newservice/service/services/cv_service.py:50-89 | Without a file path it answers 500 and touches neither storage nor the log. Otherwise it asks storage once, answers the response for the URL obtained, and logs the access only when a URL was obtained. |
| Filters.FilterGrau | newservice/service/filters.py:10-14 | An empty value keeps everything. Otherwise a row is kept iff its `grau` equals the value ignoring case. The result is an order-keeping subsequence of the input. |
| Filters.FilterGrauIn | newservice/service/filters.py:17-21 | An empty list keeps everything. Otherwise a row is kept iff its `grau` equals one of the values ignoring case. The result is a subsequence of the input. |
| Filters.FilterAnoMin | newservice/service/filters.py:24-28 | No value keeps everything. Otherwise a row is kept iff it has an `ano` of at least the value. The result is a subsequence of the input. |
| Filters.FilterAnoMax | newservice/service/filters.py:30-34 | No value keeps everything. Otherwise a row is kept iff it has an `ano` of at most the value. The result is a subsequence of the input. |
| Filters.FilterDisponibilidade | newservice/service/filters.py:65-86 | An empty value keeps everything. A value whose lower-case form is a valid choice keeps exactly the rows storing that lower-case form. Any other value keeps the rows equal to it ignoring case. Every kept row matches the value ignoring case, and the result is a subsequence of the input. |
| Filters.ValidChoiceIsMatchedExactly | newservice/service/filters.py:77-83 | With "estagio" a valid choice, "ESTAGIO" finds a row storing "estagio" but not one storing "Estagio". |
| Filters.FilterDisponibilidadeIn | newservice/service/filters.py:43-47 | An empty list keeps everything. Otherwise a row is kept iff its `disponibilidade` equals one of the values ignoring case. The result is a subsequence of the input. |
| Filters.FilterByAreaId | newservice/service/filters.py:88-96 | No id, or id 0, keeps everything. Otherwise a student is kept iff some link ties them to that area. The result is a subsequence of the input. |
| Filters.FilterByAreaName | newservice/service/filters.py:98-107 | An empty name keeps everything. Otherwise a student is kept iff they are linked to an area whose name contains the value ignoring case. The result is a subsequence of the input. |
| Filters.AreaFiltersAreDistinct | newservice/service/filters.py:92-106 | On a student list without duplicates, both area filters return each student at most once, however many matching links they have (`.distinct()`). |
| ClientSingleton.GetSupabaseClient | newservice/newservice/supabase_client.py:9-27 | It fails iff the URL or the key is missing or empty, with the configuration message. Otherwise it gives the client made from exactly that URL and key. |
| ClientSingleton.ClientModule.GetOrCreate | newservice/newservice/supabase_client.py:33-43 | A stored client is returned as is, with no new creation. With no client stored, the result is the factory's. A success stores the new client and counts one creation. A failure leaves the global None. |
| ClientSingleton.ClientModule.GetOrCreateTwice | newservice/newservice/supabase_client.py:33-43 | Two calls in a row return the same handle once the first succeeds, and create at most one client. |

Some helpers carry the source's exception, message and context texts and have no row of their own:
- `Tasks.ErrorMessage`;
- `SupabaseAuth.RoleErrorMessage` and `SupabaseAuth.NotFoundMessage`;
- `Apps.IncompleteMessage`;
- `Tasks.ContextFor`.

They are reached through the contracts of the rowed members above and of the lemmas `Tasks.ErrorMessagesNameTheInput`, `SupabaseAuth.RoleErrorMessagesNameTheCause` and `Apps.IncompleteMessageNamesMissing`.

## Left out

- Persistence is not modelled. Tables are sequences (or a map from CV id to owner) held by small classes. The Django ORM, the `managed=False` schema declarations and the DRF `Response` and serializer machinery are not part of this model.
- External calls are not modelled, only their outcomes. The database, the auth admin API, the blob storage SDK, `render_to_string`, `strip_tags` and `send_mail` are I/O. Each outcome is a parameter: a function or a value.
- The clock is a parameter. `date.today()` becomes a `Date` parameter, and `datetime.now()` becomes the year and creation time in `TaskSettings`.
- `.enqueue` is modelled as an append to an outbox (`Models.TaskQueue`). The scheduling and running of background jobs is not modelled.
- Logging is not modelled. Every `logger` call is I/O with no effect on results.
- `Tasks.SendCvStatusNotification`: the address lookup is a `Result<string, string>` parameter. So the fall-through `None` that `get_user_email` can return (modelled by `SupabaseAuth.GetUserEmail` as `Success(None)`) is not fed into the task, and what the task would do with a `None` address is not modelled.
- `Text.Lower` lower-cases ASCII letters only. Python's `str.lower` also folds non-ASCII letters, so the case-insensitive comparisons in `Serializers`, `Apps` and `Filters` are modelled for ASCII text.
- `Middleware.Decide` matches header names exactly. Django's `request.headers` is case-insensitive, and that folding is not modelled.
- `Filters.FilterDisponibilidade` takes the valid choices as a parameter, because `Estudante.DISPONIBILIDADE_CHOICES` is not defined in service/models.py. Its doc-comment lists estagio, emprego and projeto.
- `Models.Curriculo.Approve`, `Models.Curriculo.Reject`: these model the evident intent, an outbox append after the save. As written, `send_cv_status_notification` (service/tasks.py:77) carries no `@task` decorator, even though `task` is imported at service/tasks.py:23. So `send_cv_status_notification.enqueue(...)` (service/models.py:158, 186) raises AttributeError after `self.save()` has already stored the new status and date. The placement quirk has its own consequence: the methods sit under `CVAccessLog`, so `Curriculo` has no `approve` or `reject`. `CVAccessLog.approve` also fails at `self.STATUS_APROVADO` (service/models.py:154), because `CVAccessLog` has no such constant.
- `Serializers.ValidateSubmission`: the framework's field-level checks run before the custom validators, and they are not modelled:
  - `file` is required and may not be blank (service/serializers.py:17-19). An empty or whitespace-only path gets the field's "blank" error, where the model answers the PDF error.
  - The student field is a OneToOneField that is neither null nor blank (service/models.py:127), so it is required and unique. A missing student gets the field's "required" error, reported alongside any file error, and never reaches `validate`'s message. A student who already has a CV is rejected, where the model accepts the submission.
  - `Serializers.ValidateFile` takes a string, so a null `file` is not modelled. The model column is nullable (service/models.py:123), and `extra_kwargs` overrides only `required` and `allow_blank`, so `"file": null` passes the field check. `validate_file(None)` then raises AttributeError at `value.lower()` (service/serializers.py:30).
- `Models.OrderNewestFirst`, `Models.OrderNewestFirstKeepsOrderedRows`: `ordering = ['-created_at']` (service/models.py:399) leaves the order of rows with equal `created_at` to the database. The model's insertion fixes one order for ties, keeping them in input order. The database does not promise that.
- `Filters.FilterByAreaName` follows the code and takes one value. Its docstring (service/filters.py:101) promises several areas through a repeated `area_nome` parameter. But `area_nome` is a `CharFilter` (service/filters.py:56), which reads a single value, so that promise is not kept and is not modelled.
- Filters do not model query-set ordering beyond "same relative order as the input". Combining several filters into one request is not modelled either.
- `ClientSingleton.GetSupabaseClient`: `create_client` itself is assumed never to fail; only the configuration guard is modelled.
- `Filters.FilterGrauIn`, `Filters.FilterDisponibilidadeIn`: the any-of semantics is the intended one, so a row is kept when its column equals one of the listed values, ignoring case. But the source declares `grau_in` and `disponibilidade_in` as `BaseInFilter` with `lookup_expr='iexact'` (service/filters.py:17-21, 43-47). Read literally, the framework then applies one `iexact` lookup to the parsed list as a single value. That list-as-one-value behaviour is not modelled.
- `Filters.FilterAnoMin`, `Filters.FilterAnoMax`, `Filters.FilterByAreaId`: these take integers only. `NumberFilter` cleans its input to a decimal, so the source also accepts fractional values such as `ano_min=2.5`. Comparing a decimal against the integer column is not modelled.
- `CvService.SignedUrlResponse`: the 200 body is the dictionary that service/services/cv_service.py:79-86 builds. The source then passes it through `CVSignedUrlSerializer` (line 88), and that serialisation is not modelled. service/serializers.py does not define `CVSignedUrlSerializer`, though cv_service.py:9 imports it. So the module as written fails at import. The model follows the evident intent.
- `Serializers.Create`: it returns the dictionary handed to the model's `create`. The source returns the instance that `super().create` saves, and that persistence is not modelled.
- `SupabaseAuth.GetUserEmail` models the configuration guard at service/supabase_client.py:40. But the module already calls `create_client(SUPABASE_URL, SUPABASE_KEY)` at import (line 11). So once the module has loaded, a missing URL cannot reach that guard: it fails at import instead. In the task, the import happens lazily inside the `try`, so that failure becomes an address-lookup failure, not the DEBUG fallback address. The import-time failure is not modelled.
- `SupabaseAuth.GetUserRole`: the module-level client that runs the query is an oracle. Its outcome is the `RoleQuery` parameter.
- The unreachable duplicated body after `get_user_role` (service/supabase_client.py:109-142) is dead code.
- service/services/storage_service.py is not part of this model. Storage appears only as the success-or-failure answer of `CvService.StorageService`. Its `upload_file` has no return statement, though its documentation promises a path.
- The test files, management commands, views and URL routing are not part of this model. Some of them use names that service/models.py does not define.
