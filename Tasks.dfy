/** newservice/service/tasks.py: `send_cv_status_notification`, a function
    meant to run as a background task (it carries no `@task` decorator). It
    e-mails a student about a CV decision and records exactly one
    notification row per run that passes validation. The e-mail lookup,
    template rendering, tag stripping and mail sending are collaborators whose
    results are supplied as functions; the clock and settings are parameters. */
module Tasks {
  import opened Wrappers
  import opened Models
  import Text

  /** STATUS_LABELS */
  const STATUS_LABELS: map<int, string> := map[1 := "Aprovado", 2 := "Rejeitado"]
  /** `_render_email`'s template_map */
  const TEMPLATE_MAP: map<int, string> := map[1 := "email/cv_aprovado.html", 2 := "email/cv_rejeitado.html"]
  /** subject_map */
  const SUBJECT_MAP: map<int, string> :=
    map[1 := "🎉 O teu currículo foi aprovado!", 2 := "Resultado da validação do teu currículo"]

  const DEFAULT_SUBJECT := "Notificação de CV"
  const DEFAULT_SITE_URL := "http://localhost:8000"
  const DEFAULT_STUDENT_NAME := "Estudante"
  const NOTIFICATION_TYPE := "cv_status_change"
  const SENT_MESSAGE := "Email enviado com sucesso."
  const EMAIL_LOOKUP_FAILED := "Falha ao obter email: "
  const RENDER_FAILED := "Falha ao renderizar template: "
  const SEND_FAILED := "Falha ao enviar email: "

  /** The ValueErrors the task raises. */
  datatype TaskError = InvalidStatus(status: int) | FeedbackRequired | CurriculoNotFound(curriculoId: int)

  function ErrorMessage(e: TaskError): string {
    match e
    case InvalidStatus(s) => "Status inválido: " + Text.IntToString(s) + ". Deve ser 1 (Aprovado) ou 2 (Rejeitado)."
    case FeedbackRequired => "Feedback é obrigatório para rejeição."
    case CurriculoNotFound(id) => "Currículo com ID " + Text.IntToString(id) + " não encontrado."
  }

  /** The ValueErrors name the rejected status and the missing CV id. */
  lemma ErrorMessagesNameTheInput(status: int, curriculoId: int)
    ensures Text.Contains(ErrorMessage(InvalidStatus(status)), Text.IntToString(status))
    ensures Text.Contains(ErrorMessage(CurriculoNotFound(curriculoId)), Text.IntToString(curriculoId))
  {
    Text.ContainsMiddle("Status inválido: ", Text.IntToString(status), ". Deve ser 1 (Aprovado) ou 2 (Rejeitado).");
    Text.ContainsMiddle("Currículo com ID ", Text.IntToString(curriculoId), " não encontrado.");
  }

  /** The dictionary the task returns. */
  datatype TaskResult = TaskResult(success: bool, curriculoId: int, status: string, email: Option<string>, message: string)

  /** What the select_related join yields for a CV: the owner's auth UUID and name. */
  datatype StudentContact = StudentContact(userUuid: string, nome: Option<string>)

  datatype EmailContext = EmailContext(nomeEstudante: string, feedback: string, siteUrl: string, anoAtual: int)

  datatype OutgoingMail = OutgoingMail(subject: string, message: string, fromEmail: string,
                                       recipientList: seq<string>, htmlMessage: string)

  /** The outside collaborators: `_get_student_email`, `render_to_string`,
      `strip_tags` and `send_mail` (Pass when it returns, Fail(str(e)) when it raises). */
  datatype Collaborators = Collaborators(
    lookupEmail: string -> Result<string, string>,
    render: (string, EmailContext) -> Result<string, string>,
    stripTags: string -> string,
    sendMail: OutgoingMail -> Outcome<string>)

  /** settings.SITE_URL (if set), settings.DEFAULT_FROM_EMAIL, datetime.now().year
      and the row creation time. */
  datatype TaskSettings = TaskSettings(siteUrl: Option<string>, defaultFromEmail: string, currentYear: int, now: int)

  /** `STATUS_LABELS.get(status, str(status))` */
  function LabelOrCode(status: int): (shown: string)
    ensures status in STATUS_LABELS ==> shown == STATUS_LABELS[status]
    ensures status !in STATUS_LABELS ==> shown == Text.IntToString(status)
  {
    if status in STATUS_LABELS then STATUS_LABELS[status] else Text.IntToString(status)
  }

  /** `subject_map.get(status, "Notificação de CV")` */
  function SubjectOrDefault(status: int): (subject: string)
    ensures status in SUBJECT_MAP ==> subject == SUBJECT_MAP[status]
    ensures status !in SUBJECT_MAP ==> subject == DEFAULT_SUBJECT
  {
    if status in SUBJECT_MAP then SUBJECT_MAP[status] else DEFAULT_SUBJECT
  }

  /** Parameter validation, done before any lookup. */
  function ValidateParams(status: int, feedback: string): (o: Outcome<TaskError>)
    ensures o.Pass? <==> (status == 1 || status == 2) && (status == 2 ==> feedback != "")
    ensures status != 1 && status != 2 ==> o == Fail(InvalidStatus(status))
    ensures status == 2 && feedback == "" ==> o == Fail(FeedbackRequired)
  {
    if status != 1 && status != 2 then Fail(InvalidStatus(status))
    else if status == 2 && feedback == "" then Fail(FeedbackRequired)
    else Pass
  }

  /** After validation the label, template and subject maps all have the
      status, so none of their `.get` defaults can be used. */
  lemma ValidatedStatusIsMapped(status: int, feedback: string)
    requires ValidateParams(status, feedback).Pass?
    ensures status in STATUS_LABELS && status in TEMPLATE_MAP && status in SUBJECT_MAP
    ensures LabelOrCode(status) == STATUS_LABELS[status]
    ensures SubjectOrDefault(status) == SUBJECT_MAP[status]
  {
  }

  /** A job enqueued by Curriculo.Approve or Curriculo.Reject is exactly a job
      that passes the task's own validation. */
  lemma ReviewJobsAreAccepted(job: StatusNotificationJob)
    ensures IsReviewJob(job) <==> ValidateParams(job.status, job.feedback).Pass?
  {
  }

  /** `utilizador.nome or "Estudante"` */
  function StudentName(nome: Option<string>): (name: string)
    ensures name != ""
    ensures nome.Some? && nome.value != "" ==> name == nome.value
    ensures nome.None? || nome.value == "" ==> name == DEFAULT_STUDENT_NAME
  {
    if nome.Some? && nome.value != "" then nome.value else DEFAULT_STUDENT_NAME
  }

  /** `_render_email`: picks the template for the status (a KeyError for any
      other status), renders it and strips the tags for the plain-text part. */
  function RenderEmail(status: int, context: EmailContext,
                       render: (string, EmailContext) -> Result<string, string>,
                       stripTags: string -> string): (r: Result<(string, string), string>)
    ensures status !in TEMPLATE_MAP ==> r == Failure(Text.IntToString(status))
    ensures r.Success? <==> status in TEMPLATE_MAP && render(TEMPLATE_MAP[status], context).Success?
    ensures r.Success? ==> r.value.0 == render(TEMPLATE_MAP[status], context).value
    ensures r.Success? ==> r.value.1 == stripTags(r.value.0)
    ensures status in TEMPLATE_MAP && r.Failure? ==> r.error == render(TEMPLATE_MAP[status], context).error
  {
    if status !in TEMPLATE_MAP then Failure(Text.IntToString(status))
    else
      match render(TEMPLATE_MAP[status], context)
      case Success(html) => Success((html, stripTags(html)))
      case Failure(e) => Failure(e)
  }

  lemma TemplatesFollowStatus()
    ensures TEMPLATE_MAP.Keys == {STATUS_APROVADO, STATUS_REJEITADO}
    ensures TEMPLATE_MAP[STATUS_APROVADO] == "email/cv_aprovado.html"
    ensures TEMPLATE_MAP[STATUS_REJEITADO] == "email/cv_rejeitado.html"
  {
  }

  function ContextFor(contact: StudentContact, feedback: string, settings: TaskSettings): EmailContext {
    EmailContext(StudentName(contact.nome), feedback, settings.siteUrl.GetOr(DEFAULT_SITE_URL), settings.currentYear)
  }

  /** Which of the four outcomes a validated run ends in. */
  datatype Delivery =
    | EmailLookupFailed(error: string)
    | RenderFailed(email: string, error: string)
    | SendFailed(email: string, error: string)
    | Delivered(email: string)

  function DeliveryOf(status: int, feedback: string, contact: StudentContact,
                      settings: TaskSettings, io: Collaborators): (d: Delivery)
    requires status == 1 || status == 2
    ensures d.EmailLookupFailed? <==> io.lookupEmail(contact.userUuid).Failure?
    ensures d.EmailLookupFailed? ==> d.error == io.lookupEmail(contact.userUuid).error
    ensures !d.EmailLookupFailed? ==> d.email == io.lookupEmail(contact.userUuid).value
    ensures d.RenderFailed? <==>
      io.lookupEmail(contact.userUuid).Success? &&
      RenderEmail(status, ContextFor(contact, feedback, settings), io.render, io.stripTags).Failure?
    ensures d.RenderFailed? ==>
      d.error == RenderEmail(status, ContextFor(contact, feedback, settings), io.render, io.stripTags).error
    ensures d.Delivered? <==>
      var rendered := RenderEmail(status, ContextFor(contact, feedback, settings), io.render, io.stripTags);
      && io.lookupEmail(contact.userUuid).Success?
      && rendered.Success?
      && io.sendMail(OutgoingMail(SUBJECT_MAP[status], rendered.value.1, settings.defaultFromEmail,
                                  [io.lookupEmail(contact.userUuid).value], rendered.value.0)) == Pass
    ensures d.SendFailed? ==>
      var rendered := RenderEmail(status, ContextFor(contact, feedback, settings), io.render, io.stripTags);
      var sent := io.sendMail(OutgoingMail(SUBJECT_MAP[status], rendered.value.1, settings.defaultFromEmail,
                                           [d.email], rendered.value.0));
      rendered.Success? && sent.Fail? && d.error == sent.error
  {
    match io.lookupEmail(contact.userUuid)
    case Failure(e) => EmailLookupFailed(e)
    case Success(email) =>
      match RenderEmail(status, ContextFor(contact, feedback, settings), io.render, io.stripTags)
      case Failure(e) => RenderFailed(email, e)
      case Success(parts) =>
        match io.sendMail(OutgoingMail(SUBJECT_MAP[status], parts.1, settings.defaultFromEmail, [email], parts.0))
        case Pass => Delivered(email)
        case Fail(e) => SendFailed(email, e)
  }

  /** `send_cv_status_notification(curriculo_id, status, feedback)`.
      Failure(e) is a raised ValueError; Success(d) is the returned dictionary.
      `curriculos` maps each existing CV id to its owner. */
  method SendCvStatusNotification(curriculoId: int, status: int, feedback: string,
                                  curriculos: map<int, StudentContact>, settings: TaskSettings,
                                  io: Collaborators, table: NotificationTable)
    returns (r: Result<TaskResult, TaskError>)
    modifies table
    ensures ValidateParams(status, feedback).Fail? ==>
      r == Failure(ValidateParams(status, feedback).error) && table.rows == old(table.rows)
    ensures ValidateParams(status, feedback).Pass? && curriculoId !in curriculos ==>
      r == Failure(CurriculoNotFound(curriculoId)) && table.rows == old(table.rows)
    ensures r.Success? <==> ValidateParams(status, feedback).Pass? && curriculoId in curriculos
    ensures r.Success? ==>
      |table.rows| == |old(table.rows)| + 1 && table.rows[..|old(table.rows)|] == old(table.rows)
    ensures r.Success? ==>
      var n := table.rows[|table.rows| - 1];
      && n.notificationType == NOTIFICATION_TYPE
      && n.curriculoId == Some(curriculoId)
      && n.recipientUserId == curriculos[curriculoId].userUuid
      && !n.read
      && n.createdAt == settings.now
      && r.value.curriculoId == curriculoId
    ensures r.Success? ==>
      var n := table.rows[|table.rows| - 1];
      var res := r.value;
      match DeliveryOf(status, feedback, curriculos[curriculoId], settings, io)
      case EmailLookupFailed(e) =>
        && n.status == "failed" && n.recipientEmail == "" && n.subject == "CV " + LabelOrCode(status)
        && n.errorMessage == EMAIL_LOOKUP_FAILED + e
        && res == TaskResult(false, curriculoId, LabelOrCode(status), None, EMAIL_LOOKUP_FAILED + e)
      case RenderFailed(email, e) =>
        && n.status == "failed" && n.recipientEmail == email && n.subject == SubjectOrDefault(status)
        && n.errorMessage == RENDER_FAILED + e
        && res == TaskResult(false, curriculoId, LabelOrCode(status), Some(email), RENDER_FAILED + e)
      case SendFailed(email, e) =>
        && n.status == "failed" && n.recipientEmail == email && n.subject == SUBJECT_MAP[status]
        && n.errorMessage == e
        && res == TaskResult(false, curriculoId, LabelOrCode(status), Some(email), SEND_FAILED + e)
      case Delivered(email) =>
        && n.status == "sent" && n.recipientEmail == email && n.subject == SUBJECT_MAP[status]
        && n.errorMessage == ""
        && res == TaskResult(true, curriculoId, STATUS_LABELS[status], Some(email), SENT_MESSAGE)
  {
    // Parameter validation
    if status != 1 && status != 2 {
      return Failure(InvalidStatus(status));
    }
    if status == 2 && feedback == "" {
      return Failure(FeedbackRequired);
    }

    // Look up the CV and its student
    if curriculoId !in curriculos {
      return Failure(CurriculoNotFound(curriculoId));
    }
    var contact := curriculos[curriculoId];
    var userUuid := contact.userUuid;
    var statusLabel := LabelOrCode(status);

    // E-mail address from the auth service
    var lookup := io.lookupEmail(userUuid);
    if lookup.Failure? {
      var message := EMAIL_LOOKUP_FAILED + lookup.error;
      var _ := table.Create(userUuid, "", NOTIFICATION_TYPE, "CV " + statusLabel, "failed",
                            Some(message), Some(curriculoId), settings.now);
      return Success(TaskResult(false, curriculoId, statusLabel, None, message));
    }
    var email := lookup.value;

    // Render the template
    var context := ContextFor(contact, feedback, settings);
    var rendered := RenderEmail(status, context, io.render, io.stripTags);
    if rendered.Failure? {
      var message := RENDER_FAILED + rendered.error;
      var _ := table.Create(userUuid, email, NOTIFICATION_TYPE, SubjectOrDefault(status), "failed",
                            Some(message), Some(curriculoId), settings.now);
      return Success(TaskResult(false, curriculoId, statusLabel, Some(email), message));
    }
    var html, plainText := rendered.value.0, rendered.value.1;

    // Send the e-mail
    var subject := SUBJECT_MAP[status];
    var sent := io.sendMail(OutgoingMail(subject, plainText, settings.defaultFromEmail, [email], html));
    if sent.Pass? {
      var _ := table.Create(userUuid, email, NOTIFICATION_TYPE, subject, "sent",
                            None, Some(curriculoId), settings.now);
      r := Success(TaskResult(true, curriculoId, STATUS_LABELS[status], Some(email), SENT_MESSAGE));
    } else {
      var _ := table.Create(userUuid, email, NOTIFICATION_TYPE, subject, "failed",
                            Some(sent.error), Some(curriculoId), settings.now);
      r := Success(TaskResult(false, curriculoId, statusLabel, Some(email), SEND_FAILED + sent.error));
    }
  }
}
