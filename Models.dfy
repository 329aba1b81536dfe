/** newservice/service/models.py: the CV status constants and labels, the
    CV review state machine (approve / reject) with its notification outbox,
    and the Notification record with its defaults, ordering and rendering. */
module Models {
  import opened Wrappers
  import Text

  // Curriculo.STATUS_PENDENTE / STATUS_APROVADO / STATUS_REJEITADO
  const STATUS_PENDENTE: int := 0
  const STATUS_APROVADO: int := 1
  const STATUS_REJEITADO: int := 2

  /** CV_STATUS_LABELS */
  const CV_STATUS_LABELS: map<int, string> := map[0 := "pendente", 1 := "aprovado", 2 := "rejeitado"]

  const REJECT_NEEDS_FEEDBACK := "Feedback é obrigatório para rejeição de currículo."

  lemma StatusLabelsMatchConstants()
    ensures CV_STATUS_LABELS.Keys == {STATUS_PENDENTE, STATUS_APROVADO, STATUS_REJEITADO}
    ensures CV_STATUS_LABELS[STATUS_PENDENTE] == "pendente"
    ensures CV_STATUS_LABELS[STATUS_APROVADO] == "aprovado"
    ensures CV_STATUS_LABELS[STATUS_REJEITADO] == "rejeitado"
  {
  }

  /** The result of `date.today()`, supplied by the caller. */
  datatype Date = Date(year: int, month: int, day: int)

  /** One `send_cv_status_notification.enqueue(...)` call. */
  datatype StatusNotificationJob = StatusNotificationJob(curriculoId: int, status: int, feedback: string)

  /** The jobs a review decision may enqueue: an approval (any feedback) or a
      rejection that carries feedback. */
  predicate IsReviewJob(job: StatusNotificationJob) {
    job.status == STATUS_APROVADO || (job.status == STATUS_REJEITADO && job.feedback != "")
  }

  /** The background task queue, seen as an outbox of enqueued jobs. */
  class TaskQueue {
    var jobs: seq<StatusNotificationJob>

    constructor ()
      ensures jobs == []
    {
      jobs := [];
    }

    method Enqueue(job: StatusNotificationJob)
      modifies this
      ensures jobs == old(jobs) + [job]
    {
      jobs := jobs + [job];
    }
  }

  /** A `curriculo` row. The row is updated in place by the review methods;
      `save()` is the identity here because the object is the row. */
  class Curriculo {
    const id: int
    var file: Option<string>
    var status: Option<int>
    var descricao: Option<string>
    var validatedDate: Option<Date>
    const estudanteId: string

    constructor (id: int, file: Option<string>, status: Option<int>, descricao: Option<string>,
                 validatedDate: Option<Date>, estudanteId: string)
      ensures this.id == id && this.file == file && this.status == status
      ensures this.descricao == descricao && this.validatedDate == validatedDate
      ensures this.estudanteId == estudanteId
    {
      this.id := id;
      this.file := file;
      this.status := status;
      this.descricao := descricao;
      this.validatedDate := validatedDate;
      this.estudanteId := estudanteId;
    }

    /** The status is unset or one of the three labelled statuses. */
    ghost predicate HasLabelledStatus()
      reads this
    {
      status.None? || status.value in CV_STATUS_LABELS
    }

    // In the repository `approve` and `reject` are indented under CVAccessLog
    // while they use the STATUS_* constants of Curriculo and stamp the fields
    // of a CV; they are modelled here as the CV's own operations.

    /** `approve(feedback)`: always succeeds, whatever the feedback. */
    method Approve(feedback: string, today: Date, queue: TaskQueue)
      modifies this`status, this`validatedDate, queue
      ensures status == Some(STATUS_APROVADO) && validatedDate == Some(today)
      ensures queue.jobs == old(queue.jobs) + [StatusNotificationJob(id, STATUS_APROVADO, feedback)]
      ensures IsReviewJob(queue.jobs[|queue.jobs| - 1])
      ensures HasLabelledStatus()
    {
      status := Some(STATUS_APROVADO);
      validatedDate := Some(today);
      queue.Enqueue(StatusNotificationJob(id, STATUS_APROVADO, feedback));
    }

    /** `reject(feedback)`: raises ValueError on empty feedback and then leaves
        the row and the queue as they were. */
    method Reject(feedback: string, today: Date, queue: TaskQueue) returns (r: Outcome<string>)
      modifies this`status, this`validatedDate, queue
      ensures r.Fail? <==> feedback == ""
      ensures r.Fail? ==> r.error == REJECT_NEEDS_FEEDBACK
      ensures r.Fail? ==> status == old(status) && validatedDate == old(validatedDate) && queue.jobs == old(queue.jobs)
      ensures r.Pass? ==> status == Some(STATUS_REJEITADO) && validatedDate == Some(today)
      ensures r.Pass? ==> queue.jobs == old(queue.jobs) + [StatusNotificationJob(id, STATUS_REJEITADO, feedback)]
      ensures r.Pass? ==> IsReviewJob(queue.jobs[|queue.jobs| - 1])
      ensures old(HasLabelledStatus()) ==> HasLabelledStatus()
    {
      if feedback == "" {
        return Fail(REJECT_NEEDS_FEEDBACK);
      }
      status := Some(STATUS_REJEITADO);
      validatedDate := Some(today);
      queue.Enqueue(StatusNotificationJob(id, STATUS_REJEITADO, feedback));
      r := Pass;
    }
  }

  /** A `notification` row. `type` is a reserved word in Dafny, hence
      `notificationType`; `createdAt` is the `auto_now_add` timestamp. */
  datatype Notification = Notification(
    recipientUserId: string,
    recipientEmail: string,
    notificationType: string,
    subject: string,
    status: string,
    errorMessage: string,
    read: bool,
    curriculoId: Option<int>,
    createdAt: int)

  /** `Notification.objects.create(...)`: the fields given, `read` defaulting to
      False and `error_message` to "" when the caller passes none. */
  function NewNotification(recipientUserId: string, recipientEmail: string, notificationType: string,
                           subject: string, status: string, errorMessage: Option<string>,
                           curriculoId: Option<int>, createdAt: int): (n: Notification)
    ensures !n.read
    ensures errorMessage.None? ==> n.errorMessage == ""
    ensures errorMessage.Some? ==> n.errorMessage == errorMessage.value
    ensures n.recipientUserId == recipientUserId && n.recipientEmail == recipientEmail
    ensures n.notificationType == notificationType && n.subject == subject && n.status == status
    ensures n.curriculoId == curriculoId && n.createdAt == createdAt
  {
    Notification(recipientUserId, recipientEmail, notificationType, subject, status,
                 errorMessage.GetOr(""), false, curriculoId, createdAt)
  }

  /** The notification table. */
  class NotificationTable {
    var rows: seq<Notification>

    constructor ()
      ensures rows == []
    {
      rows := [];
    }

    method Create(recipientUserId: string, recipientEmail: string, notificationType: string,
                  subject: string, status: string, errorMessage: Option<string>,
                  curriculoId: Option<int>, now: int) returns (n: Notification)
      modifies this
      ensures n == NewNotification(recipientUserId, recipientEmail, notificationType, subject,
                                   status, errorMessage, curriculoId, now)
      ensures rows == old(rows) + [n]
    {
      n := NewNotification(recipientUserId, recipientEmail, notificationType, subject,
                           status, errorMessage, curriculoId, now);
      rows := rows + [n];
    }
  }

  /** `Meta.ordering = ['-created_at']`: newest first. */
  predicate NewestFirst(ns: seq<Notification>) {
    forall i, j :: 0 <= i < j < |ns| ==> ns[i].createdAt >= ns[j].createdAt
  }

  function InsertByCreatedAt(n: Notification, ns: seq<Notification>): (r: seq<Notification>)
    requires NewestFirst(ns)
    ensures NewestFirst(r)
    ensures multiset(r) == multiset(ns) + multiset{n}
    ensures |r| == |ns| + 1
    ensures r[0] == n || (ns != [] && r[0] == ns[0])
  {
    if ns == [] || n.createdAt >= ns[0].createdAt then
      [n] + ns
    else
      var rest := InsertByCreatedAt(n, ns[1..]);
      assert ns == [ns[0]] + ns[1..];
      assert rest[0].createdAt <= ns[0].createdAt;
      [ns[0]] + rest
  }

  /** Notifications as a query returns them: the same rows, newest first. */
  function OrderNewestFirst(ns: seq<Notification>): (r: seq<Notification>)
    ensures NewestFirst(r)
    ensures multiset(r) == multiset(ns)
  {
    if ns == [] then []
    else
      assert ns == [ns[0]] + ns[1..];
      InsertByCreatedAt(ns[0], OrderNewestFirst(ns[1..]))
  }

  /** Rows already newest first come back unchanged. */
  lemma {:induction false} OrderNewestFirstKeepsOrderedRows(ns: seq<Notification>)
    requires NewestFirst(ns)
    ensures OrderNewestFirst(ns) == ns
  {
    if ns != [] {
      assert NewestFirst(ns[1..]);
      OrderNewestFirstKeepsOrderedRows(ns[1..]);
      assert ns == [ns[0]] + ns[1..];
    }
  }

  /** Ordering twice is ordering once. */
  lemma OrderNewestFirstIdempotent(ns: seq<Notification>)
    ensures OrderNewestFirst(OrderNewestFirst(ns)) == OrderNewestFirst(ns)
  {
    OrderNewestFirstKeepsOrderedRows(OrderNewestFirst(ns));
  }

  /** `Notification.__str__`: "Notification(<type>, <status>) -> <recipient_email>". */
  function Describe(n: Notification): (s: string)
    ensures Text.IsPrefix("Notification(" + n.notificationType + ", " + n.status, s)
    ensures Text.EndsWith(s, ") -> " + n.recipientEmail)
    ensures |s| == 20 + |n.notificationType| + |n.status| + |n.recipientEmail|
  {
    "Notification(" + n.notificationType + ", " + n.status + ") -> " + n.recipientEmail
  }
}
