/** When exactly each assignment request is granted, what it then changes, and who has made every
    change that a run has seen. */
module AssignmentRights {
  import opened Wrappers
  import opened Assignments
  import opened AssignmentRuns

  predicate Standing(db: Db, id: Id) {
    id in db.assignments && db.assignments[id].deletedAt.None?
  }

  predicate Teaches(db: Db, actor: UserId, id: Id) {
    id in db.assignments && db.assignments[id].courseId in db.owners && db.owners[db.assignments[id].courseId] == actor
  }

  /** Rows of assignments and submissions aside, only an audit row is added. */
  predicate OnlyRows(db: Db, db': Db) {
    && db'.owners == db.owners && db'.enrolled == db.enrolled && db'.objects == db.objects
    && |db'.audits| == |db.audits| + 1 && db'.audits[..|db.audits|] == db.audits
  }

  // --- Submitting ------------------------------------------------------------------------

  predicate Late(a: Assignment, now: Time) { a.dueAt.Some? && now > a.dueAt.value }

  ghost predicate HasSubmitted(db: Db, student: UserId, id: Id) {
    exists s :: s in db.submissions && db.submissions[s].assignmentId == id && db.submissions[s].studentId == student
  }

  /** A submission is taken exactly when the assignment stands, is published, the student is
      enrolled, is not late or may be, has not submitted before, and a file named is in storage. */
  lemma SubmissionTakenIff(db: Db, actor: UserId, id: Id, response: Response, now: Time)
    ensures Handle(db, actor, Submit(id, response), now).Ok? <==>
              && Standing(db, id) && db.assignments[id].isPublished
              && (actor, db.assignments[id].courseId) in db.enrolled
              && (Late(db.assignments[id], now) ==> db.assignments[id].allowLate)
              && !HasSubmitted(db, actor, id)
              && (response.File? ==> response.key in db.objects)
  {
  }

  /** Otherwise the first reason that applies is given, in this order. */
  lemma SubmissionRefusal(db: Db, actor: UserId, id: Id, response: Response, now: Time)
    ensures var o := Handle(db, actor, Submit(id, response), now);
            && (o == Err(AssignmentNotFound) <==> !Standing(db, id))
            && (Standing(db, id) ==>
                  var a := db.assignments[id];
                  var enrolled := (actor, a.courseId) in db.enrolled;
                  var tooLate := Late(a, now) && !a.allowLate;
                  && (o == Err(AssignmentNotPublished) <==> !a.isPublished)
                  && (o == Err(NotEnrolled) <==> a.isPublished && !enrolled)
                  && (o == Err(LateSubmissionNotAllowed) <==> a.isPublished && enrolled && tooLate)
                  && (o == Err(AlreadySubmitted) <==> a.isPublished && enrolled && !tooLate && HasSubmitted(db, actor, id))
                  && (o == Err(FileNotInStorage) <==>
                        a.isPublished && enrolled && !tooLate && !HasSubmitted(db, actor, id) && response.File? && response.key !in db.objects))
  {
  }

  /** What it adds: one row, the student's own, late exactly past the deadline, not graded. */
  lemma SubmissionAdds(db: Db, actor: UserId, id: Id, response: Response, now: Time)
    requires Handle(db, actor, Submit(id, response), now).Ok?
    ensures var db' := Handle(db, actor, Submit(id, response), now).value;
            && OnlyRows(db, db') && db'.assignments == db.assignments && db'.notifications == db.notifications
            && db.nextId in db'.submissions && db'.submissions == db.submissions[db.nextId := db'.submissions[db.nextId]]
            && var row := db'.submissions[db.nextId];
               && row.assignmentId == id && row.studentId == actor && row.submittedAt == now
               && (row.isLate <==> Late(db.assignments[id], now))
               && row.score == None && row.feedback == None && row.reviewedAt == None
               && (if response.Text? then row.textResponse == Some(response.body) && row.objectKey == None
                   else row.textResponse == None && row.objectKey == Some(response.key))
               && (db'.audits[|db.audits|] == AuditLog(actor, SubmittedText, db.nextId) <==> response.Text?)
               && (db'.audits[|db.audits|] == AuditLog(actor, SubmittedFile, db.nextId) <==> response.File?)
  {
  }

  // --- Grading -----------------------------------------------------------------------------

  /** A grade is taken exactly from the owner of the course, for a submission whose assignment
      stands, and up to its maximum; refused otherwise with the first reason that applies. */
  lemma GradeTakenIff(db: Db, actor: UserId, s: Id, score: nat, feedback: Option<string>, now: Time)
    ensures var o := Handle(db, actor, Grade(s, score, feedback), now);
            && (o.Ok? <==>
                  s in db.submissions && var id := db.submissions[s].assignmentId;
                  Standing(db, id) && Teaches(db, actor, id) && score <= db.assignments[id].maxScore)
            && (o == Err(SubmissionNotFound) <==> s !in db.submissions)
            && (s in db.submissions ==>
                  var id := db.submissions[s].assignmentId;
                  && (o == Err(AssignmentNotFound) <==> !Standing(db, id))
                  && (o == Err(NotCourseOwner) <==> Standing(db, id) && !Teaches(db, actor, id))
                  && (o == Err(ScoreExceedsMax) <==> Standing(db, id) && Teaches(db, actor, id) && score > db.assignments[id].maxScore))
  {
  }

  /** What it changes: the score, feedback and review time of that row, and its student is told. */
  lemma GradeChanges(db: Db, actor: UserId, s: Id, score: nat, feedback: Option<string>, now: Time)
    requires Handle(db, actor, Grade(s, score, feedback), now).Ok?
    ensures var db' := Handle(db, actor, Grade(s, score, feedback), now).value;
            && OnlyRows(db, db') && db'.assignments == db.assignments && s in db.submissions && s in db'.submissions
            && db'.submissions == db.submissions[s := db'.submissions[s]]
            && SameResponse(db.submissions[s], db'.submissions[s])
            && db'.submissions[s].score == Some(score) && db'.submissions[s].feedback == feedback && db'.submissions[s].reviewedAt == Some(now)
            && db.submissions[s].assignmentId in db.assignments
            && var maxScore := db.assignments[db.submissions[s].assignmentId].maxScore;
               && db'.notifications == db.notifications + [Notification(db.submissions[s].studentId, actor, s, score, maxScore)]
               && db'.audits == db.audits + [AuditLog(actor, Graded(score, maxScore), s)]
  {
  }

  // --- The teacher's other requests ----------------------------------------------------------

  /** Creating takes the owner of the course; the new assignment is not published. */
  lemma CreationIff(db: Db, actor: UserId, course: CourseId, title: string, description: Option<string>,
                    dueAt: Option<Time>, maxScore: MaxScore, allowLate: bool, now: Time)
    ensures var o := Handle(db, actor, Create(course, title, description, dueAt, maxScore, allowLate), now);
            && (o.Ok? <==> course in db.owners && db.owners[course] == actor) && (o.Ok? || o == Err(NotCourseOwner))
            && (o.Ok? ==>
                  var db' := o.value;
                  && OnlyRows(db, db') && db'.submissions == db.submissions && db'.notifications == db.notifications
                  && db'.audits[|db.audits|] == AuditLog(actor, Created, db.nextId)
                  && db.nextId in db'.assignments && db'.assignments == db.assignments[db.nextId := db'.assignments[db.nextId]]
                  && var row := db'.assignments[db.nextId];
                     && row.courseId == course && row.title == title && row.description == description && row.dueAt == dueAt
                     && row.maxScore == maxScore && row.allowLate == allowLate && !row.isPublished && row.deletedAt == None)
  {
  }

  predicate Revises(request: Request, id: Id) {
    match request
    case Update(i, _) => i == id
    case Publish(i) => i == id
    case Delete(i) => i == id
    case _ => false
  }

  /** Given to the owner of the course alone, for an assignment that stands. */
  lemma RevisionIff(db: Db, actor: UserId, request: Request, id: Id, now: Time)
    requires Revises(request, id)
    ensures var o := Handle(db, actor, request, now);
            && (o.Ok? <==> Standing(db, id) && Teaches(db, actor, id))
            && (o == Err(AssignmentNotFound) <==> !Standing(db, id))
            && (o == Err(NotCourseOwner) <==> Standing(db, id) && !Teaches(db, actor, id))
            && (o.Ok? ==>
                  var db' := o.value;
                  && OnlyRows(db, db') && db'.submissions == db.submissions && db'.notifications == db.notifications
                  && id in db'.assignments && db'.assignments == db.assignments[id := db'.assignments[id]]
                  && RevisedTo(request, db.assignments[id], db'.assignments[id], now)
                  && var audit := db'.audits[|db.audits|];
                     && audit.actorId == actor && audit.entityId == id && (audit.action == Updated <==> request.Update?)
                     && (audit.action == Published <==> request.Publish?) && (audit.action == Deleted <==> request.Delete?))
  {
  }

  predicate Becomes<T(==)>(change: Option<T>, before: T, after: T) {
    after == if change.Some? then change.value else before
  }

  /** What each of them may change: publishing nothing but that, deleting nothing but that, and an
      update the five fields it names, neither publication nor deletion nor course. */
  predicate RevisedTo(request: Request, a: Assignment, b: Assignment, now: Time) {
    match request
    case Update(_, u) =>
      && Becomes(u.title, a.title, b.title) && Becomes(u.maxScore, a.maxScore, b.maxScore) && Becomes(u.allowLate, a.allowLate, b.allowLate)
      && b.description == (if u.description.Some? then u.description else a.description)
      && b.dueAt == (if u.dueAt.Some? then u.dueAt else a.dueAt)
      && b.courseId == a.courseId && b.isPublished == a.isPublished && b.deletedAt == a.deletedAt
    case Publish(_) => b.isPublished && a == b.(isPublished := a.isPublished)
    case Delete(_) => b.deletedAt == Some(now) && a == b.(deletedAt := a.deletedAt)
    case _ => false
  }

  // --- Over every run --------------------------------------------------------------------------

  lemma {:induction false} ExecSnoc(db: Db, run: seq<Event>, i: nat)
    requires i < |run|
    ensures Exec(db, run[..i + 1]) == Step(Exec(db, run[..i]), run[i])
    decreases i
  {
    if i == 0 {
      assert run[..1][1..] == [];
    } else {
      ExecSnoc(Step(db, run[0]), run[1..], i - 1);
      assert run[..i + 1][1..] == run[1..][..i] && run[..i][1..] == run[1..][..i - 1];
    }
  }

  /** The request `e`, granted to the owner of the course, is what graded submission `s`. */
  ghost predicate GradedBy(db: Db, e: Event, s: Id, row: Submission) {
    && e.Asked? && e.request.Grade? && e.request.submission == s && s in db.submissions
    && var id := db.submissions[s].assignmentId;
       && Standing(db, id) && Teaches(db, e.actor, id) && e.request.score <= db.assignments[id].maxScore
       && SameResponse(db.submissions[s], row)
       && row.score == Some(e.request.score) && row.feedback == e.request.feedback && row.reviewedAt == Some(e.now)
  }

  ghost predicate RevisedBy(db: Db, e: Event, id: Id, row: Assignment) {
    && e.Asked? && Revises(e.request, id) && Standing(db, id) && Teaches(db, e.actor, id)
    && RevisedTo(e.request, db.assignments[id], row, e.now)
  }

  ghost predicate CreatedBy(db: Db, e: Event, row: Assignment) {
    && e.Asked? && e.request.Create? && row.courseId == e.request.course
    && row.courseId in db.owners && db.owners[row.courseId] == e.actor && !row.isPublished && row.deletedAt.None?
  }

  lemma StepRights(db: Db, e: Event)
    requires Inv(db)
    ensures var db' := Step(db, e);
            && db'.owners == db.owners
            && (forall s :: s in db.submissions && (s !in db'.submissions || db'.submissions[s] != db.submissions[s]) ==>
                  s in db'.submissions && GradedBy(db, e, s, db'.submissions[s]))
            && (forall id :: id in db.assignments && (id !in db'.assignments || db'.assignments[id] != db.assignments[id]) ==>
                  id in db'.assignments && RevisedBy(db, e, id, db'.assignments[id]))
            && (forall id :: id in db'.assignments && id !in db.assignments ==> CreatedBy(db, e, db'.assignments[id]))
  {
    assert db.nextId in db.submissions ==> SubmissionOk(db, db.nextId);
    if e.Asked? && Handle(db, e.actor, e.request, e.now).Ok? {
      match e.request {
        case Create(course, title, description, dueAt, maxScore, allowLate) =>
          CreationIff(db, e.actor, course, title, description, dueAt, maxScore, allowLate, e.now);
        case Submit(id, response) => SubmissionAdds(db, e.actor, id, response, e.now);
        case Grade(s, score, feedback) =>
          GradeTakenIff(db, e.actor, s, score, feedback, e.now);
          GradeChanges(db, e.actor, s, score, feedback, e.now);
        case Update(id, _) => RevisionIff(db, e.actor, e.request, id, e.now);
        case Publish(id) => RevisionIff(db, e.actor, e.request, id, e.now);
        case Delete(id) => RevisionIff(db, e.actor, e.request, id, e.now);
      }
    }
  }

  /** Whatever changes at any point of any run was changed by the one who may: a grade by the owner
      of the course, on an assignment that stood, within its maximum; an assignment by the owner of
      its course, while it stood; and a new one comes from the owner of its course. */
  lemma OwnersAlone(owners: map<CourseId, UserId>, run: seq<Event>, i: nat)
    requires i < |run|
    ensures var db, db' := Exec(Initial(owners), run[..i]), Exec(Initial(owners), run[..i + 1]);
            && db'.owners == owners
            && (forall s :: s in db.submissions && (s !in db'.submissions || db'.submissions[s] != db.submissions[s]) ==>
                  s in db'.submissions && GradedBy(db, run[i], s, db'.submissions[s]))
            && (forall id :: id in db.assignments && (id !in db'.assignments || db'.assignments[id] != db.assignments[id]) ==>
                  id in db'.assignments && RevisedBy(db, run[i], id, db'.assignments[id]))
            && (forall id :: id in db'.assignments && id !in db.assignments ==> CreatedBy(db, run[i], db'.assignments[id]))
  {
    var db := Exec(Initial(owners), run[..i]);
    InitialOk(owners);
    RunKeeps(Initial(owners), run[..i]);
    ExecSnoc(Initial(owners), run, i);
    StepRights(db, run[i]);
    OwnersKept(Initial(owners), run[..i]);
  }

  lemma {:induction false} OwnersKept(db: Db, run: seq<Event>)
    requires Inv(db)
    ensures Exec(db, run).owners == db.owners
    decreases |run|
  {
    if run != [] {
      StepKeeps(db, run[0]);
      StepRights(db, run[0]);
      OwnersKept(Step(db, run[0]), run[1..]);
    }
  }
}
