/** Assignments and their submissions: the service transitions with their checks in order, the
    rows they change, and the audit and notification rows they add. */
module Assignments {
  import opened Wrappers

  type UserId = nat
  type CourseId = nat
  type Id = nat
  type Time = int

  type MaxScore = n: int | 1 <= n <= 1000 witness 100

  // --- Rows ----------------------------------------------------------------------------

  datatype Assignment = Assignment(courseId: CourseId, title: string, description: Option<string>, dueAt: Option<Time>,
                                   maxScore: MaxScore, allowLate: bool, isPublished: bool, deletedAt: Option<Time>)

  datatype Submission = Submission(assignmentId: Id, studentId: UserId, textResponse: Option<string>, objectKey: Option<string>,
                                   isLate: bool, submittedAt: Time, score: Option<nat>, feedback: Option<string>,
                                   reviewedAt: Option<Time>)

  datatype AuditAction = Created | Updated | Published | Deleted | SubmittedText | SubmittedFile
                       | Graded(score: nat, maxScore: MaxScore)

  datatype AuditLog = AuditLog(actorId: UserId, action: AuditAction, entityId: Id)

  datatype Notification = Notification(recipientId: UserId, actorId: UserId, entityId: Id, score: nat, maxScore: MaxScore)

  /** `made` is history: the submissions in the order they were made. */
  datatype Db = Db(owners: map<CourseId, UserId>, enrolled: set<(UserId, CourseId)>, objects: set<string>,
                   assignments: map<Id, Assignment>, submissions: map<Id, Submission>,
                   audits: seq<AuditLog>, notifications: seq<Notification>, nextId: Id, made: seq<Id>)

  datatype Error = AssignmentNotFound | AssignmentNotPublished | NotEnrolled | LateSubmissionNotAllowed | AlreadySubmitted
                 | FileNotInStorage | NotCourseOwner | SubmissionNotFound | ScoreExceedsMax

  // --- Repository ----------------------------------------------------------------------

  datatype Changes = Changes(title: Option<string>, description: Option<string>, dueAt: Option<Time>,
                             maxScore: Option<MaxScore>, allowLate: Option<bool>, isPublished: Option<bool>)

  function Or<T>(change: Option<T>, current: T): T {
    if change.Some? then change.value else current
  }

  /** `update`: an absent field keeps its value. */
  function Patched(a: Assignment, u: Changes): Assignment {
    a.(title := Or(u.title, a.title),
       description := if u.description.Some? then u.description else a.description,
       dueAt := if u.dueAt.Some? then u.dueAt else a.dueAt,
       maxScore := Or(u.maxScore, a.maxScore),
       allowLate := Or(u.allowLate, a.allowLate),
       isPublished := Or(u.isPublished, a.isPublished))
  }

  /** `get_by_id`: soft-deleted rows are not found. */
  function Find(db: Db, id: Id): Option<Assignment> {
    if id in db.assignments && db.assignments[id].deletedAt.None? then Some(db.assignments[id]) else None
  }

  predicate Owns(db: Db, user: UserId, course: CourseId) {
    course in db.owners && db.owners[course] == user
  }

  predicate Submitted(db: Db, id: Id, student: UserId) {
    exists s :: s in db.submissions && db.submissions[s].assignmentId == id && db.submissions[s].studentId == student
  }

  function Audited(db: Db, actor: UserId, action: AuditAction, entity: Id): Db {
    db.(audits := db.audits + [AuditLog(actor, action, entity)])
  }

  // --- Requests ------------------------------------------------------------------------

  datatype Response = Text(body: string) | File(key: string)

  datatype Request =
    | Create(course: CourseId, title: string, description: Option<string>, dueAt: Option<Time>, maxScore: MaxScore, allowLate: bool)
    | Update(id: Id, changes: Changes)
    | Publish(id: Id)
    | Delete(id: Id)
    | Submit(id: Id, response: Response)
    | Grade(submission: Id, score: nat, feedback: Option<string>)

  const PUBLISH_ONLY := Changes(None, None, None, None, None, Some(true))

  /** The update schema has no publication field. */
  function WithoutPublication(u: Changes): Changes { u.(isPublished := None) }

  function IsLate(a: Assignment, now: Time): bool {
    a.dueAt.Some? && now > a.dueAt.value
  }

  /** Why a submission is refused, checked in the order the service checks it. */
  function Refusal(db: Db, actor: UserId, id: Id, response: Response, now: Time): Option<Error> {
    match Find(db, id)
    case None => Some(AssignmentNotFound)
    case Some(a) =>
      if !a.isPublished then Some(AssignmentNotPublished)
      else if (actor, a.courseId) !in db.enrolled then Some(NotEnrolled)
      else if IsLate(a, now) && !a.allowLate then Some(LateSubmissionNotAllowed)
      else if Submitted(db, id, actor) then Some(AlreadySubmitted)
      else if response.File? && response.key !in db.objects then Some(FileNotInStorage)
      else None
  }

  function Submitting(db: Db, actor: UserId, id: Id, response: Response, now: Time): Result<Db, Error> {
    match Refusal(db, actor, id, response, now)
    case Some(error) => Err(error)
    case None =>
      var a, s := db.assignments[id], db.nextId;
      var row := Submission(id, actor, if response.Text? then Some(response.body) else None,
                            if response.File? then Some(response.key) else None, IsLate(a, now), now, None, None, None);
      Ok(Audited(db.(submissions := db.submissions[s := row], nextId := s + 1, made := db.made + [s]),
                 actor, if response.Text? then SubmittedText else SubmittedFile, s))
  }

  function Grading(db: Db, actor: UserId, s: Id, score: nat, feedback: Option<string>, now: Time): Result<Db, Error> {
    if s !in db.submissions then Err(SubmissionNotFound)
    else match Find(db, db.submissions[s].assignmentId)
      case None => Err(AssignmentNotFound)
      case Some(a) =>
        if !Owns(db, actor, a.courseId) then Err(NotCourseOwner)
        else if score > a.maxScore then Err(ScoreExceedsMax)
        else
          var row := db.submissions[s];
          var note := Notification(row.studentId, actor, s, score, a.maxScore);
          Ok(Audited(db.(submissions := db.submissions[s := row.(score := Some(score), feedback := feedback, reviewedAt := Some(now))],
                         notifications := db.notifications + [note]),
                     actor, Graded(score, a.maxScore), s))
  }

  /** What the teacher's three requests on an existing assignment share. */
  function Revising(db: Db, actor: UserId, id: Id, revised: Assignment -> Assignment, action: AuditAction): Result<Db, Error> {
    match Find(db, id)
    case None => Err(AssignmentNotFound)
    case Some(a) =>
      if !Owns(db, actor, a.courseId) then Err(NotCourseOwner)
      else Ok(Audited(db.(assignments := db.assignments[id := revised(a)]), actor, action, id))
  }

  function Handle(db: Db, actor: UserId, request: Request, now: Time): Result<Db, Error> {
    match request
    case Create(course, title, description, dueAt, maxScore, allowLate) =>
      if !Owns(db, actor, course) then Err(NotCourseOwner)
      else
        var row := Assignment(course, title, description, dueAt, maxScore, allowLate, false, None);
        Ok(Audited(db.(assignments := db.assignments[db.nextId := row], nextId := db.nextId + 1), actor, Created, db.nextId))
    case Update(id, u) => Revising(db, actor, id, (a: Assignment) => Patched(a, WithoutPublication(u)), Updated)
    case Publish(id) => Revising(db, actor, id, (a: Assignment) => Patched(a, PUBLISH_ONLY), Published)
    case Delete(id) => Revising(db, actor, id, (a: Assignment) => a.(deletedAt := Some(now)), Deleted)
    case Submit(id, response) => Submitting(db, actor, id, response, now)
    case Grade(s, score, feedback) => Grading(db, actor, s, score, feedback, now)
  }

  // --- The services ----------------------------------------------------------------------

  class Services {
    var owners: map<CourseId, UserId>
    var enrolled: set<(UserId, CourseId)>
    var objects: set<string>
    var assignments: map<Id, Assignment>
    var submissions: map<Id, Submission>
    var audits: seq<AuditLog>
    var notifications: seq<Notification>
    var nextId: Id
    ghost var made: seq<Id>

    ghost function Now(): Db
      reads this
    {
      Db(owners, enrolled, objects, assignments, submissions, audits, notifications, nextId, made)
    }

    /** Whether a call that ended with `error` is what `Handle` says of the state before it. */
    ghost predicate Answers(before: Db, outcome: Result<Db, Error>, error: Option<Error>)
      reads this
    {
      match outcome
      case Ok(after) => error.None? && Now() == after
      case Err(e) => error == Some(e) && Now() == before
    }

    constructor (owners: map<CourseId, UserId>)
      ensures Now() == Db(owners, {}, {}, map[], map[], [], [], 0, [])
    {
      this.owners, enrolled, objects, assignments, submissions := owners, {}, {}, map[], map[];
      audits, notifications, nextId, made := [], [], 0, [];
    }

    method Audit(actor: UserId, action: AuditAction, entity: Id)
      modifies this`audits
      ensures audits == old(audits) + [AuditLog(actor, action, entity)]
    {
      audits := audits + [AuditLog(actor, action, entity)];
    }

    method CreateAssignment(actor: UserId, course: CourseId, title: string, description: Option<string>,
                            dueAt: Option<Time>, maxScore: MaxScore, allowLate: bool, now: Time) returns (error: Option<Error>)
      modifies this
      ensures Answers(old(Now()), Handle(old(Now()), actor, Create(course, title, description, dueAt, maxScore, allowLate), now), error)
    {
      if course !in owners || owners[course] != actor {
        return Some(NotCourseOwner);
      }
      var id := nextId;
      assignments := assignments[id := Assignment(course, title, description, dueAt, maxScore, allowLate, false, None)];
      nextId := id + 1;
      Audit(actor, Created, id);
      error := None;
    }

    method CheckManaged(actor: UserId, id: Id) returns (error: Option<Error>)
      ensures error.None? <==> Find(Now(), id).Some? && Owns(Now(), actor, assignments[id].courseId)
      ensures error.Some? ==> error.value == if Find(Now(), id).None? then AssignmentNotFound else NotCourseOwner
    {
      if id !in assignments || assignments[id].deletedAt.Some? {
        return Some(AssignmentNotFound);
      }
      var course := assignments[id].courseId;
      error := if course !in owners || owners[course] != actor then Some(NotCourseOwner) else None;
    }

    /** The repository's `update`, field by field. */
    method ApplyChanges(id: Id, u: Changes)
      requires id in assignments
      modifies this`assignments
      ensures assignments == old(assignments)[id := Patched(old(assignments)[id], u)]
    {
      var a := assignments[id];
      if u.title.Some? { a := a.(title := u.title.value); }
      if u.description.Some? { a := a.(description := u.description); }
      if u.dueAt.Some? { a := a.(dueAt := u.dueAt); }
      if u.maxScore.Some? { a := a.(maxScore := u.maxScore.value); }
      if u.allowLate.Some? { a := a.(allowLate := u.allowLate.value); }
      if u.isPublished.Some? { a := a.(isPublished := u.isPublished.value); }
      assignments := assignments[id := a];
    }

    method UpdateAssignment(actor: UserId, id: Id, u: Changes, now: Time) returns (error: Option<Error>)
      modifies this
      ensures Answers(old(Now()), Handle(old(Now()), actor, Update(id, u), now), error)
    {
      error := CheckManaged(actor, id);
      if error.None? {
        ApplyChanges(id, u.(isPublished := None));
        Audit(actor, Updated, id);
      }
    }

    method PublishAssignment(actor: UserId, id: Id, now: Time) returns (error: Option<Error>)
      modifies this
      ensures Answers(old(Now()), Handle(old(Now()), actor, Publish(id), now), error)
    {
      error := CheckManaged(actor, id);
      if error.None? {
        ApplyChanges(id, PUBLISH_ONLY);
        Audit(actor, Published, id);
      }
    }

    method DeleteAssignment(actor: UserId, id: Id, now: Time) returns (error: Option<Error>)
      modifies this
      ensures Answers(old(Now()), Handle(old(Now()), actor, Delete(id), now), error)
    {
      error := CheckManaged(actor, id);
      if error.None? {
        assignments := assignments[id := assignments[id].(deletedAt := Some(now))];
        Audit(actor, Deleted, id);
      }
    }

    /** `submit_text` and `confirm_file_submission`, which differ only in what they store. */
    method SubmitResponse(actor: UserId, id: Id, response: Response, now: Time) returns (error: Option<Error>)
      modifies this
      ensures Answers(old(Now()), Handle(old(Now()), actor, Submit(id, response), now), error)
    {
      if id !in assignments || assignments[id].deletedAt.Some? {
        return Some(AssignmentNotFound);
      }
      var a := assignments[id];
      if !a.isPublished {
        return Some(AssignmentNotPublished);
      }
      if (actor, a.courseId) !in enrolled {
        return Some(NotEnrolled);
      }
      var isLate := a.dueAt.Some? && now > a.dueAt.value;
      if isLate && !a.allowLate {
        return Some(LateSubmissionNotAllowed);
      }
      if exists s :: s in submissions && submissions[s].assignmentId == id && submissions[s].studentId == actor {
        return Some(AlreadySubmitted);
      }
      if response.File? && response.key !in objects {
        return Some(FileNotInStorage);
      }
      var s := nextId;
      submissions := submissions[s := Submission(id, actor, if response.Text? then Some(response.body) else None,
                                                 if response.File? then Some(response.key) else None,
                                                 isLate, now, None, None, None)];
      nextId := s + 1;
      made := made + [s];
      Audit(actor, if response.Text? then SubmittedText else SubmittedFile, s);
      error := None;
    }

    method GradeSubmission(actor: UserId, s: Id, score: nat, feedback: Option<string>, now: Time) returns (error: Option<Error>)
      modifies this
      ensures Answers(old(Now()), Handle(old(Now()), actor, Grade(s, score, feedback), now), error)
    {
      if s !in submissions {
        return Some(SubmissionNotFound);
      }
      var id := submissions[s].assignmentId;
      error := CheckManaged(actor, id);
      if error.Some? {
        return;
      }
      var a := assignments[id];
      if score > a.maxScore {
        return Some(ScoreExceedsMax);
      }
      submissions := submissions[s := submissions[s].(score := Some(score), feedback := feedback, reviewedAt := Some(now))];
      notifications := notifications + [Notification(submissions[s].studentId, actor, s, score, a.maxScore)];
      Audit(actor, Graded(score, a.maxScore), s);
    }
  }
}
