/** What every sequential run of requests keeps, with enrollments and uploads changing freely. */
module AssignmentRuns {
  import opened Wrappers
  import opened Assignments

  // --- Runs ----------------------------------------------------------------------------

  datatype Event =
    | Asked(actor: UserId, request: Request, now: Time)
    | EnrollmentsChanged(enrolled: set<(UserId, CourseId)>)
    | ObjectsChanged(objects: set<string>)

  /** A refused request changes nothing. */
  function Step(db: Db, e: Event): Db {
    match e
    case Asked(actor, request, now) =>
      var outcome := Handle(db, actor, request, now);
      if outcome.Ok? then outcome.value else db
    case EnrollmentsChanged(enrolled) => db.(enrolled := enrolled)
    case ObjectsChanged(objects) => db.(objects := objects)
  }

  function Exec(db: Db, run: seq<Event>): Db
    decreases |run|
  {
    if run == [] then db else Exec(Step(db, run[0]), run[1..])
  }

  function Initial(owners: map<CourseId, UserId>): Db {
    Db(owners, {}, {}, map[], map[], [], [], 0, [])
  }

  // --- What the logs record --------------------------------------------------------------

  /** The submissions that audit rows record, in order. */
  function SubmitAudits(audits: seq<AuditLog>): seq<Id> {
    if audits == [] then []
    else
      var last := audits[|audits| - 1];
      SubmitAudits(audits[..|audits| - 1]) + (if last.action.SubmittedText? || last.action.SubmittedFile? then [last.entityId] else [])
  }

  datatype GradeRecord = GradeRecord(actor: UserId, submission: Id, score: nat, maxScore: MaxScore)

  function GradeAudits(audits: seq<AuditLog>): seq<GradeRecord> {
    if audits == [] then []
    else
      var last := audits[|audits| - 1];
      GradeAudits(audits[..|audits| - 1]) +
      (if last.action.Graded? then [Record(last)] else [])
  }

  function GradeNotices(notes: seq<Notification>): seq<GradeRecord> {
    if notes == [] then []
    else
      var last := notes[|notes| - 1];
      GradeNotices(notes[..|notes| - 1]) + [GradeRecord(last.actorId, last.entityId, last.score, last.maxScore)]
  }

  function Record(a: AuditLog): GradeRecord
    requires a.action.Graded?
  {
    GradeRecord(a.actorId, a.entityId, a.action.score, a.action.maxScore)
  }

  /** The last grading of `s`. */
  function LastGrade(audits: seq<AuditLog>, s: Id): Option<GradeRecord> {
    if audits == [] then None
    else
      var last := audits[|audits| - 1];
      if last.action.Graded? && last.entityId == s then Some(Record(last)) else LastGrade(audits[..|audits| - 1], s)
  }

  function LastGradeAfter(audits: seq<AuditLog>, a: AuditLog, s: Id): Option<GradeRecord> {
    if a.action.Graded? && a.entityId == s then Some(Record(a)) else LastGrade(audits, s)
  }

  function Score(g: Option<GradeRecord>): Option<nat> { if g.Some? then Some(g.value.score) else None }

  lemma AuditAppended(audits: seq<AuditLog>, a: AuditLog)
    ensures SubmitAudits(audits + [a]) ==
            SubmitAudits(audits) + (if a.action.SubmittedText? || a.action.SubmittedFile? then [a.entityId] else [])
    ensures GradeAudits(audits + [a]) ==
            GradeAudits(audits) +
            (if a.action.Graded? then [Record(a)] else [])
    ensures forall s :: LastGrade(audits + [a], s) == LastGradeAfter(audits, a, s)
  {
    assert (audits + [a])[..|audits|] == audits;
  }

  // --- The invariant ---------------------------------------------------------------------

  predicate SamePair(a: Submission, b: Submission) {
    a.assignmentId == b.assignmentId && a.studentId == b.studentId
  }

  ghost predicate SubmissionOk(db: Db, s: Id)
    requires s in db.submissions
  {
    && s < db.nextId
    && db.submissions[s].assignmentId in db.assignments
    && db.assignments[db.submissions[s].assignmentId].isPublished
    && (forall t :: t in db.submissions && t != s ==> !SamePair(db.submissions[s], db.submissions[t]))
    && db.submissions[s].score == Score(LastGrade(db.audits, s))
  }

  ghost predicate LogsOk(db: Db) {
    && SubmitAudits(db.audits) == db.made
    && GradeAudits(db.audits) == GradeNotices(db.notifications)
    && (forall g :: g in GradeAudits(db.audits) ==> g.score <= g.maxScore)
    && (forall s :: s >= db.nextId ==> LastGrade(db.audits, s) == None)
  }

  ghost predicate Inv(db: Db) {
    && (forall id :: id in db.assignments ==> id < db.nextId)
    && (forall s :: s in db.submissions ==> SubmissionOk(db, s) && s in db.made)
    && (forall m :: m in db.made ==> m in db.submissions)
    && (forall i, j :: 0 <= i < j < |db.made| ==> db.made[i] != db.made[j])
    && LogsOk(db)
  }

  // --- Each request keeps it -------------------------------------------------------------

  /** Requests that only touch assignments, leaving what is published published. */
  lemma AssignmentsChange(db: Db, db': Db, a: AuditLog)
    requires Inv(db) && db' == db.(assignments := db'.assignments, audits := db.audits + [a], nextId := db'.nextId)
    requires !(a.action.SubmittedText? || a.action.SubmittedFile? || a.action.Graded?)
    requires db.nextId <= db'.nextId && forall id :: id in db'.assignments ==> id < db'.nextId
    requires forall id :: id in db.assignments ==>
               id in db'.assignments && (db.assignments[id].isPublished ==> db'.assignments[id].isPublished)
    ensures Inv(db')
  {
    AuditAppended(db.audits, a);
    assert SubmitAudits(db.audits) + [] == SubmitAudits(db.audits);
    assert GradeAudits(db.audits) + [] == GradeAudits(db.audits);
    forall s | s in db'.submissions ensures SubmissionOk(db', s) {
      assert SubmissionOk(db, s);
    }
  }

  lemma SubmitKeeps(db: Db, actor: UserId, id: Id, response: Response, now: Time)
    requires Inv(db) && Submitting(db, actor, id, response, now).Ok?
    ensures Inv(Submitting(db, actor, id, response, now).value)
  {
    var db', s := Submitting(db, actor, id, response, now).value, db.nextId;
    var a := AuditLog(actor, if response.Text? then SubmittedText else SubmittedFile, s);
    AuditAppended(db.audits, a);
    assert GradeAudits(db.audits) + [] == GradeAudits(db.audits);
    forall i | 0 <= i < |db.made| ensures db.made[i] != s {
      assert db.made[i] in db.made && SubmissionOk(db, db.made[i]);
    }
    forall t | t in db'.submissions ensures SubmissionOk(db', t) && t in db'.made {
      if t != s {
        assert SubmissionOk(db, t) && t in db.made;
      } else {
        assert db'.made[|db.made|] == s;
      }
    }
  }

  lemma GradeLogs(db: Db, db': Db, a: AuditLog, n: Notification)
    requires LogsOk(db)
    requires db' == db.(submissions := db'.submissions, audits := db.audits + [a], notifications := db.notifications + [n])
    requires a.action.Graded? && a.action.score <= a.action.maxScore && a.entityId < db.nextId
    requires n.actorId == a.actorId && n.entityId == a.entityId && n.score == a.action.score && n.maxScore == a.action.maxScore
    ensures LogsOk(db')
  {
    AuditAppended(db.audits, a);
    assert SubmitAudits(db.audits) + [] == SubmitAudits(db.audits);
  }

  lemma GradeKeeps(db: Db, actor: UserId, s: Id, score: nat, feedback: Option<string>, now: Time)
    requires Inv(db) && Grading(db, actor, s, score, feedback, now).Ok?
    ensures Inv(Grading(db, actor, s, score, feedback, now).value)
  {
    var db' := Grading(db, actor, s, score, feedback, now).value;
    var maxScore := db.assignments[db.submissions[s].assignmentId].maxScore;
    var a := AuditLog(actor, Graded(score, maxScore), s);
    assert SubmissionOk(db, s);
    AuditAppended(db.audits, a);
    GradeLogs(db, db', a, Notification(db.submissions[s].studentId, actor, s, score, maxScore));
    forall t | t in db'.submissions ensures SubmissionOk(db', t) {
      assert SubmissionOk(db, t);
    }
  }

  lemma StepKeeps(db: Db, e: Event)
    requires Inv(db)
    ensures Inv(Step(db, e))
  {
    match e {
      case Asked(actor, request, now) =>
        var outcome := Handle(db, actor, request, now);
        if outcome.Ok? {
          match request {
            case Submit(id, response) => SubmitKeeps(db, actor, id, response, now);
            case Grade(s, score, feedback) => GradeKeeps(db, actor, s, score, feedback, now);
            case _ => AssignmentsChange(db, outcome.value, outcome.value.audits[|db.audits|]);
          }
        }
      case _ =>
        var db' := Step(db, e);
        forall s | s in db'.submissions ensures SubmissionOk(db', s) {
          assert SubmissionOk(db, s);
        }
    }
  }

  lemma {:induction false} RunKeeps(db: Db, run: seq<Event>)
    requires Inv(db)
    ensures Inv(Exec(db, run))
    decreases |run|
  {
    if run != [] {
      StepKeeps(db, run[0]);
      RunKeeps(Step(db, run[0]), run[1..]);
    }
  }

  lemma InitialOk(owners: map<CourseId, UserId>)
    ensures Inv(Initial(owners))
  {
  }

  // --- Over every run ----------------------------------------------------------------------

  /** At most one submission per assignment and student, each to an assignment that is published. */
  lemma OneSubmissionEach(owners: map<CourseId, UserId>, run: seq<Event>, s: Id, t: Id)
    requires var db := Exec(Initial(owners), run);
             s in db.submissions && t in db.submissions && SamePair(db.submissions[s], db.submissions[t])
    ensures s == t
    ensures var db := Exec(Initial(owners), run);
            var id := db.submissions[s].assignmentId;
            id in db.assignments && db.assignments[id].isPublished
  {
    InitialOk(owners);
    RunKeeps(Initial(owners), run);
    assert SubmissionOk(Exec(Initial(owners), run), s);
  }

  /** The request `e`, made in `db`, is what inserted `row` as submission `s`, by the assignment
      row as it stood there: published and not deleted, late exactly when its deadline had
      passed, and late only if it allowed that. */
  ghost predicate SubmittedBy(db: Db, e: Event, s: Id, row: Submission) {
    && s !in db.submissions && s in Step(db, e).submissions
    && e.Asked? && e.request.Submit? && e.actor == row.studentId && e.request.id == row.assignmentId && e.now == row.submittedAt
    && row.assignmentId in db.assignments
    && var a := db.assignments[row.assignmentId];
       && a.isPublished && a.deletedAt.None? && (e.actor, a.courseId) in db.enrolled
       && (row.isLate <==> a.dueAt.Some? && e.now > a.dueAt.value)
       && (row.isLate ==> a.allowLate)
  }

  /** Grading aside, a submission stays as it was made. */
  predicate SameResponse(a: Submission, b: Submission) {
    b == a.(score := b.score, feedback := b.feedback, reviewedAt := b.reviewedAt)
  }

  lemma StepSubmission(db: Db, e: Event, s: Id)
    requires Inv(db)
    ensures s in db.submissions ==> s in Step(db, e).submissions && SameResponse(db.submissions[s], Step(db, e).submissions[s])
    ensures s !in db.submissions && s in Step(db, e).submissions ==> SubmittedBy(db, e, s, Step(db, e).submissions[s])
  {
    assert db.nextId in db.submissions ==> SubmissionOk(db, db.nextId);
    if e.Asked? && Handle(db, e.actor, e.request, e.now).Ok? {
      match e.request {
        case Submit(id, response) => assert Submitting(db, e.actor, id, response, e.now).Ok?;
        case Grade(i, score, feedback) => assert Grading(db, e.actor, i, score, feedback, e.now).Ok?;
        case _ =>
      }
    }
  }

  lemma {:induction false} RunSubmission(db: Db, run: seq<Event>, s: Id)
    requires Inv(db) && s in db.submissions
    ensures s in Exec(db, run).submissions && SameResponse(db.submissions[s], Exec(db, run).submissions[s])
    decreases |run|
  {
    if run != [] {
      StepKeeps(db, run[0]);
      StepSubmission(db, run[0], s);
      RunSubmission(Step(db, run[0]), run[1..], s);
    }
  }

  lemma {:induction false} SubmittedFrom(db: Db, run: seq<Event>, s: Id) returns (i: nat)
    requires Inv(db) && s !in db.submissions && s in Exec(db, run).submissions
    ensures i < |run| && SubmittedBy(Exec(db, run[..i]), run[i], s, Exec(db, run).submissions[s])
    decreases |run|
  {
    var db1 := Step(db, run[0]);
    StepKeeps(db, run[0]);
    StepSubmission(db, run[0], s);
    if s in db1.submissions {
      i := 0;
      RunSubmission(db1, run[1..], s);
    } else {
      var j := SubmittedFrom(db1, run[1..], s);
      i := j + 1;
      assert run[..i][1..] == run[1..][..j];
    }
  }

  /** Every submission was inserted by one request of its student's, at a point of the run where
      the assignment was published, not deleted and open to them; and it is marked late exactly when
      the deadline that the assignment had at that point had passed. */
  lemma LateExactly(owners: map<CourseId, UserId>, run: seq<Event>, s: Id)
    requires s in Exec(Initial(owners), run).submissions
    ensures exists i :: 0 <= i < |run| &&
              SubmittedBy(Exec(Initial(owners), run[..i]), run[i], s, Exec(Initial(owners), run).submissions[s])
  {
    InitialOk(owners);
    var i := SubmittedFrom(Initial(owners), run, s);
  }

  /** A score is the one of the last grading audited for its submission, if there was any, and
      within the maximum audited with it. */
  lemma ScoresWithinMaximum(owners: map<CourseId, UserId>, run: seq<Event>, s: Id)
    requires s in Exec(Initial(owners), run).submissions
    ensures var db := Exec(Initial(owners), run);
            var last := LastGrade(db.audits, s);
            && db.submissions[s].score == Score(last)
            && (last.Some? ==> last.value.submission == s && last.value in GradeAudits(db.audits) && last.value.score <= last.value.maxScore)
  {
    InitialOk(owners);
    RunKeeps(Initial(owners), run);
    var db := Exec(Initial(owners), run);
    assert SubmissionOk(db, s);
    if LastGrade(db.audits, s).Some? {
      LastGradeAudited(db.audits, s);
    }
  }

  lemma {:induction false} LastGradeAudited(audits: seq<AuditLog>, s: Id)
    requires LastGrade(audits, s).Some?
    ensures LastGrade(audits, s).value in GradeAudits(audits) && LastGrade(audits, s).value.submission == s
  {
    var before, last := audits[..|audits| - 1], audits[|audits| - 1];
    if last.action.Graded? && last.entityId == s {
      assert GradeAudits(audits)[|GradeAudits(before)|] == Record(last);
    } else {
      LastGradeAudited(before, s);
    }
  }

  /** Submissions and their audit rows correspond one to one and in order, and so do gradings,
      their audit rows and the notifications sent. */
  lemma LogsCorrespond(owners: map<CourseId, UserId>, run: seq<Event>)
    ensures var db := Exec(Initial(owners), run);
            && SubmitAudits(db.audits) == db.made
            && (forall s :: s in db.submissions <==> s in SubmitAudits(db.audits))
            && (forall i, j :: 0 <= i < j < |SubmitAudits(db.audits)| ==> SubmitAudits(db.audits)[i] != SubmitAudits(db.audits)[j])
            && GradeAudits(db.audits) == GradeNotices(db.notifications)
  {
    InitialOk(owners);
    RunKeeps(Initial(owners), run);
  }

  // --- What no run takes back ----------------------------------------------------------------

  /** Nothing unpublishes an assignment, clears its deadline or moves it to another course. */
  predicate Settled(a: Assignment, b: Assignment) {
    && (a.isPublished ==> b.isPublished)
    && (a.dueAt.Some? ==> b.dueAt.Some?)
    && (a.deletedAt.Some? ==> b.deletedAt.Some?)
    && a.courseId == b.courseId
  }

  lemma StepSettles(db: Db, e: Event, id: Id)
    requires id in db.assignments && id < db.nextId
    ensures id in Step(db, e).assignments && Settled(db.assignments[id], Step(db, e).assignments[id])
  {
    if e.Asked? && Handle(db, e.actor, e.request, e.now).Ok? {
      match e.request {
        case Submit(i, response) => assert Submitting(db, e.actor, i, response, e.now).value.assignments == db.assignments;
        case Grade(i, score, feedback) => assert Grading(db, e.actor, i, score, feedback, e.now).value.assignments == db.assignments;
        case _ =>
      }
    }
  }

  lemma {:induction false} RunSettles(db: Db, run: seq<Event>, id: Id)
    requires Inv(db) && id in db.assignments
    ensures id in Exec(db, run).assignments && Settled(db.assignments[id], Exec(db, run).assignments[id])
    decreases |run|
  {
    if run != [] {
      StepKeeps(db, run[0]);
      StepSettles(db, run[0], id);
      RunSettles(Step(db, run[0]), run[1..], id);
    }
  }

  // --- Partial updates -------------------------------------------------------------------------

  /** Later changes win. */
  function Merged(u: Changes, v: Changes): Changes {
    Changes(if v.title.Some? then v.title else u.title,
            if v.description.Some? then v.description else u.description,
            if v.dueAt.Some? then v.dueAt else u.dueAt,
            if v.maxScore.Some? then v.maxScore else u.maxScore,
            if v.allowLate.Some? then v.allowLate else u.allowLate,
            if v.isPublished.Some? then v.isPublished else u.isPublished)
  }

  function PatchedAll(a: Assignment, us: seq<Changes>): Assignment
    decreases |us|
  {
    if us == [] then a else PatchedAll(Patched(a, us[0]), us[1..])
  }

  function MergedAll(us: seq<Changes>): Changes
    decreases |us|
  {
    if us == [] then Changes(None, None, None, None, None, None) else Merged(us[0], MergedAll(us[1..]))
  }

  /** A sequence of partial updates does what their merge does at once; and without a
      publication change among them it publishes and unpublishes nothing. */
  lemma {:induction false} UpdatesCompose(a: Assignment, us: seq<Changes>)
    ensures PatchedAll(a, us) == Patched(a, MergedAll(us))
    ensures (forall u :: u in us ==> u.isPublished.None?) ==> PatchedAll(a, us).isPublished == a.isPublished
    ensures a.dueAt.Some? ==> PatchedAll(a, us).dueAt.Some?
    decreases |us|
  {
    if us != [] {
      UpdatesCompose(Patched(a, us[0]), us[1..]);
      assert forall u :: u in us[1..] ==> u in us;
    }
  }
}
