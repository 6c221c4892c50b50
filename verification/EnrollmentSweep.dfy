/** Enrollments and the denormalised counter of each course: the two data-fix statements the
    application runs at startup, each in its own transaction, migrations 0008 and 0009, and
    everything else that writes rows or counters. */
module EnrollmentSweep {
  import opened Basics
  import opened Wrappers

  // Times are milliseconds.
  function Days(n: int): int { n * 86_400_000 }

  type CourseId = nat
  type StudentId = nat

  /** Student and course identify an enrollment: there is a unique index on the pair. */
  datatype Key = Key(student: StudentId, course: CourseId)

  datatype Enrollment = Enrollment(active: bool, enrolledAt: int, expiresAt: Option<int>)

  type Rows = map<Key, Enrollment>
  type Totals = map<CourseId, int>

  // --- SQL -----------------------------------------------------------------------------

  predicate Expired(e: Enrollment, now: int) {
    e.enrolledAt <= now - Days(30) || (e.expiresAt.Some? && e.expiresAt.value <= now)
  }

  function In(rows: Rows, c: CourseId): set<Key> {
    set k | k in rows && k.course == c
  }

  function ExpiredIn(rows: Rows, c: CourseId, now: int): set<Key> {
    set k | k in rows && k.course == c && Expired(rows[k], now)
  }

  /** UPDATE courses: only the courses with an expired row, and never below zero. */
  function Decremented(totals: Totals, rows: Rows, now: int): Totals {
    map c | c in totals ::
      if ExpiredIn(rows, c, now) != {} then Max(0, totals[c] - |ExpiredIn(rows, c, now)|) else totals[c]
  }

  /** DELETE FROM course_enrollments. */
  function Swept(rows: Rows, now: int): Rows {
    map k | k in rows && !Expired(rows[k], now) :: rows[k]
  }

  /** UPDATE course_enrollments of migration 0008. */
  function Normalized(rows: Rows): Rows {
    map k | k in rows ::
      var e := rows[k];
      if e.expiresAt.None? || e.expiresAt.value > e.enrolledAt + Days(31)
      then e.(expiresAt := Some(e.enrolledAt + Days(30))) else e
  }

  // --- Statements over the tables ------------------------------------------------------

  /** `seats` is the limit of a course, 0 for none. */
  datatype Db = Db(totals: Totals, rows: Rows, seats: map<CourseId, nat>)

  datatype Fix = DecrementTotals | DeleteExpired

  /** One statement tried in a transaction of its own; a failure is logged and skipped. */
  datatype Attempt = Attempt(fix: Fix, at: int, succeeds: bool)

  function Applied(db: Db, a: Attempt): Db {
    if !a.succeeds then db
    else match a.fix
      case DecrementTotals => db.(totals := Decremented(db.totals, db.rows, a.at))
      case DeleteExpired => db.(rows := Swept(db.rows, a.at))
  }

  function Sweep(db: Db, t1: int, ok1: bool, t2: int, ok2: bool): Db {
    Applied(Applied(db, Attempt(DecrementTotals, t1, ok1)), Attempt(DeleteExpired, t2, ok2))
  }

  // --- Enrolling and unenrolling -------------------------------------------------------

  /** Active and not expired: what gives access to a course. */
  predicate Current(e: Enrollment, now: int) {
    e.active && (e.expiresAt.None? || e.expiresAt.value > now)
  }

  function CurrentIn(rows: Rows, c: CourseId, now: int): set<Key> {
    set k | k in rows && k.course == c && Current(rows[k], now)
  }

  predicate Holds(rows: Rows, k: Key, now: int) { k in rows && Current(rows[k], now) }

  function Granted(now: int): Enrollment { Enrollment(true, now, Some(now + Days(30))) }

  /** A counter is taken down only from above zero. */
  function Less(n: int): int { if n > 0 then n - 1 else n }

  /** A teacher unenrolls a student: the service takes one off the counter and deletes the row,
      and the repository, deleting it, takes off another. */
  function Unenrolled(db: Db, k: Key): Db {
    if k !in db.rows || k.course !in db.totals then db
    else db.(totals := db.totals[k.course := Less(Less(db.totals[k.course]))], rows := db.rows - {k})
  }

  /** A teacher enrolls a student: refused while one is enrolled, and by the index after that. */
  function Enrolled(db: Db, k: Key, now: int): Db {
    if k.course !in db.totals || k in db.rows then db
    else db.(totals := db.totals[k.course := db.totals[k.course] + 1], rows := db.rows[k := Granted(now)])
  }

  /** A captured payment: a lapsed row is reactivated, and counted again. */
  function Paid(db: Db, k: Key, now: int): Db {
    if k.course !in db.totals || Holds(db.rows, k, now) then db
    else db.(totals := db.totals[k.course := db.totals[k.course] + 1], rows := db.rows[k := Granted(now)])
  }

  predicate Full(db: Db, c: CourseId, now: int) {
    c in db.seats && db.seats[c] > 0 && |CurrentIn(db.rows, c, now)| >= db.seats[c]
  }

  predicate TakesIn(db: Db, k: Key, now: int) {
    k.course in db.totals && !Holds(db.rows, k, now) && !Full(db, k.course, now)
  }

  /** A student enrolls: the counter becomes the current rows and one. */
  function SelfEnrolled(db: Db, k: Key, now: int): Db {
    if !TakesIn(db, k, now) then db
    else db.(totals := db.totals[k.course := |CurrentIn(db.rows, k.course, now)| + 1], rows := db.rows[k := Granted(now)])
  }

  /** A teacher suspends or reactivates an enrollment. */
  function WithStatus(db: Db, k: Key, active: bool): Db {
    if k in db.rows then db.(rows := db.rows[k := db.rows[k].(active := active)]) else db
  }

  predicate Chosen(k: Key, student: Option<StudentId>, course: Option<CourseId>) {
    (student.Some? ==> k.student == student.value) && (course.Some? ==> k.course == course.value)
  }

  function ExpiredOf(rows: Rows, student: Option<StudentId>, course: Option<CourseId>, now: int): set<Key> {
    set k | k in rows && Chosen(k, student, course) && Expired(rows[k], now)
  }

  /** The sweep that reading pages trigger, over one student or course or all. */
  function AutoUnenrolled(db: Db, student: Option<StudentId>, course: Option<CourseId>, now: int): Db {
    var gone := ExpiredOf(db.rows, student, course, now);
    db.(totals := map c | c in db.totals :: LessBy(db.totals[c], |set k | k in gone && k.course == c|),
        rows := db.rows - gone)
  }

  function LessBy(n: int, count: nat): int { if count == 0 || n == 0 then n else Max(0, n - count) }

  function OnCourse(ks: set<Key>, c: CourseId): set<Key> { set k | k in ks && k.course == c }

  // --- Commits --------------------------------------------------------------------------

  /** What commits, one transaction at a time, in whatever order any number of workers get to it.
      The two statements of a startup are transactions of their own. Unenrolling, enrolling
      oneself and the sweep of a page read a counter and write it back as a literal: `seen` is what
      they read, which may be out of date, and so may the rows they `counted` or `picked`. */
  datatype Event =
    | CountOff(now: int)
    | DeleteRows(now: int)
    | Unenroll(k: Key, seen: int)
    | TeacherEnroll(k: Key, now: int)
    | Payment(k: Key, now: int)
    | StudentEnroll(k: Key, now: int, counted: nat, seen: int)
    | SetStatus(k: Key, active: bool)
    | AutoSweep(picked: set<Key>, read: Totals)

  /** A value that did not change is not written. */
  function Written(present: int, seen: int, value: int): int { if value == seen then present else value }

  /** What an event makes of one counter. */
  function TotalAfter(db: Db, e: Event, c: CourseId): int
    requires c in db.totals
  {
    var present := db.totals[c];
    match e
    case CountOff(now) =>
      var expired := ExpiredIn(db.rows, c, now);
      if expired != {} then Max(0, present - |expired|) else present
    case DeleteRows(_) => present
    case Unenroll(k, seen) => if k.course == c then Written(present, seen, Less(Less(seen))) else present
    case TeacherEnroll(k, _) => if k.course == c && k !in db.rows then present + 1 else present
    case Payment(k, now) => if k.course == c && !Holds(db.rows, k, now) then present + 1 else present
    case StudentEnroll(k, _, counted, seen) => if k.course == c then Written(present, seen, counted + 1) else present
    case SetStatus(_, _) => present
    case AutoSweep(picked, seen) =>
      if c in seen then Written(present, seen[c], LessBy(seen[c], |OnCourse(picked, c)|)) else present
  }

  /** What it makes of the rows. */
  function RowsAfter(db: Db, e: Event): Rows {
    match e
    case CountOff(_) => db.rows
    case DeleteRows(now) => Swept(db.rows, now)
    case Unenroll(k, _) => db.rows - {k}
    case TeacherEnroll(k, now) => if k.course in db.totals && k !in db.rows then db.rows[k := Granted(now)] else db.rows
    case Payment(k, now) => if k.course in db.totals && !Holds(db.rows, k, now) then db.rows[k := Granted(now)] else db.rows
    case StudentEnroll(k, now, _, _) => if k.course in db.totals then db.rows[k := Granted(now)] else db.rows
    case SetStatus(k, active) => WithStatus(db, k, active).rows
    case AutoSweep(picked, _) => db.rows - picked
  }

  function Step(db: Db, e: Event): Db {
    db.(totals := map c | c in db.totals :: TotalAfter(db, e, c), rows := RowsAfter(db, e))
  }

  function Exec(db: Db, run: seq<Event>): Db
    decreases |run|
  {
    if run == [] then db else Exec(Step(db, run[0]), run[1..])
  }

  /** The statement of a startup, if it succeeds. */
  function Commits(a: Attempt): seq<Event> {
    if !a.succeeds then [] else if a.fix.DecrementTotals? then [CountOff(a.at)] else [DeleteRows(a.at)]
  }

  /** The attempts from number `i` on, each followed by what others commit. */
  function FixesRun(db: Db, attempts: seq<Attempt>, others: nat -> seq<Event>, i: nat): Db
    decreases |attempts| - i
  {
    if i >= |attempts| then db else FixesRun(Exec(Applied(db, attempts[i]), others(i)), attempts, others, i + 1)
  }

  class EnrollmentTables {
    var totals: Totals
    var rows: Rows
    var seats: map<CourseId, nat>

    ghost function Now(): Db
      reads this
    {
      Db(totals, rows, seats)
    }

    constructor (totals: Totals, seats: map<CourseId, nat>)
      ensures Now() == Db(totals, map[], seats)
    {
      this.totals, rows, this.seats := totals, map[], seats;
    }

    /** One transaction of someone else. */
    method Commit(e: Event)
      modifies this
      ensures Now() == Step(old(Now()), e)
    {
      ghost var was := Now();
      totals, rows := map c | c in totals :: TotalAfter(Db(totals, rows, seats), e, c), RowsAfter(Db(totals, rows, seats), e);
      assert Now() == Step(was, e);
    }

    /** What others commit between two steps of a transaction or a loop. */
    method Others(events: seq<Event>)
      modifies this
      ensures Now() == Exec(old(Now()), events)
    {
      for i := 0 to |events|
        invariant Exec(Now(), events[i..]) == Exec(old(Now()), events)
      {
        assert events[i..][1..] == events[i + 1..];
        Commit(events[i]);
      }
    }

    /** The counter of a course, as a session writes it back. */
    method WriteBack(c: CourseId, seen: int, value: int)
      modifies this`totals
      ensures totals == if c in old(totals) then old(totals)[c := Written(old(totals)[c], seen, value)] else old(totals)
    {
      if c in totals && value != seen {
        totals := totals[c := value];
      }
    }

    /** Others may commit between the reads and the writes. */
    method UnenrollStudent(k: Key, others: seq<Event>) returns (found: bool)
      modifies this
      ensures found <==> k in old(rows) && k.course in old(totals)
      ensures Now() == if found then Step(Exec(old(Now()), others), Unenroll(k, old(totals)[k.course])) else old(Now())
    {
      if k !in rows || k.course !in totals {
        return false;
      }
      var seen := totals[k.course];
      Others(others);
      ghost var was := Now();
      var count := seen;
      if count > 0 {
        count := count - 1;
      }
      rows := rows - {k};
      if count > 0 {
        count := count - 1;
      }
      WriteBack(k.course, seen, count);
      assert Now() == Step(was, Unenroll(k, seen));
      found := true;
    }

    method EnrollStudent(k: Key, now: int) returns (done: bool)
      modifies this
      ensures Now() == Enrolled(old(Now()), k, now)
      ensures done <==> k.course in old(totals) && k !in old(rows)
    {
      if k.course !in totals || Holds(rows, k, now) || k in rows {
        return false;
      }
      rows := rows[k := Granted(now)];
      totals := totals[k.course := totals[k.course] + 1];
      done := true;
    }

    method GrantAccess(k: Key, now: int)
      requires k.course in totals
      modifies this
      ensures Now() == Paid(old(Now()), k, now)
    {
      if k in rows {
        if Current(rows[k], now) {
          return;
        }
        rows := rows[k := rows[k].(active := true, enrolledAt := now, expiresAt := Some(now + Days(30)))];
      } else {
        rows := rows[k := Granted(now)];
      }
      totals := totals[k.course := totals[k.course] + 1];
    }

    method EnrollSelf(k: Key, now: int, others: seq<Event>) returns (done: bool)
      modifies this
      ensures done <==> TakesIn(old(Now()), k, now)
      ensures Now() == if done then Step(Exec(old(Now()), others),
                                         StudentEnroll(k, now, |CurrentIn(old(rows), k.course, now)|, old(totals)[k.course]))
                       else old(Now())
    {
      if k.course !in totals || Holds(rows, k, now) {
        return false;
      }
      var seen, count := totals[k.course], |CurrentIn(rows, k.course, now)|;
      if k.course in seats && seats[k.course] > 0 && count >= seats[k.course] {
        return false;
      }
      Others(others);
      ghost var was := Now();
      if k.course in totals {
        rows := rows[k := Granted(now)];
      }
      WriteBack(k.course, seen, count + 1);
      assert Now() == Step(was, StudentEnroll(k, now, count, seen));
      done := true;
    }

    method UpdateStatus(k: Key, active: bool)
      modifies this
      ensures Now() == WithStatus(old(Now()), k, active)
    {
      if k in rows {
        rows := rows[k := rows[k].(active := active)];
      }
    }

    method AutoUnenroll(student: Option<StudentId>, course: Option<CourseId>, now: int, others: seq<Event>) returns (count: nat)
      modifies this
      ensures count == |ExpiredOf(old(rows), student, course, now)|
      ensures Now() == Step(Exec(old(Now()), others), AutoSweep(ExpiredOf(old(rows), student, course, now), old(totals)))
    {
      var picked, seen := ExpiredOf(rows, student, course, now), totals;
      Others(others);
      ghost var was := Now();
      totals := map c | c in totals ::
        if c in seen then Written(totals[c], seen[c], LessBy(seen[c], |OnCourse(picked, c)|)) else totals[c];
      rows := rows - picked;
      assert Now() == Step(was, AutoSweep(picked, seen));
      count := |picked|;
    }

    method Execute(fix: Fix, now: int)
      modifies this
      ensures Now() == Applied(old(Now()), Attempt(fix, now, true))
    {
      match fix {
        case DecrementTotals => totals := Decremented(totals, rows, now);
        case DeleteExpired => rows := Swept(rows, now);
      }
    }

    /** The startup loop over the data-fix patches; `others(i)` commits after attempt number i. */
    method RunFixes(attempts: seq<Attempt>, others: nat -> seq<Event>)
      modifies this
      ensures Now() == FixesRun(old(Now()), attempts, others, 0)
    {
      for i := 0 to |attempts|
        invariant FixesRun(Now(), attempts, others, i) == FixesRun(old(Now()), attempts, others, 0)
      {
        if attempts[i].succeeds {
          Execute(attempts[i].fix, attempts[i].at);
        }
        Others(others(i));
      }
    }

    /** The two enrollment statements of one worker. */
    method StartupSweep(t1: int, ok1: bool, between: seq<Event>, t2: int, ok2: bool)
      modifies this
      ensures Now() == Applied(Exec(Applied(old(Now()), Attempt(DecrementTotals, t1, ok1)), between), Attempt(DeleteExpired, t2, ok2))
    {
      if ok1 {
        Execute(DecrementTotals, t1);
      }
      Others(between);
      if ok2 {
        Execute(DeleteExpired, t2);
      }
    }

    /** Migration 0009: both statements in one transaction, so with one NOW(). */
    method Migrate0009(now: int)
      modifies this
      ensures Now() == Sweep(old(Now()), now, true, now, true)
    {
      Execute(DecrementTotals, now);
      Execute(DeleteExpired, now);
    }

    method Migrate0008()
      modifies this
      ensures Now() == old(Now()).(rows := Normalized(old(rows)))
    {
      rows := Normalized(rows);
    }
  }

  // --- How far a counter is from its table ------------------------------------------------

  function Drift(db: Db, c: CourseId): int
    requires c in db.totals
  {
    db.totals[c] - |In(db.rows, c)|
  }

  /** Deleting leaves exactly the rows that have not expired. */
  lemma DeleteCounts(rows: Rows, c: CourseId, now: int)
    ensures |In(Swept(rows, now), c)| == |In(rows, c)| - |ExpiredIn(rows, c, now)|
    ensures |ExpiredIn(rows, c, now)| <= |In(rows, c)|
  {
    SubsetSize(ExpiredIn(rows, c, now), In(rows, c));
    assert In(Swept(rows, now), c) == In(rows, c) - ExpiredIn(rows, c, now);
  }

  lemma ExpiryIsMonotone(rows: Rows, c: CourseId, t1: int, t2: int)
    requires t1 <= t2
    ensures ExpiredIn(rows, c, t1) <= ExpiredIn(rows, c, t2)
    ensures |ExpiredIn(rows, c, t2) - ExpiredIn(rows, c, t1)| == |ExpiredIn(rows, c, t2)| - |ExpiredIn(rows, c, t1)|
  {
    SubsetSize(ExpiredIn(rows, c, t1), ExpiredIn(rows, c, t2));
  }

  /** What a sweep adds to the drift of a course: the rows that expired between its two clocks,
      or every expired one when only the deletion went through; and what it takes, the rows it
      counted off and then failed to delete. */
  function Missed(db: Db, c: CourseId, t1: int, ok1: bool, t2: int, ok2: bool): int {
    if ok1 && ok2 then |ExpiredIn(db.rows, c, t2) - ExpiredIn(db.rows, c, t1)|
    else if ok2 then |ExpiredIn(db.rows, c, t2)|
    else if ok1 then -|ExpiredIn(db.rows, c, t1)|
    else 0
  }

  /** On a counter that does not under-count a sweep changes the drift by exactly that, and its
      clamp to zero does not fire. */
  lemma SweepDrift(db: Db, c: CourseId, t1: int, ok1: bool, t2: int, ok2: bool)
    requires t1 <= t2 && c in db.totals && Drift(db, c) >= 0
    ensures Drift(Sweep(db, t1, ok1, t2, ok2), c) == Drift(db, c) + Missed(db, c, t1, ok1, t2, ok2)
    ensures db.totals[c] - |ExpiredIn(db.rows, c, t1)| >= 0
  {
    DeleteCounts(db.rows, c, t1);
    DeleteCounts(db.rows, c, t2);
    ExpiryIsMonotone(db.rows, c, t1, t2);
  }

  /** From an exact counter, a sweep leaves it under-counting exactly when it decremented and
      then failed to delete the rows it had counted. */
  lemma UnderCountsIff(db: Db, c: CourseId, t1: int, ok1: bool, t2: int, ok2: bool)
    requires t1 <= t2 && c in db.totals && Drift(db, c) == 0
    ensures Drift(Sweep(db, t1, ok1, t2, ok2), c) < 0 <==> ok1 && !ok2 && ExpiredIn(db.rows, c, t1) != {}
  {
    SweepDrift(db, c, t1, ok1, t2, ok2);
  }

  // --- The other writers -----------------------------------------------------------------

  /** Taking one row off and two from the counter: the drift falls by one, unless the counter was
      down to one. */
  lemma UnenrollDrift(db: Db, k: Key, c: CourseId)
    requires c in db.totals && Drift(db, c) >= 0
    ensures Drift(Unenrolled(db, k), c) == Drift(db, c) - if k in db.rows && k.course == c && db.totals[c] > 1 then 1 else 0
  {
    assert In(db.rows - {k}, c) == In(db.rows, c) - {k};
    assert k in db.rows && k.course == c <==> k in In(db.rows, c);
  }

  lemma AddRow(rows: Rows, k: Key, e: Enrollment, c: CourseId)
    ensures In(rows[k := e], c) == if k.course == c then In(rows, c) + {k} else In(rows, c)
  {
  }

  lemma EnrollDrift(db: Db, k: Key, now: int, c: CourseId)
    requires c in db.totals
    ensures Drift(Enrolled(db, k, now), c) == Drift(db, c)
  {
    AddRow(db.rows, k, Granted(now), c);
  }

  /** A payment for a lapsed enrollment counts its row a second time. */
  lemma PaidDrift(db: Db, k: Key, now: int, c: CourseId)
    requires c in db.totals
    ensures Drift(Paid(db, k, now), c) == Drift(db, c) + if k in db.rows && k.course == c && !Current(db.rows[k], now) then 1 else 0
  {
    AddRow(db.rows, k, Granted(now), c);
    if k in db.rows && k.course == c {
      assert In(db.rows, c) + {k} == In(db.rows, c);
    }
  }

  /** The rows of a course that give no access, but are rows. */
  function LapsedIn(rows: Rows, c: CourseId, now: int): set<Key> { In(rows, c) - CurrentIn(rows, c, now) }

  /** When a student enrolls the counter forgets whatever it was, and under-counts by every row
      of the course that is suspended or has expired. */
  lemma SelfEnrollDrift(db: Db, k: Key, now: int, c: CourseId)
    requires c in db.totals
    ensures Drift(SelfEnrolled(db, k, now), c) ==
            if TakesIn(db, k, now) && k.course == c then -|LapsedIn(db.rows, c, now) - {k}| else Drift(db, c)
  {
    AddRow(db.rows, k, Granted(now), c);
    if TakesIn(db, k, now) && k.course == c {
      assert k !in CurrentIn(db.rows, c, now);
      OneJoins(In(db.rows, c), CurrentIn(db.rows, c, now), k);
    }
  }

  lemma OneJoins(all: set<Key>, some: set<Key>, k: Key)
    requires some <= all && k !in some
    ensures |some| + 1 - |all + {k}| == -|all - some - {k}|
  {
    SubsetSize(some + {k}, all + {k});
    assert all + {k} - (some + {k}) == all - some - {k};
  }

  lemma StatusDrift(db: Db, k: Key, active: bool, c: CourseId)
    requires c in db.totals
    ensures Drift(WithStatus(db, k, active), c) == Drift(db, c)
  {
    assert In(WithStatus(db, k, active).rows, c) == In(db.rows, c);
  }

  lemma AutoUnenrollDrift(db: Db, student: Option<StudentId>, course: Option<CourseId>, now: int, c: CourseId)
    requires c in db.totals && Drift(db, c) >= 0
    ensures Drift(AutoUnenrolled(db, student, course, now), c) == Drift(db, c)
  {
    var gone := ExpiredOf(db.rows, student, course, now);
    var here := set k | k in gone && k.course == c;
    SubsetSize(here, In(db.rows, c));
    assert In(db.rows - gone, c) == In(db.rows, c) - here;
  }

  // --- The migrations -----------------------------------------------------------------------

  /** With one clock for both statements nothing is missed: exact counters stay exact, the rows
      left are those not expired, and a second run at the same time changes nothing. */
  lemma OneTransactionConserves(db: Db, now: int)
    requires forall c :: c in db.totals ==> Drift(db, c) == 0
    ensures var db' := Sweep(db, now, true, now, true);
            && (forall c :: c in db.totals ==> c in db'.totals && Drift(db', c) == 0)
            && (forall k :: k in db'.rows <==> k in db.rows && !Expired(db.rows[k], now))
            && Sweep(db', now, true, now, true) == db'
  {
    var db' := Sweep(db, now, true, now, true);
    forall c | c in db.totals ensures Drift(db', c) == 0 {
      SweepDrift(db, c, now, true, now, true);
      assert ExpiredIn(db.rows, c, now) - ExpiredIn(db.rows, c, now) == {};
    }
    assert forall c :: ExpiredIn(db'.rows, c, now) == {};
    assert Decremented(db'.totals, db'.rows, now) == db'.totals;
    assert Swept(db'.rows, now) == db'.rows;
  }

  /** After 0008 every row has an expiry: one that had none, or one more than 31 days after it was
      enrolled, gets it 30 days after, and any other keeps its own; and a sweep deletes, at any time, exactly what it would have deleted before. */
  lemma NormalizedExpiry(rows: Rows, now: int)
    ensures Normalized(rows).Keys == rows.Keys
    ensures forall id :: id in rows ==>
              var e, e' := rows[id], Normalized(rows)[id];
              && e'.enrolledAt == e.enrolledAt && e'.active == e.active
              && e'.expiresAt == (if e.expiresAt.Some? && e.expiresAt.value <= e.enrolledAt + 2_678_400_000 then e.expiresAt
                                  else Some(e.enrolledAt + 2_592_000_000))
              && (Expired(e', now) <==> Expired(e, now))
    ensures Normalized(Normalized(rows)) == Normalized(rows)
  {
  }

  // --- Who has access, and for how long --------------------------------------------------------

  /** Active, with no expiry or one to come. */
  predicate HasAccess(rows: Rows, k: Key, now: int) {
    k in rows && rows[k].active && (rows[k].expiresAt.None? || now < rows[k].expiresAt.value)
  }

  function WithAccess(rows: Rows, c: CourseId, now: int): set<Key> {
    set k | k in rows && k.course == c && HasAccess(rows, k, now)
  }

  /** Access from `now` for 30 days of 86,400,000 milliseconds, and no longer; nobody else's row and
      no other course's counter is touched. */
  ghost predicate GivesThirtyDays(db: Db, db': Db, k: Key, now: int) {
    && k in db'.rows && db'.rows == db.rows[k := db'.rows[k]] && db'.rows[k].enrolledAt == now
    && (forall t :: t >= now ==> (HasAccess(db'.rows, k, t) <==> t < now + 2_592_000_000))
    && k.course in db'.totals && db'.totals == db.totals[k.course := db'.totals[k.course]] && db'.seats == db.seats
  }

  /** A teacher enrolls whoever has no row of the course. */
  lemma TeacherEnrollIs(db: Db, k: Key, now: int)
    ensures var db' := Enrolled(db, k, now);
            if k.course in db.totals && k !in db.rows then
              GivesThirtyDays(db, db', k, now) && db'.totals[k.course] == db.totals[k.course] + 1
            else db' == db
  {
  }

  /** A payment gives access to whoever has none. */
  lemma PaymentIs(db: Db, k: Key, now: int)
    ensures var db' := Paid(db, k, now);
            if k.course in db.totals && !HasAccess(db.rows, k, now) then
              GivesThirtyDays(db, db', k, now) && db'.totals[k.course] == db.totals[k.course] + 1
            else db' == db
  {
  }

  /** A student who has no access is taken in exactly while the course has no limit of seats or
      fewer have access; and never takes it past its limit. */
  lemma SelfEnrollIs(db: Db, k: Key, now: int)
    ensures var db' := SelfEnrolled(db, k, now);
            var taken := WithAccess(db.rows, k.course, now);
            var limited := k.course in db.seats && db.seats[k.course] > 0;
            if k.course in db.totals && !HasAccess(db.rows, k, now) && (limited ==> |taken| < db.seats[k.course]) then
              && GivesThirtyDays(db, db', k, now)
              && WithAccess(db'.rows, k.course, now) == taken + {k} && k !in taken
              && db'.totals[k.course] == |taken| + 1
              && (limited ==> |WithAccess(db'.rows, k.course, now)| <= db.seats[k.course])
            else db' == db
  {
    assert CurrentIn(db.rows, k.course, now) == WithAccess(db.rows, k.course, now);
    var db' := SelfEnrolled(db, k, now);
    if db' != db {
      assert WithAccess(db'.rows, k.course, now) == WithAccess(db.rows, k.course, now) + {k};
    }
  }

  /** Unenrolling deletes the row there is, and takes the counter down twice, stopping at zero. */
  lemma UnenrollIs(db: Db, k: Key)
    ensures var db' := Unenrolled(db, k);
            if k in db.rows && k.course in db.totals then
              && db'.rows == db.rows - {k} && db'.seats == db.seats
              && db'.totals == db.totals[k.course := db'.totals[k.course]]
              && (db.totals[k.course] >= 2 ==> db'.totals[k.course] == db.totals[k.course] - 2)
              && (0 <= db.totals[k.course] < 2 ==> db'.totals[k.course] == 0)
            else db' == db
  {
  }

  /** Suspending and reactivating change that one flag. */
  lemma StatusIs(db: Db, k: Key, active: bool)
    ensures var db' := WithStatus(db, k, active);
            if k in db.rows then
              db' == db.(rows := db.rows[k := Enrollment(active, db.rows[k].enrolledAt, db.rows[k].expiresAt)])
            else db' == db
  {
  }

  /** What a sweep deletes: the rows whose expiry has come, or that were enrolled 30 days ago or
      more; the page-triggered one only those of the student and the course it is for. */
  lemma SweptIff(db: Db, student: Option<StudentId>, course: Option<CourseId>, k: Key, now: int)
    requires k in db.rows
    ensures var e := db.rows[k];
            var over := e.enrolledAt + 2_592_000_000 <= now || (e.expiresAt.Some? && e.expiresAt.value <= now);
            && (k in Swept(db.rows, now) <==> !over) && (!over ==> Swept(db.rows, now)[k] == e)
            && (k in AutoUnenrolled(db, student, course, now).rows <==>
                  !over || (student.Some? && k.student != student.value) || (course.Some? && k.course != course.value))
  {
  }
}
