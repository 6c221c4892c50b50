/** The enrollment counter over runs: one transaction after another, and with the commits of any
    number of workers interleaved. */
module EnrollmentRuns {
  import opened Basics
  import opened Wrappers
  import opened EnrollmentSweep

  // --- One transaction after another, and one startup after another --------------------------

  /** What happens when nothing commits inside anything else: a startup's two statements together,
      and every other transaction reading what is there. */
  datatype Turn =
    | Startup(t1: int, ok1: bool, t2: int, ok2: bool)
    | TeacherUnenrolls(k: Key)
    | TeacherEnrolls(k: Key, now: int)
    | Pays(k: Key, now: int)
    | StudentEnrolls(k: Key, now: int)
    | StatusSet(k: Key, active: bool)
    | PageRead(student: Option<StudentId>, course: Option<CourseId>, now: int)

  function Take(db: Db, turn: Turn): Db {
    match turn
    case Startup(t1, ok1, t2, ok2) => Sweep(db, t1, ok1, t2, ok2)
    case TeacherUnenrolls(k) => Unenrolled(db, k)
    case TeacherEnrolls(k, now) => Enrolled(db, k, now)
    case Pays(k, now) => Paid(db, k, now)
    case StudentEnrolls(k, now) => SelfEnrolled(db, k, now)
    case StatusSet(k, active) => WithStatus(db, k, active)
    case PageRead(student, course, now) => AutoUnenrolled(db, student, course, now)
  }

  function TakeAll(db: Db, turns: seq<Turn>): Db
    decreases |turns|
  {
    if turns == [] then db else TakeAll(Take(db, turns[0]), turns[1..])
  }

  /** A startup reads the clock twice, in order. */
  predicate Clocked(e: Turn) { e.Startup? ==> e.t1 <= e.t2 }

  /** By how much a turn changes the drift of a course that is not under-counted. */
  function TurnChange(db: Db, e: Turn, c: CourseId): int
    requires c in db.totals
  {
    match e
    case Startup(t1, ok1, t2, ok2) => Missed(db, c, t1, ok1, t2, ok2)
    case TeacherUnenrolls(k) => if k in db.rows && k.course == c && db.totals[c] > 1 then -1 else 0
    case Pays(k, now) => if k in db.rows && k.course == c && !Current(db.rows[k], now) then 1 else 0
    case StudentEnrolls(k, now) =>
      if TakesIn(db, k, now) && k.course == c then -|LapsedIn(db.rows, c, now) - {k}| - Drift(db, c) else 0
    case _ => 0
  }

  /** The turns that can leave a course under-counted, and when they do not: an unenrollment from
      a counter above its rows or down to one, a student enrolling where every other row gives
      access, a sweep whose deletion fails with no more counted off than was counted too much. */
  ghost predicate Spares(db: Db, e: Turn, c: CourseId)
    requires c in db.totals
  {
    match e
    case Startup(t1, ok1, t2, ok2) => ok1 && !ok2 ==> |ExpiredIn(db.rows, c, t1)| <= Drift(db, c)
    case TeacherUnenrolls(k) => k in db.rows && k.course == c ==> db.totals[c] == 1 || Drift(db, c) > 0
    case StudentEnrolls(k, now) =>
      TakesIn(db, k, now) && k.course == c ==>
        forall other :: other in db.rows && other.course == c && other != k ==> Current(db.rows[other], now)
    case _ => true
  }

  lemma TurnDrift(db: Db, e: Turn, c: CourseId)
    requires Clocked(e) && c in db.totals && Drift(db, c) >= 0
    ensures c in Take(db, e).totals
    ensures Drift(Take(db, e), c) == Drift(db, c) + TurnChange(db, e, c)
  {
    match e {
      case Startup(t1, ok1, t2, ok2) => SweepDrift(db, c, t1, ok1, t2, ok2);
      case TeacherUnenrolls(k) => UnenrollDrift(db, k, c);
      case TeacherEnrolls(k, now) => EnrollDrift(db, k, now, c);
      case Pays(k, now) => PaidDrift(db, k, now, c);
      case StudentEnrolls(k, now) => SelfEnrollDrift(db, k, now, c);
      case StatusSet(k, active) => StatusDrift(db, k, active, c);
      case PageRead(student, course, now) => AutoUnenrollDrift(db, student, course, now, c);
    }
  }

  /** A turn leaves a course that was not under-counted so, exactly when it spares it. */
  lemma TurnSparesIff(db: Db, e: Turn, c: CourseId)
    requires Clocked(e) && c in db.totals && Drift(db, c) >= 0
    ensures Drift(db, c) + TurnChange(db, e, c) >= 0 <==> Spares(db, e, c)
  {
    match e {
      case TeacherUnenrolls(k) =>
        if k in db.rows && k.course == c {
          assert k in In(db.rows, c);
        }
      case StudentEnrolls(k, now) =>
        if TakesIn(db, k, now) && k.course == c {
          LapsedIff(db, k, now, c);
        }
      case _ =>
    }
  }

  lemma LapsedIff(db: Db, k: Key, now: int, c: CourseId)
    ensures |LapsedIn(db.rows, c, now) - {k}| == 0 <==>
            forall other :: other in db.rows && other.course == c && other != k ==> Current(db.rows[other], now)
  {
    var lapsed := LapsedIn(db.rows, c, now) - {k};
    forall other | other in db.rows && other.course == c && other != k ensures other in lapsed <==> !Current(db.rows[other], now) {
    }
    if |lapsed| > 0 {
      var other :| other in lapsed;
      assert !Current(db.rows[other], now);
    }
  }

  ghost predicate NeverUnder(db: Db, run: seq<Turn>, c: CourseId)
    requires c in db.totals
    decreases |run|
  {
    Drift(db, c) >= 0 && (run == [] || (c in Take(db, run[0]).totals && NeverUnder(Take(db, run[0]), run[1..], c)))
  }

  ghost predicate AlwaysSpares(db: Db, run: seq<Turn>, c: CourseId)
    requires c in db.totals
    decreases |run|
  {
    run == [] ||
    (Spares(db, run[0], c) && c in Take(db, run[0]).totals && AlwaysSpares(Take(db, run[0]), run[1..], c))
  }

  /** What the turns of a run add up to. */
  function TurnChanges(db: Db, run: seq<Turn>, c: CourseId): int
    requires c in db.totals
    decreases |run|
  {
    if run == [] || c !in Take(db, run[0]).totals then 0
    else TurnChange(db, run[0], c) + TurnChanges(Take(db, run[0]), run[1..], c)
  }

  /** When nothing commits inside anything else: a course is under-counted after no turn exactly
      when every turn spares it; and then its counter exceeds its rows by what it did at the start
      and the changes of the run, no more and no less. */
  lemma {:induction false} LoneRunDrift(db: Db, run: seq<Turn>, c: CourseId)
    requires (forall e :: e in run ==> Clocked(e)) && c in db.totals && Drift(db, c) >= 0
    ensures NeverUnder(db, run, c) <==> AlwaysSpares(db, run, c)
    ensures AlwaysSpares(db, run, c) ==>
              c in TakeAll(db, run).totals && Drift(TakeAll(db, run), c) == Drift(db, c) + TurnChanges(db, run, c) >= 0
    decreases |run|
  {
    if run != [] {
      TurnDrift(db, run[0], c);
      TurnSparesIff(db, run[0], c);
      if Spares(db, run[0], c) {
        LoneRunDrift(Take(db, run[0]), run[1..], c);
      }
    }
  }

  /** Startups that nothing interrupts, and the sweeps of pages, never under-count while no deletion
      fails after its decrement: every one of them spares every course, so LoneRunDrift applies. */
  lemma {:induction false} LoneSweepsSpare(db: Db, run: seq<Turn>, c: CourseId)
    requires c in db.totals && Drift(db, c) >= 0
    requires forall e :: e in run ==> Clocked(e) && ((e.Startup? && (e.ok1 ==> e.ok2)) || e.PageRead?)
    ensures AlwaysSpares(db, run, c)
    decreases |run|
  {
    if run != [] {
      TurnDrift(db, run[0], c);
      LoneSweepsSpare(Take(db, run[0]), run[1..], c);
    }
  }

  // --- Everything interleaved ----------------------------------------------------------------

  /** The rows of a course that an event takes away or brings. */
  function RowChange(db: Db, e: Event, c: CourseId): int {
    match e
    case DeleteRows(now) => -|ExpiredIn(db.rows, c, now)|
    case Unenroll(k, _) => if k.course == c && k in db.rows then -1 else 0
    case TeacherEnroll(k, _) => if k.course == c && c in db.totals && k !in db.rows then 1 else 0
    case Payment(k, now) => if k.course == c && c in db.totals && k !in db.rows then 1 else 0
    case StudentEnroll(k, _, _, _) => if k.course == c && c in db.totals && k !in db.rows then 1 else 0
    case AutoSweep(picked, _) => -|OnCourse(picked, c) * In(db.rows, c)|
    case _ => 0
  }

  lemma RowsChange(db: Db, e: Event, c: CourseId)
    ensures |In(RowsAfter(db, e), c)| == |In(db.rows, c)| + RowChange(db, e, c)
  {
    match e {
      case CountOff(_) =>
      case DeleteRows(now) => DeleteCounts(db.rows, c, now);
      case Unenroll(k, _) => OneGone(db.rows, k, c);
      case TeacherEnroll(k, now) => AddRow(db.rows, k, Granted(now), c);
      case Payment(k, now) => Regranted(db.rows, k, now, c);
      case StudentEnroll(k, now, _, _) => Regranted(db.rows, k, now, c);
      case SetStatus(k, active) => StatusRows(db, k, active, c);
      case AutoSweep(picked, _) => PickedGone(db.rows, picked, c);
    }
  }

  lemma OneGone(rows: Rows, k: Key, c: CourseId)
    ensures |In(rows - {k}, c)| == |In(rows, c)| - if k.course == c && k in rows then 1 else 0
  {
    assert In(rows - {k}, c) == In(rows, c) - {k};
  }

  lemma StatusRows(db: Db, k: Key, active: bool, c: CourseId)
    ensures In(WithStatus(db, k, active).rows, c) == In(db.rows, c)
  {
  }

  lemma PickedGone(rows: Rows, picked: set<Key>, c: CourseId)
    ensures |In(rows - picked, c)| == |In(rows, c)| - |OnCourse(picked, c) * In(rows, c)|
  {
    var here := OnCourse(picked, c) * In(rows, c);
    assert In(rows - picked, c) == In(rows, c) - here;
    SubsetSize(here, In(rows, c));
  }

  lemma Regranted(rows: Rows, k: Key, now: int, c: CourseId)
    ensures |In(rows[k := Granted(now)], c)| == |In(rows, c)| + if k.course == c && k !in rows then 1 else 0
  {
    AddRow(rows, k, Granted(now), c);
    if k.course == c && k in rows {
      assert In(rows, c) + {k} == In(rows, c);
    }
  }

  /** By how much an event changes the drift of a course. Counting off takes from it and deleting
      gives back; a payment for a lapsed row adds one; a counter written back from a read makes up
      for nothing that has happened since. */
  function Change(db: Db, e: Event, c: CourseId): int
    requires c in db.totals
  {
    match e
    case CountOff(now) => if ExpiredIn(db.rows, c, now) == {} then 0 else -Min(db.totals[c], |ExpiredIn(db.rows, c, now)|)
    case DeleteRows(now) => |ExpiredIn(db.rows, c, now)|
    case Unenroll(k, seen) =>
      if k.course != c then 0
      else (if seen > 0 then Less(Less(seen)) - db.totals[c] else 0) + if k in db.rows then 1 else 0
    case TeacherEnroll(_, _) => 0
    case Payment(k, now) => if k.course == c && k in db.rows && !Current(db.rows[k], now) then 1 else 0
    case StudentEnroll(k, _, counted, seen) =>
      if k.course != c then 0
      else (if seen != counted + 1 then counted + 1 - db.totals[c] else 0) - if k in db.rows then 0 else 1
    case SetStatus(_, _) => 0
    case AutoSweep(picked, read) =>
      var gone := OnCourse(picked, c);
      (if c in read && read[c] != 0 && gone != {} then Max(0, read[c] - |gone|) - db.totals[c] else 0) + |gone * In(db.rows, c)|
  }

  lemma ChangeIs(db: Db, e: Event, c: CourseId)
    requires c in db.totals
    ensures TotalAfter(db, e, c) - db.totals[c] - RowChange(db, e, c) == Change(db, e, c)
  {
    match e {
      case AutoSweep(picked, read) => PageChange(db, picked, read, c);
      case _ =>
    }
  }

  lemma PageChange(db: Db, picked: set<Key>, read: Totals, c: CourseId)
    requires c in db.totals
    ensures TotalAfter(db, AutoSweep(picked, read), c) - db.totals[c] + |OnCourse(picked, c) * In(db.rows, c)| ==
            Change(db, AutoSweep(picked, read), c)
  {
    assert |OnCourse(picked, c)| == 0 <==> OnCourse(picked, c) == {};
  }

  lemma StepChange(db: Db, e: Event, c: CourseId)
    requires c in db.totals
    ensures c in Step(db, e).totals && Drift(Step(db, e), c) == Drift(db, c) + Change(db, e, c)
  {
    RowsChange(db, e, c);
    ChangeIs(db, e, c);
  }

  function Changes(db: Db, run: seq<Event>, c: CourseId): int
    requires c in db.totals
    decreases |run|
  {
    if run == [] then 0 else Change(db, run[0], c) + Changes(Step(db, run[0]), run[1..], c)
  }

  /** Over every interleaving of every writer, out-of-date reads included, the counter exceeds its
      rows by its initial excess and the changes of the run, no more and no less. */
  lemma {:induction false} RunDrift(db: Db, run: seq<Event>, c: CourseId)
    requires c in db.totals
    ensures c in Exec(db, run).totals
    ensures Drift(Exec(db, run), c) == Drift(db, c) + Changes(db, run, c)
    decreases |run|
  {
    if run != [] {
      StepChange(db, run[0], c);
      RunDrift(Step(db, run[0]), run[1..], c);
    }
  }

  // --- Sweeps interleaved ----------------------------------------------------------------------

  /** A statement of some worker's startup, or a page's sweep that read what is there. */
  predicate IsSweep(db: Db, e: Event) {
    e.CountOff? || e.DeleteRows? || (e.AutoSweep? && e.read == db.totals && e.picked <= db.rows.Keys)
  }

  ghost predicate SweepsOnly(db: Db, run: seq<Event>)
    decreases |run|
  {
    run == [] || (IsSweep(db, run[0]) && SweepsOnly(Step(db, run[0]), run[1..]))
  }

  /** The rows of a course that a sweep counts off, and those it deletes. */
  function CountedBy(db: Db, e: Event, c: CourseId): set<Key> {
    match e
    case CountOff(now) => ExpiredIn(db.rows, c, now)
    case AutoSweep(picked, _) => OnCourse(picked, c)
    case _ => {}
  }

  function GoneBy(db: Db, e: Event, c: CourseId): set<Key> {
    match e
    case DeleteRows(now) => ExpiredIn(db.rows, c, now)
    case AutoSweep(picked, _) => OnCourse(picked, c)
    case _ => {}
  }

  /** How often each row is counted off in a run. */
  function CountedOff(db: Db, run: seq<Event>, c: CourseId): multiset<Key>
    decreases |run|
  {
    if run == [] then multiset{} else multiset(CountedBy(db, run[0], c)) + CountedOff(Step(db, run[0]), run[1..], c)
  }

  /** Which rows go. */
  function Gone(db: Db, run: seq<Event>, c: CourseId): set<Key>
    decreases |run|
  {
    if run == [] then {} else GoneBy(db, run[0], c) + Gone(Step(db, run[0]), run[1..], c)
  }

  lemma SweepStep(db: Db, e: Event, c: CourseId)
    requires IsSweep(db, e) && c in db.totals && db.totals[c] >= 0
    ensures c in Step(db, e).totals && Step(db, e).totals[c] == Max(0, db.totals[c] - |CountedBy(db, e, c)|)
    ensures In(Step(db, e).rows, c) == In(db.rows, c) - GoneBy(db, e, c) && GoneBy(db, e, c) <= In(db.rows, c)
  {
  }

  lemma {:induction false} SweepsTakeOff(db: Db, run: seq<Event>, c: CourseId)
    requires SweepsOnly(db, run) && c in db.totals && db.totals[c] >= 0
    ensures var db' := Exec(db, run);
            c in db'.totals && db'.totals[c] == Max(0, db.totals[c] - |CountedOff(db, run, c)|)
    decreases |run|
  {
    if run != [] {
      SweepStep(db, run[0], c);
      SweepsTakeOff(Step(db, run[0]), run[1..], c);
    }
  }

  lemma {:induction false} SweepsDelete(db: Db, run: seq<Event>, c: CourseId)
    requires SweepsOnly(db, run) && c in db.totals && db.totals[c] >= 0
    ensures In(Exec(db, run).rows, c) == In(db.rows, c) - Gone(db, run, c) && Gone(db, run, c) <= In(db.rows, c)
    decreases |run|
  {
    if run != [] {
      SweepStep(db, run[0], c);
      SweepsDelete(Step(db, run[0]), run[1..], c);
    }
  }

  /** However the sweeps of any number of workers and pages interleave, and whichever statements
      fail: a course ends under-counted exactly when it has a row left and its rows were counted
      off more often, all told, than there are rows gone and what the counter had in excess. */
  lemma SweepsUnderCountIff(db: Db, run: seq<Event>, c: CourseId)
    requires SweepsOnly(db, run) && c in db.totals && db.totals[c] >= 0
    ensures c in Exec(db, run).totals
    ensures Drift(Exec(db, run), c) < 0 <==>
            In(Exec(db, run).rows, c) != {} && |CountedOff(db, run, c)| > Drift(db, c) + |Gone(db, run, c)|
  {
    SweepsTakeOff(db, run, c);
    SweepsDelete(db, run, c);
    SubsetSize(Gone(db, run, c), In(db.rows, c));
  }

  /** So never when every row counted off is gone and was counted off once. */
  lemma CountedOnceIsSafe(db: Db, run: seq<Event>, c: CourseId)
    requires SweepsOnly(db, run) && c in db.totals && Drift(db, c) >= 0
    requires CountedOff(db, run, c) <= multiset(Gone(db, run, c))
    ensures c in Exec(db, run).totals && Drift(Exec(db, run), c) >= 0
  {
    SweepsUnderCountIff(db, run, c);
    var counted, gone := CountedOff(db, run, c), multiset(Gone(db, run, c));
    assert gone == counted + (gone - counted);
    assert |Gone(db, run, c)| == |gone| == |counted| + |gone - counted|;
  }

  /** Turns are such runs: a startup that nothing interrupts is its statements in a row. */
  lemma StartupCommits(db: Db, t1: int, ok1: bool, t2: int, ok2: bool)
    ensures Exec(db, Commits(Attempt(DecrementTotals, t1, ok1)) + Commits(Attempt(DeleteExpired, t2, ok2))) == Sweep(db, t1, ok1, t2, ok2)
  {
    var first, second := Commits(Attempt(DecrementTotals, t1, ok1)), Commits(Attempt(DeleteExpired, t2, ok2));
    var db1 := Applied(db, Attempt(DecrementTotals, t1, ok1));
    CommitIsApplied(db, Attempt(DecrementTotals, t1, true));
    CommitIsApplied(db1, Attempt(DeleteExpired, t2, true));
    assert Exec(db1, second) == Sweep(db, t1, ok1, t2, ok2) by {
      if ok2 {
        assert second[1..] == [];
      }
    }
    if ok1 {
      assert (first + second)[0] == CountOff(t1) && (first + second)[1..] == second;
      assert Exec(db, first + second) == Exec(Step(db, CountOff(t1)), second);
    } else {
      assert first + second == second;
    }
  }

  lemma CommitIsApplied(db: Db, a: Attempt)
    requires a.succeeds
    ensures Step(db, if a.fix.DecrementTotals? then CountOff(a.at) else DeleteRows(a.at)) == Applied(db, a)
  {
  }

  /** The other turns are one commit that read what is there, if they commit at all. */
  lemma TurnCommits(db: Db, turn: Turn)
    requires !turn.Startup?
    ensures Take(db, turn) == db || exists e :: Take(db, turn) == Step(db, e)
  {
    match turn {
      case TeacherUnenrolls(k) =>
        if k in db.rows && k.course in db.totals {
          assert Take(db, turn) == Step(db, Unenroll(k, db.totals[k.course]));
        }
      case TeacherEnrolls(k, now) => assert Take(db, turn) == Step(db, TeacherEnroll(k, now));
      case Pays(k, now) => assert Take(db, turn) == Step(db, Payment(k, now));
      case StudentEnrolls(k, now) =>
        if TakesIn(db, k, now) {
          SelfEnrollCommits(db, k, now);
        }
      case StatusSet(k, active) => assert Take(db, turn) == Step(db, SetStatus(k, active));
      case PageRead(student, course, now) =>
        PageCommits(db, student, course, now);
    }
  }

  lemma SelfEnrollCommits(db: Db, k: Key, now: int)
    requires TakesIn(db, k, now)
    ensures SelfEnrolled(db, k, now) == Step(db, StudentEnroll(k, now, |CurrentIn(db.rows, k.course, now)|, db.totals[k.course]))
  {
  }

  lemma PageCommits(db: Db, student: Option<StudentId>, course: Option<CourseId>, now: int)
    ensures AutoUnenrolled(db, student, course, now) == Step(db, AutoSweep(ExpiredOf(db.rows, student, course, now), db.totals))
  {
  }

  // --- Where the counter goes wrong ------------------------------------------------------

  function Row(active: bool): Enrollment { Enrollment(active, 0, None) }

  lemma ThreeRows()
    ensures In(map[Key(1, 7) := Row(true), Key(2, 7) := Row(true), Key(3, 7) := Row(true)], 7) == {Key(1, 7), Key(2, 7), Key(3, 7)}
  {
  }

  /** Three rows and a counter of three: unenrolling one student leaves two and one. */
  lemma UnenrollUnderCounts()
    ensures var db := Db(map[7 := 3], map[Key(1, 7) := Row(true), Key(2, 7) := Row(true), Key(3, 7) := Row(true)], map[]);
            Drift(db, 7) == 0 && Drift(Unenrolled(db, Key(1, 7)), 7) == -1
  {
    var db := Db(map[7 := 3], map[Key(1, 7) := Row(true), Key(2, 7) := Row(true), Key(3, 7) := Row(true)], map[]);
    ThreeRows();
    UnenrollDrift(db, Key(1, 7), 7);
  }

  /** One suspended row and a counter of one: when another student enrolls the counter stays. */
  lemma SelfEnrollUnderCounts()
    ensures var db := Db(map[7 := 1], map[Key(1, 7) := Row(false)], map[]);
            Drift(db, 7) == 0 && Drift(SelfEnrolled(db, Key(2, 7), 0), 7) == -1
  {
    var db := Db(map[7 := 1], map[Key(1, 7) := Row(false)], map[]);
    assert In(db.rows, 7) == {Key(1, 7)} && CurrentIn(db.rows, 7, 0) == {};
    SelfEnrollDrift(db, Key(2, 7), 0, 7);
    assert LapsedIn(db.rows, 7, 0) - {Key(2, 7)} == {Key(1, 7)};
  }

  /** From such a state the clamp of the sweep does fire: two expired rows, counted as one. */
  lemma ClampFires()
    ensures var db := Db(map[7 := 1], map[Key(2, 7) := Row(true), Key(3, 7) := Row(true)], map[]);
            && Drift(db, 7) == -1 && db.totals[7] - |ExpiredIn(db.rows, 7, Days(30))| < 0
            && Sweep(db, Days(30), true, Days(30), true).totals[7] == 0
  {
    var db := Db(map[7 := 1], map[Key(2, 7) := Row(true), Key(3, 7) := Row(true)], map[]);
    assert In(db.rows, 7) == {Key(2, 7), Key(3, 7)} == ExpiredIn(db.rows, 7, Days(30));
  }

  /** Three rows, of which the first has expired by day 30, and a counter of three. */
  const ONE_OF_THREE := Db(map[7 := 3],
                         map[Key(1, 7) := Row(true), Key(2, 7) := Enrollment(true, Days(20), None), Key(3, 7) := Enrollment(true, Days(20), None)],
                         map[])

  lemma OneExpired()
    ensures In(ONE_OF_THREE.rows, 7) == {Key(1, 7), Key(2, 7), Key(3, 7)}
    ensures ExpiredIn(ONE_OF_THREE.rows, 7, Days(30)) == {Key(1, 7)}
    ensures Drift(ONE_OF_THREE, 7) == 0
  {
    assert |{Key(1, 7), Key(2, 7), Key(3, 7)}| == 3;
  }

  /** Two workers start at once, both decrement and then both delete: every statement succeeds,
      and two rows are counted as one. */
  lemma TwoWorkersUnderCount()
    ensures var run := [CountOff(Days(30)), CountOff(Days(30)), DeleteRows(Days(30)), DeleteRows(Days(30))];
            var db' := Exec(ONE_OF_THREE, run);
            SweepsOnly(ONE_OF_THREE, run) && 7 in db'.totals && Drift(db', 7) == -1
  {
    OneExpired();
    var t, db := Days(30), ONE_OF_THREE;
    FourEvents(db, [CountOff(t), CountOff(t), DeleteRows(t), DeleteRows(t)]);
    var db1 := Step(db, CountOff(t));
    var db2 := Step(db1, CountOff(t));
    TwoLeft(Step(Step(db2, DeleteRows(t)), DeleteRows(t)));
  }

  lemma TwoLeft(db: Db)
    requires 7 in db.totals && db.totals[7] == 1
    requires In(db.rows, 7) == {Key(1, 7), Key(2, 7), Key(3, 7)} - {Key(1, 7)}
    ensures Drift(db, 7) == -1
  {
    assert In(db.rows, 7) == {Key(2, 7), Key(3, 7)};
  }

  lemma FourEvents(db: Db, run: seq<Event>)
    requires |run| == 4 && forall e :: e in run ==> e.CountOff? || e.DeleteRows?
    ensures Exec(db, run) == Step(Step(Step(Step(db, run[0]), run[1]), run[2]), run[3]) && SweepsOnly(db, run)
  {
    var db2 := Step(Step(db, run[0]), run[1]);
    assert run[1..][1..] == [run[2], run[3]] && [run[2], run[3]][1..] == [run[3]] && [run[3]][1..] == [];
    assert Exec(Step(db2, run[2]), [run[3]]) == Step(Step(db2, run[2]), run[3]);
    assert SweepsOnly(Step(db2, run[2]), [run[3]]);
    assert Exec(db2, [run[2], run[3]]) == Exec(Step(db2, run[2]), [run[3]]) && SweepsOnly(db2, [run[2], run[3]]);
  }

  /** A page's sweep between the two statements of one startup does the same. */
  lemma PageBetweenUnderCounts()
    ensures var db1 := Step(ONE_OF_THREE, CountOff(Days(30)));
            var db2 := AutoUnenrolled(db1, None, None, Days(30));
            var db3 := Step(db2, DeleteRows(Days(30)));
            7 in db3.totals && Drift(db3, 7) == -1
  {
    OneExpired();
    var t := Days(30);
    var db1 := Step(ONE_OF_THREE, CountOff(t));
    PageTakes(db1, t, 7);
    var db2 := AutoUnenrolled(db1, None, None, t);
    TwoLeft(Step(db2, DeleteRows(t)));
  }

  lemma PageTakes(db: Db, t: int, c: CourseId)
    requires c in db.totals && db.totals[c] >= 0
    ensures var db' := AutoUnenrolled(db, None, None, t);
            && In(db'.rows, c) == In(db.rows, c) - ExpiredIn(db.rows, c, t) && ExpiredIn(db'.rows, c, t) == {}
            && c in db'.totals && db'.totals[c] == Max(0, db.totals[c] - |ExpiredIn(db.rows, c, t)|)
  {
    assert OnCourse(ExpiredOf(db.rows, None, None, t), c) == ExpiredIn(db.rows, c, t);
  }
}
