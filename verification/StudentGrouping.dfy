/** `listStudents`: enrollment rows grouped by student, in one pass over an insertion-ordered map. */
module StudentGrouping {
  import opened Basics

  /** One enrollment row after its fallbacks have been resolved; the status is upper case. */
  datatype Row = Row(studentId: string, fullName: string, courseTitle: string, progress: real, revenue: real, status: string,
                     details: Details)

  /** What an entry copies from the student's first row and never changes. */
  datatype Details = Details(email: string, avatarUrl: string, country: string, attendancePercent: real,
                             lastActiveAt: string, joinedAt: string, courseId: string, enrollmentId: string)

  datatype Student = Student(id: string, fullName: string, enrolledCourses: nat, progressPercent: real,
                             totalRevenue: real, status: string, courseTitle: string, details: Details)

  const SUSPENDED := "SUSPENDED"

  // --- The pieces of the loop --------------------------------------------------------------

  predicate OccursAt(text: string, part: string, i: nat) {
    i + |part| <= |text| && text[i..i + |part|] == part
  }

  /** String.includes. */
  predicate Includes(text: string, part: string) {
    exists i: nat :: i <= |text| && OccursAt(text, part, i)
  }

  /** Math.round. */
  function Round(x: real): real { (x + 0.5).Floor as real }

  function AddTitle(titles: string, title: string): string {
    if title != "" && !Includes(titles, title) then titles + ", " + title else titles
  }

  function First(r: Row): Student {
    Student(r.studentId, r.fullName, 1, r.progress, r.revenue, r.status, r.courseTitle, r.details)
  }

  // --- What a student's entry should be ------------------------------------------------------

  /** The rows of one student, in order. */
  function RowsOf(rows: seq<Row>, id: string): seq<Row> {
    if rows == [] then []
    else RowsOf(Init(rows), id) + (if Last(rows).studentId == id then [Last(rows)] else [])
  }

  /** The students in order of first appearance. */
  function Appearances(rows: seq<Row>): seq<string> {
    if rows == [] then []
    else
      var ids := Appearances(Init(rows));
      if Last(rows).studentId in ids then ids else ids + [Last(rows).studentId]
  }

  function Weight(rows: seq<Row>, w: Row -> real): real {
    if rows == [] then 0.0 else Weight(Init(rows), w) + w(Last(rows))
  }

  function Titles(rows: seq<Row>): string
    requires rows != []
  {
    if |rows| == 1 then rows[0].courseTitle else AddTitle(Titles(Init(rows)), Last(rows).courseTitle)
  }

  function Progress(rows: seq<Row>): real
    requires rows != []
  {
    if |rows| == 1 then rows[0].progress else Round((Progress(Init(rows)) + Last(rows).progress) / 2.0)
  }

  ghost predicate AnySuspended(rows: seq<Row>) {
    exists r :: r in rows && r.status == SUSPENDED
  }

  const REVENUE: Row -> real := (r: Row) => r.revenue

  /** The entry that `mine`, all of a student's rows, calls for. */
  ghost predicate Summarises(s: Student, mine: seq<Row>) {
    && mine != []
    && s.id == mine[0].studentId && s.fullName == mine[0].fullName && s.details == mine[0].details
    && s.enrolledCourses == |mine|
    && s.totalRevenue == Weight(mine, REVENUE)
    && s.courseTitle == Titles(mine)
    && s.progressPercent == Progress(mine)
    && s.status == if AnySuspended(mine) then SUSPENDED else mine[0].status
  }

  // --- One row more ------------------------------------------------------------------------------

  function Merge(s: Student, r: Row): Student {
    s.(enrolledCourses := s.enrolledCourses + 1,
       courseTitle := AddTitle(s.courseTitle, r.courseTitle),
       progressPercent := Round((s.progressPercent + r.progress) / 2.0),
       totalRevenue := s.totalRevenue + r.revenue,
       status := if r.status == SUSPENDED then SUSPENDED else s.status)
  }

  lemma MoreRows(s: Student, mine: seq<Row>, r: Row)
    requires Summarises(s, mine) && r.studentId == s.id
    ensures Summarises(Merge(s, r), mine + [r])
  {
    assert Init(mine + [r]) == mine;
    assert AnySuspended(mine + [r]) <==> AnySuspended(mine) || r.status == SUSPENDED by {
      assert r in mine + [r];
      assert forall x :: x in mine ==> x in mine + [r];
    }
  }

  lemma OneMore(rows: seq<Row>, r: Row, id: string)
    ensures RowsOf(rows + [r], id) == RowsOf(rows, id) + (if r.studentId == id then [r] else [])
    ensures Appearances(rows + [r]) ==
            if r.studentId in Appearances(rows) then Appearances(rows) else Appearances(rows) + [r.studentId]
  {
    assert Init(rows + [r]) == rows;
  }

  /** A student appears exactly when they have a row. */
  lemma {:induction false} AppearsIff(rows: seq<Row>, id: string)
    ensures id in Appearances(rows) <==> RowsOf(rows, id) != []
  {
    if rows != [] {
      AppearsIff(Init(rows), id);
    }
  }

  lemma Associates(a: seq<Row>, b: seq<Row>, c: seq<Row>)
    ensures a + (b + c) == (a + b) + c
  {
  }

  /** The rows of a student are taken out in their order, from any two parts of the list likewise. */
  lemma {:induction false} RowsOfJoin(rows: seq<Row>, more: seq<Row>, id: string)
    ensures RowsOf(rows + more, id) == RowsOf(rows, id) + RowsOf(more, id)
    decreases |more|
  {
    if more == [] {
      assert rows + more == rows;
    } else {
      var before, r := Init(more), Last(more);
      RowsOfJoin(rows, before, id);
      assert more == before + [r];
      Associates(rows, before, [r]);
      OneMore(before, r, id);
      OneMore(rows + before, r, id);
      Associates(RowsOf(rows, id), RowsOf(before, id), if r.studentId == id then [r] else []);
    }
  }

  /** Students are listed in the order of their first rows: the `i`-th has a row before any row of
      the `j`-th. */
  lemma {:induction false} ListedInOrder(rows: seq<Row>, i: nat, j: nat) returns (p: nat)
    requires i < j < |Appearances(rows)|
    ensures p < |rows| && rows[p].studentId == Appearances(rows)[i]
    ensures forall q :: 0 <= q <= p ==> rows[q].studentId != Appearances(rows)[j]
  {
    var before, ids := Init(rows), Appearances(Init(rows));
    assert rows == before + [Last(rows)];
    if j < |ids| {
      p := ListedInOrder(before, i, j);
    } else {
      p := FirstRow(before, ids[i]);
      forall q | 0 <= q <= p ensures rows[q].studentId != Appearances(rows)[j] {
        RowListed(before, q);
      }
    }
  }

  lemma {:induction false} FirstRow(rows: seq<Row>, id: string) returns (p: nat)
    requires id in Appearances(rows)
    ensures p < |rows| && rows[p].studentId == id
  {
    if Last(rows).studentId == id {
      p := |rows| - 1;
    } else {
      p := FirstRow(Init(rows), id);
    }
  }

  lemma {:induction false} RowListed(rows: seq<Row>, q: nat)
    requires q < |rows|
    ensures rows[q].studentId in Appearances(rows)
  {
    if q < |rows| - 1 {
      RowListed(Init(rows), q);
    }
  }

  /** The entry of a student with one row, and with one row more: a course more and its payment more,
      the name and all that is copied from the first row as they were. */
  lemma EntryGrows(s: Student, s': Student, mine: seq<Row>, r: Row)
    requires Summarises(s', mine + [r]) && (mine != [] ==> Summarises(s, mine))
    ensures mine == [] ==> s' == Student(r.studentId, r.fullName, 1, r.progress, r.revenue, r.status, r.courseTitle, r.details)
    ensures mine != [] ==>
              && s'.id == s.id && s'.fullName == s.fullName && s'.details == s.details
              && s'.enrolledCourses == s.enrolledCourses + 1 && s'.totalRevenue == s.totalRevenue + r.revenue
              && s'.status == if r.status == "SUSPENDED" then "SUSPENDED" else s.status
  {
    assert Init(mine + [r]) == mine;
    if mine == [] {
      assert mine + [r] == [r] && Weight([], REVENUE) == 0.0;
    } else {
      assert AnySuspended(mine + [r]) <==> AnySuspended(mine) || r.status == SUSPENDED by {
        assert r in mine + [r];
        assert forall x :: x in mine ==> x in mine + [r];
      }
    }
  }

  // --- The loop ----------------------------------------------------------------------------------

  ghost predicate Grouped(students: map<string, Student>, order: seq<string>, rows: seq<Row>) {
    && order == Appearances(rows)
    && (forall id :: id in students <==> id in order)
    && (forall id :: id in students ==> students[id].id == id && Summarises(students[id], RowsOf(rows, id)))
  }

  /** What the loop does to the entry of a student already seen. */
  method MergeRow(existing: Student, item: Row) returns (s: Student)
    ensures s == Merge(existing, item)
  {
    s := existing.(enrolledCourses := existing.enrolledCourses + 1);
    if item.courseTitle != "" && !Includes(s.courseTitle, item.courseTitle) {
      s := s.(courseTitle := s.courseTitle + ", " + item.courseTitle);
    }
    s := s.(progressPercent := Round((s.progressPercent + item.progress) / 2.0), totalRevenue := s.totalRevenue + item.revenue);
    if item.status == SUSPENDED {
      s := s.(status := SUSPENDED);
    }
  }

  lemma OthersUnchanged(s: Student, rows: seq<Row>, r: Row)
    requires Summarises(s, RowsOf(rows, s.id)) && r.studentId != s.id
    ensures Summarises(s, RowsOf(rows + [r], s.id))
  {
    OneMore(rows, r, s.id);
    assert RowsOf(rows, s.id) + [] == RowsOf(rows, s.id);
  }

  lemma RegroupedSeen(students: map<string, Student>, order: seq<string>, rows: seq<Row>, r: Row)
    requires Grouped(students, order, rows) && r.studentId in students
    ensures Grouped(students[r.studentId := Merge(students[r.studentId], r)], order, rows + [r])
  {
    var next := students[r.studentId := Merge(students[r.studentId], r)];
    OneMore(rows, r, r.studentId);
    MoreRows(students[r.studentId], RowsOf(rows, r.studentId), r);
    forall id | id in next ensures next[id].id == id && Summarises(next[id], RowsOf(rows + [r], id)) {
      if id != r.studentId {
        OthersUnchanged(students[id], rows, r);
      }
    }
  }

  lemma NewStudent(rows: seq<Row>, r: Row)
    requires r.studentId !in Appearances(rows)
    ensures Summarises(First(r), RowsOf(rows + [r], r.studentId))
  {
    AppearsIff(rows, r.studentId);
    OneMore(rows, r, r.studentId);
    assert [] + [r] == [r];
  }

  lemma RegroupedNew(students: map<string, Student>, order: seq<string>, rows: seq<Row>, r: Row)
    requires Grouped(students, order, rows) && r.studentId !in students
    ensures Grouped(students[r.studentId := First(r)], order + [r.studentId], rows + [r])
  {
    var next := students[r.studentId := First(r)];
    OneMore(rows, r, r.studentId);
    NewStudent(rows, r);
    forall id | id in next ensures next[id].id == id && Summarises(next[id], RowsOf(rows + [r], id)) {
      if id != r.studentId {
        OthersUnchanged(students[id], rows, r);
      }
    }
  }

  /** One entry per student, in order of first appearance, each what that student's rows call for. */
  method ListStudents(rows: seq<Row>) returns (items: seq<Student>)
    ensures |items| == |Appearances(rows)|
    ensures forall k :: 0 <= k < |items| ==>
              items[k].id == Appearances(rows)[k] && Summarises(items[k], RowsOf(rows, items[k].id))
  {
    var order: seq<string>, students: map<string, Student> := [], map[];
    for i := 0 to |rows|
      invariant Grouped(students, order, rows[..i])
    {
      var item := rows[i];
      assert rows[..i + 1] == rows[..i] + [item];
      if item.studentId in students {
        RegroupedSeen(students, order, rows[..i], item);
        var merged := MergeRow(students[item.studentId], item);
        students := students[item.studentId := merged];
      } else {
        RegroupedNew(students, order, rows[..i], item);
        order := order + [item.studentId];
        students := students[item.studentId := First(item)];
      }
    }
    assert rows[..|rows|] == rows;
    items := seq(|order|, k requires 0 <= k < |order| => students[order[k]]);
  }

  // --- What grouping conserves ----------------------------------------------------------------------

  /** The sum over `ids` of the weights of their rows. */
  function TotalOver(rows: seq<Row>, ids: seq<string>, w: Row -> real): real {
    if ids == [] then 0.0 else TotalOver(rows, ids[..|ids| - 1], w) + Weight(RowsOf(rows, ids[|ids| - 1]), w)
  }

  ghost predicate Distinct(ids: seq<string>) {
    forall i, j :: 0 <= i < j < |ids| ==> ids[i] != ids[j]
  }

  lemma {:induction false} AppearancesDistinct(rows: seq<Row>)
    ensures Distinct(Appearances(rows))
  {
    if rows != [] {
      AppearancesDistinct(Init(rows));
    }
  }

  lemma WeightOneMore(mine: seq<Row>, r: Row, w: Row -> real)
    ensures Weight(mine + [r], w) == Weight(mine, w) + w(r)
  {
    assert Init(mine + [r]) == mine;
  }

  lemma WeightOfOneMore(rows: seq<Row>, r: Row, id: string, w: Row -> real)
    ensures Weight(RowsOf(rows + [r], id), w) == Weight(RowsOf(rows, id), w) + (if r.studentId == id then w(r) else 0.0)
  {
    OneMore(rows, r, id);
    var mine, all := RowsOf(rows, id), RowsOf(rows + [r], id);
    if r.studentId == id {
      assert all == mine + [r];
      WeightOneMore(mine, r, w);
    } else {
      assert all == mine;
    }
  }

  lemma TotalUnfold(rows: seq<Row>, rest: seq<string>, last: string, w: Row -> real)
    ensures TotalOver(rows, rest + [last], w) == TotalOver(rows, rest, w) + Weight(RowsOf(rows, last), w)
  {
    assert (rest + [last])[..|rest|] == rest;
  }

  /** One row more adds its weight to the total exactly when its student is among `ids`. */
  lemma {:induction false} TotalOneMore(rows: seq<Row>, r: Row, ids: seq<string>, w: Row -> real)
    requires Distinct(ids)
    ensures TotalOver(rows + [r], ids, w) == TotalOver(rows, ids, w) + (if r.studentId in ids then w(r) else 0.0)
  {
    if ids != [] {
      var rest, last := ids[..|ids| - 1], ids[|ids| - 1];
      assert ids == rest + [last];
      TotalOneMore(rows, r, rest, w);
      WeightOfOneMore(rows, r, last, w);
      TotalUnfold(rows, rest, last, w);
      TotalUnfold(rows + [r], rest, last, w);
    }
  }

  /** A total over the students of `before` grows by what the row `r` weighs. */
  lemma ConservesOneMore(before: seq<Row>, ids: seq<string>, r: Row, w: Row -> real)
    requires Distinct(ids) && TotalOver(before, ids, w) == Weight(before, w)
    requires r.studentId in ids || RowsOf(before, r.studentId) == []
    ensures TotalOver(before + [r], if r.studentId in ids then ids else ids + [r.studentId], w) == Weight(before + [r], w)
  {
    WeightOneMore(before, r, w);
    TotalOneMore(before, r, ids, w);
    if r.studentId !in ids {
      TotalUnfold(before + [r], ids, r.studentId, w);
      WeightOfOneMore(before, r, r.studentId, w);
    }
  }

  /** Every row is counted for exactly one student, whatever is being added up. */
  lemma {:induction false} GroupingConserves(rows: seq<Row>, w: Row -> real)
    ensures TotalOver(rows, Appearances(rows), w) == Weight(rows, w)
  {
    if rows != [] {
      var before, r := Init(rows), Last(rows);
      assert rows == before + [r];
      GroupingConserves(before, w);
      AppearancesDistinct(before);
      AppearsIff(before, r.studentId);
      OneMore(before, r, r.studentId);
      ConservesOneMore(before, Appearances(before), r, w);
    }
  }

  function SumRevenue(items: seq<Student>): real {
    if items == [] then 0.0 else SumRevenue(items[..|items| - 1]) + items[|items| - 1].totalRevenue
  }

  function SumCourses(items: seq<Student>): nat {
    if items == [] then 0 else SumCourses(items[..|items| - 1]) + items[|items| - 1].enrolledCourses
  }

  lemma {:induction false} CountIsWeight(rows: seq<Row>)
    ensures Weight(rows, (r: Row) => 1.0) == |rows| as real
  {
    if rows != [] {
      CountIsWeight(Init(rows));
    }
  }

  lemma {:induction false} SumsAreTotals(rows: seq<Row>, ids: seq<string>, items: seq<Student>)
    requires |items| == |ids|
    requires forall k :: 0 <= k < |items| ==> items[k].id == ids[k] && Summarises(items[k], RowsOf(rows, ids[k]))
    ensures SumRevenue(items) == TotalOver(rows, ids, REVENUE)
    ensures SumCourses(items) as real == TotalOver(rows, ids, (r: Row) => 1.0)
  {
    if ids != [] {
      var n := |ids| - 1;
      SumsAreTotals(rows, ids[..n], items[..n]);
      CountIsWeight(RowsOf(rows, ids[n]));
    }
  }

  /** Course counts add up to the rows and revenues to the payments, over the grouped list. */
  lemma TotalsPreserved(rows: seq<Row>, items: seq<Student>)
    requires |items| == |Appearances(rows)|
    requires forall k :: 0 <= k < |items| ==>
               items[k].id == Appearances(rows)[k] && Summarises(items[k], RowsOf(rows, items[k].id))
    ensures SumCourses(items) == |rows|
    ensures SumRevenue(items) == Weight(rows, REVENUE)
  {
    SumsAreTotals(rows, Appearances(rows), items);
    GroupingConserves(rows, REVENUE);
    GroupingConserves(rows, (r: Row) => 1.0);
    CountIsWeight(rows);
  }

  // --- What one entry shows ----------------------------------------------------------------------------

  lemma IncludesExtended(text: string, more: string, part: string)
    requires Includes(text, part)
    ensures Includes(text + more, part)
  {
    var i: nat :| i <= |text| && OccursAt(text, part, i);
    assert (text + more)[i..i + |part|] == text[i..i + |part|];
    assert OccursAt(text + more, part, i);
  }

  lemma IncludesAppended(text: string, part: string)
    ensures Includes(text + part, part)
  {
    assert (text + part)[|text|..|text| + |part|] == part;
    assert OccursAt(text + part, part, |text|);
  }

  /** Every non-empty course title of a student can be found in the joined titles. */
  lemma {:induction false} TitlesIncludeEach(mine: seq<Row>, r: Row)
    requires r in mine && r.courseTitle != ""
    ensures Includes(Titles(mine), r.courseTitle)
  {
    if |mine| == 1 {
      assert "" + r.courseTitle == r.courseTitle;
      IncludesAppended("", r.courseTitle);
    } else {
      var before, last := Init(mine), Last(mine);
      assert mine == before + [last];
      if r in before {
        TitlesIncludeEach(before, r);
        IncludesExtended(Titles(before), ", " + last.courseTitle, r.courseTitle);
        assert Titles(before) + (", " + last.courseTitle) == Titles(before) + ", " + last.courseTitle;
      } else {
        IncludesAppended(Titles(before) + ", ", last.courseTitle);
      }
    }
  }

  lemma RoundWithin(x: real, lo: int, hi: int)
    requires lo as real <= x <= hi as real
    ensures lo as real <= Round(x) <= hi as real
  {
    var y := (x + 0.5).Floor;
    assert y as real <= x + 0.5 < (y + 1) as real;
    assert lo < y + 1 && y < hi + 1;
  }

  /** One row more: the progress shown becomes the whole number nearest to the mean of the two, the
      upper one of two equally near. */
  lemma ProgressIsNearest(mine: seq<Row>, r: Row) returns (n: int)
    requires mine != []
    ensures var mean := (Progress(mine) + r.progress) / 2.0;
            && Progress(mine + [r]) == n as real
            && n as real - 0.5 <= mean < n as real + 0.5
    ensures Progress([r]) == r.progress
  {
    assert Init(mine + [r]) == mine;
    var x := (Progress(mine) + r.progress) / 2.0;
    n := (x + 0.5).Floor;
    assert n as real <= x + 0.5 < (n + 1) as real;
  }

  /** One row more: its title is added after a comma and a blank exactly when it is not empty and
      is not found in the titles so far. */
  lemma TitleAddedIff(mine: seq<Row>, r: Row)
    requires mine != []
    ensures var titles, next := Titles(mine), Titles(mine + [r]);
            && (next == titles || next == titles + ", " + r.courseTitle)
            && (next != titles <==>
                  r.courseTitle != "" && !exists i, j :: 0 <= i <= j <= |titles| && titles[i..j] == r.courseTitle)
    ensures Titles([r]) == r.courseTitle
  {
    var titles := Titles(mine);
    assert Init(mine + [r]) == mine;
    if i, j :| 0 <= i <= j <= |titles| && titles[i..j] == r.courseTitle {
      assert OccursAt(titles, r.courseTitle, i);
    }
    if i: nat :| i <= |titles| && OccursAt(titles, r.courseTitle, i) {
      assert titles[i..i + |r.courseTitle|] == r.courseTitle;
    }
    assert |titles + ", " + r.courseTitle| > |titles|;
  }

  /** However often it is averaged and rounded, progress stays within any whole-number bounds
      of what went in. */
  lemma {:induction false} ProgressWithin(mine: seq<Row>, lo: int, hi: int)
    requires mine != [] && forall r :: r in mine ==> lo as real <= r.progress <= hi as real
    ensures lo as real <= Progress(mine) <= hi as real
  {
    if |mine| == 1 {
      assert mine[0] in mine;
    } else {
      var before, last := Init(mine), Last(mine);
      assert forall r :: r in before ==> r in mine;
      assert last in mine;
      ProgressWithin(before, lo, hi);
      RoundWithin((Progress(before) + last.progress) / 2.0, lo, hi);
    }
  }

  /** A student is shown as suspended exactly when one of their rows is, and otherwise with the
      status of the first. */
  lemma SuspendedIff(rows: seq<Row>, s: Student)
    requires Summarises(s, RowsOf(rows, s.id))
    ensures s.status == "SUSPENDED" <==> exists r :: r in RowsOf(rows, s.id) && r.status == "SUSPENDED"
    ensures s.status != "SUSPENDED" ==> s.status == RowsOf(rows, s.id)[0].status
  {
    var mine := RowsOf(rows, s.id);
    if mine[0].status == SUSPENDED {
      assert mine[0] in mine;
    }
  }
}
