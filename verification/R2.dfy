/** The object store as the upload sees it: parts stored under an upload id, and the
    completion call, which sorts the list it is given and checks it against what is stored. */
module R2 {
  import opened Wrappers

  newtype Byte = x: int | 0 <= x < 256

  type Bytes = seq<Byte>

  /** A content digest, taken as injective. */
  datatype ETag = ETag(digest: Bytes)

  datatype Part = Part(number: nat, etag: ETag)

  /** (upload id, part number) -> the bytes last put there. */
  type Stored = map<(nat, nat), Bytes>

  const MIN_PART_SIZE: nat := 5_242_880
  const MAX_PARTS: nat := 10000

  // --- sorted(parts, key=PartNumber) ---------------------------------------------------

  function Insert(p: Part, sorted: seq<Part>): seq<Part> {
    if sorted == [] || p.number <= sorted[0].number then [p] + sorted
    else [sorted[0]] + Insert(p, sorted[1..])
  }

  function SortByNumber(parts: seq<Part>): seq<Part> {
    if parts == [] then [] else Insert(parts[0], SortByNumber(parts[1..]))
  }

  predicate Ascending(parts: seq<Part>) {
    forall i, j :: 0 <= i < j < |parts| ==> parts[i].number <= parts[j].number
  }

  predicate StrictlyAscending(parts: seq<Part>) {
    forall i, j :: 0 <= i < j < |parts| ==> parts[i].number < parts[j].number
  }

  // --- Completion ----------------------------------------------------------------------

  predicate Matches(stored: Stored, id: nat, p: Part) {
    (id, p.number) in stored && p.etag == ETag(stored[(id, p.number)])
  }

  function Joined(stored: Stored, id: nat, parts: seq<Part>): Bytes
    requires forall p :: p in parts ==> Matches(stored, id, p)
  {
    if parts == [] then []
    else
      assert Matches(stored, id, parts[0]);
      stored[(id, parts[0].number)] + Joined(stored, id, parts[1..])
  }

  predicate Acceptable(stored: Stored, id: nat, parts: seq<Part>) {
    && parts != []
    && StrictlyAscending(parts)
    && (forall p :: p in parts ==> 1 <= p.number <= MAX_PARTS && Matches(stored, id, p))
    && (forall i :: 0 <= i < |parts| - 1 ==> |stored[(id, parts[i].number)]| >= MIN_PART_SIZE)
  }

  /** `complete_multipart_upload`: the object assembled, or nothing when the call is refused. */
  function Complete(stored: Stored, id: nat, parts: seq<Part>): Option<Bytes> {
    var sorted := SortByNumber(parts);
    if Acceptable(stored, id, sorted) then Some(Joined(stored, id, sorted)) else None
  }

  // --- Sorting -------------------------------------------------------------------------

  lemma {:induction false} InsertContents(p: Part, sorted: seq<Part>)
    ensures multiset(Insert(p, sorted)) == multiset(sorted) + multiset{p}
  {
    if sorted != [] && p.number > sorted[0].number {
      InsertContents(p, sorted[1..]);
      assert sorted == [sorted[0]] + sorted[1..];
    }
  }

  lemma AscendsFrom(first: Part, rest: seq<Part>)
    requires Ascending(rest) && forall j :: 0 <= j < |rest| ==> first.number <= rest[j].number
    ensures Ascending([first] + rest)
  {
  }

  lemma {:induction false} InsertSorts(p: Part, sorted: seq<Part>)
    requires Ascending(sorted)
    ensures Ascending(Insert(p, sorted))
  {
    if sorted != [] && p.number > sorted[0].number {
      var rest := Insert(p, sorted[1..]);
      InsertSorts(p, sorted[1..]);
      InsertContents(p, sorted[1..]);
      forall j | 0 <= j < |rest| ensures sorted[0].number <= rest[j].number {
        assert rest[j] in multiset(rest);
      }
      AscendsFrom(sorted[0], rest);
    }
  }

  lemma {:induction false} SortSorts(parts: seq<Part>)
    ensures Ascending(SortByNumber(parts))
    ensures multiset(SortByNumber(parts)) == multiset(parts)
  {
    if parts != [] {
      SortSorts(parts[1..]);
      InsertSorts(parts[0], SortByNumber(parts[1..]));
      InsertContents(parts[0], SortByNumber(parts[1..]));
      assert parts == [parts[0]] + parts[1..];
    }
  }

  lemma SameFirst(a: seq<Part>, b: seq<Part>)
    requires Ascending(a) && StrictlyAscending(b)
    requires multiset(a) == multiset(b) && b != []
    ensures a != [] && a[0] == b[0]
  {
    assert b[0] in multiset(a);
    var j :| 0 <= j < |a| && a[j] == b[0];
    assert a[0] in multiset(b);
    var i :| 0 <= i < |b| && b[i] == a[0];
  }

  lemma TailContents(a: seq<Part>)
    requires a != []
    ensures multiset(a[1..]) == multiset(a) - multiset{a[0]}
  {
    assert a == [a[0]] + a[1..];
  }

  /** An ascending list is determined by its elements when no number repeats. */
  lemma {:induction false} AscendingIsUnique(a: seq<Part>, b: seq<Part>)
    requires Ascending(a) && StrictlyAscending(b)
    requires multiset(a) == multiset(b)
    ensures a == b
  {
    if b == [] {
      assert |multiset(a)| == 0;
    } else {
      SameFirst(a, b);
      TailContents(a);
      TailContents(b);
      AscendingIsUnique(a[1..], b[1..]);
      assert a == [a[0]] + a[1..] && b == [b[0]] + b[1..];
    }
  }

  /** In whatever order the parts arrive, sorting restores the one ascending list of them. */
  lemma SortRestores(parts: seq<Part>, expected: seq<Part>)
    requires StrictlyAscending(expected) && multiset(parts) == multiset(expected)
    ensures SortByNumber(parts) == expected
  {
    SortSorts(parts);
    AscendingIsUnique(SortByNumber(parts), expected);
  }
  // --- What is accepted ----------------------------------------------------------------

  ghost predicate DistinctNumbers(parts: seq<Part>) {
    forall i, j :: 0 <= i < j < |parts| ==> parts[i].number != parts[j].number
  }

  lemma {:induction false} OccursOnce(parts: seq<Part>, p: Part)
    requires DistinctNumbers(parts)
    ensures multiset(parts)[p] <= 1
  {
    if parts != [] {
      var rest := parts[1..];
      OccursOnce(rest, p);
      assert parts == [parts[0]] + rest;
      if parts[0] == p {
        assert p !in rest;
      }
    }
  }

  lemma OccursTwice(parts: seq<Part>, i: nat, j: nat)
    requires i < j < |parts| && parts[i] == parts[j]
    ensures multiset(parts)[parts[i]] >= 2
  {
    assert parts == parts[..j] + [parts[j]] + parts[j + 1..];
    assert parts[..j][i] in multiset(parts[..j]);
  }

  /** Whether numbers repeat does not depend on the order. */
  lemma DistinctInAnyOrder(a: seq<Part>, b: seq<Part>)
    requires DistinctNumbers(a) && multiset(a) == multiset(b)
    ensures DistinctNumbers(b)
  {
    forall i, j | 0 <= i < j < |b| ensures b[i].number != b[j].number {
      if b[i] == b[j] {
        OccursTwice(b, i, j);
        OccursOnce(a, b[i]);
      } else {
        assert b[i] in multiset(a) && b[j] in multiset(a);
      }
    }
  }

  lemma SameMembers(a: seq<Part>, b: seq<Part>, p: Part)
    requires multiset(a) == multiset(b)
    ensures p in a <==> p in b
  {
    assert p in multiset(a) <==> p in a;
    assert p in multiset(b) <==> p in b;
  }

  ghost predicate AllMatch(stored: Stored, id: nat, parts: seq<Part>) {
    forall p :: p in parts ==> 1 <= p.number <= 10000 && (id, p.number) in stored && p.etag == ETag(stored[(id, p.number)])
  }

  ghost predicate LongBut(stored: Stored, id: nat, parts: seq<Part>)
    requires AllMatch(stored, id, parts)
  {
    forall p, q :: p in parts && q in parts && p.number < q.number ==> |stored[(id, p.number)]| >= 5_242_880
  }

  lemma AllButLastLong(stored: Stored, id: nat, sorted: seq<Part>)
    requires StrictlyAscending(sorted) && AllMatch(stored, id, sorted)
    ensures (forall i :: 0 <= i < |sorted| - 1 ==> |stored[(id, sorted[i].number)]| >= MIN_PART_SIZE) <==> LongBut(stored, id, sorted)
  {
    if LongBut(stored, id, sorted) {
      forall i | 0 <= i < |sorted| - 1 ensures |stored[(id, sorted[i].number)]| >= MIN_PART_SIZE {
        assert sorted[i] in sorted && sorted[i + 1] in sorted && sorted[i].number < sorted[i + 1].number;
      }
    }
  }

  lemma AcceptableIff(stored: Stored, id: nat, sorted: seq<Part>)
    requires Ascending(sorted)
    ensures Acceptable(stored, id, sorted) <==>
              sorted != [] && DistinctNumbers(sorted) && AllMatch(stored, id, sorted) && LongBut(stored, id, sorted)
  {
    assert DistinctNumbers(sorted) <==> StrictlyAscending(sorted);
    if StrictlyAscending(sorted) && AllMatch(stored, id, sorted) {
      AllButLastLong(stored, id, sorted);
    }
  }

  lemma SameInAnyOrder(stored: Stored, id: nat, a: seq<Part>, b: seq<Part>)
    requires multiset(a) == multiset(b)
    requires a != [] && DistinctNumbers(a) && AllMatch(stored, id, a) && LongBut(stored, id, a)
    ensures b != [] && DistinctNumbers(b) && AllMatch(stored, id, b) && LongBut(stored, id, b)
  {
    forall p ensures p in a <==> p in b {
      SameMembers(a, b, p);
    }
    assert a[0] in b;
    DistinctInAnyOrder(a, b);
  }

  /** A completion call is accepted exactly when it lists a part, no number twice and only numbers
      from 1 to 10000, each with the ETag of what is stored under it, and every part but the one
      with the highest number is at least 5 MiB; in whatever order it lists them. */
  lemma AcceptsIff(stored: Stored, id: nat, parts: seq<Part>)
    ensures Complete(stored, id, parts).Some? <==>
              && parts != []
              && (forall i, j :: 0 <= i < j < |parts| ==> parts[i].number != parts[j].number)
              && (forall p :: p in parts ==>
                    1 <= p.number <= 10000 && (id, p.number) in stored && p.etag == ETag(stored[(id, p.number)]))
              && (forall p, q :: p in parts && q in parts && p.number < q.number ==> |stored[(id, p.number)]| >= 5_242_880)
  {
    var sorted := SortByNumber(parts);
    SortSorts(parts);
    AcceptableIff(stored, id, sorted);
    if Acceptable(stored, id, sorted) {
      SameInAnyOrder(stored, id, sorted, parts);
    }
    if parts != [] && DistinctNumbers(parts) && AllMatch(stored, id, parts) && LongBut(stored, id, parts) {
      SameInAnyOrder(stored, id, parts, sorted);
    }
  }
}
