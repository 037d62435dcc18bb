// The paged list of recordings over a fixed database: ORDER BY created_at DESC
// with OFFSET and LIMIT, then each recording paired with its task.
module Listing {
  import opened Options

  type RecordingId = nat
  type TaskId = nat
  type Time = real

  datatype Recording = Recording(id: RecordingId, fileName: string, createdAt: Time)

  datatype Task = Task(id: TaskId, recordingId: RecordingId)

  type Item = (Recording, Option<Task>)

  datatype ListError = BadPage | BadPageSize

  const MAX_PAGE_SIZE := 100

  ghost predicate NewestFirst(s: seq<Recording>) {
    forall i, j :: 0 <= i < j < |s| ==> s[i].createdAt > s[j].createdAt
  }

  ghost predicate DistinctTimes(rs: set<Recording>) {
    forall a, b :: a in rs && b in rs && a.createdAt == b.createdAt ==> a == b
  }

  // The one sequence ORDER BY created_at DESC can give.
  ghost predicate Ordered(rs: set<Recording>, s: seq<Recording>) {
    NewestFirst(s) && forall r :: r in s <==> r in rs
  }

  lemma {:induction false} Newest(rs: set<Recording>) returns (first: Recording)
    requires rs != {}
    ensures first in rs && forall r :: r in rs ==> first.createdAt >= r.createdAt
    decreases |rs|
  {
    first :| first in rs;
    if rs != {first} {
      assert |rs - {first}| < |rs|;
      var other := Newest(rs - {first});
      if other.createdAt > first.createdAt {
        first := other;
      }
    }
  }

  lemma {:induction false} OrderExists(rs: set<Recording>) returns (s: seq<Recording>)
    requires DistinctTimes(rs)
    ensures Ordered(rs, s) && |s| == |rs|
    decreases |rs|
  {
    if rs == {} {
      s := [];
    } else {
      var first := Newest(rs);
      assert |rs - {first}| == |rs| - 1;
      var rest := OrderExists(rs - {first});
      s := [first] + rest;
      forall r ensures r in s <==> r in rs {
        assert r in s <==> r == first || r in rest;
      }
    }
  }

  lemma EmptyOrder(rs: set<Recording>, s: seq<Recording>)
    requires Ordered(rs, s)
    ensures s == [] <==> rs == {}
  {
    assert s != [] ==> s[0] in rs;
    assert s == [] ==> forall r :: r !in rs;
  }

  lemma {:induction false} OrderIsUnique(rs: set<Recording>, a: seq<Recording>, b: seq<Recording>)
    requires Ordered(rs, a) && Ordered(rs, b)
    ensures a == b
    decreases |a|
  {
    EmptyOrder(rs, a);
    EmptyOrder(rs, b);
    if rs != {} {
      assert a[0] in rs && b[0] in rs;
      assert a[0] in b && b[0] in a;
      assert a[0] == b[0];
      var rest := rs - {a[0]};
      assert Ordered(rest, a[1..]) by {
        TailOrdered(rs, a);
      }
      assert Ordered(rest, b[1..]) by {
        TailOrdered(rs, b);
      }
      OrderIsUnique(rest, a[1..], b[1..]);
      assert a == [a[0]] + a[1..] && b == [b[0]] + b[1..];
    }
  }

  lemma TailOrdered(rs: set<Recording>, s: seq<Recording>)
    requires Ordered(rs, s) && s != []
    ensures Ordered(rs - {s[0]}, s[1..])
  {
    forall r ensures r in s[1..] <==> r in rs - {s[0]} {
      if r in s[1..] {
        var i :| 0 <= i < |s[1..]| && s[1..][i] == r;
        assert s[i + 1] == r && s[i + 1] in rs;
      }
      if r in rs && r != s[0] {
        var i :| 0 <= i < |s| && s[i] == r;
        assert s[1..][i - 1] == r;
      }
    }
  }

  function Window(s: seq<Recording>, offset: nat, limit: nat): seq<Recording> {
    var from := if offset < |s| then offset else |s|;
    var to := if offset + limit < |s| then offset + limit else |s|;
    s[from..to]
  }

  function TaskOf(tasks: set<Task>, r: Recording): Option<Task>
    requires OnePerRecording(tasks)
  {
    if exists t :: t in tasks && t.recordingId == r.id then
      Some(var t :| t in tasks && t.recordingId == r.id; t)
    else None
  }

  // The unique index on tasks.recording_id.
  predicate OnePerRecording(tasks: set<Task>) {
    forall a, b :: a in tasks && b in tasks && a.recordingId == b.recordingId ==> a == b
  }

  function Paired(rs: seq<Recording>, tasks: set<Task>): seq<Item>
    requires OnePerRecording(tasks)
  {
    seq(|rs|, i requires 0 <= i < |rs| => (rs[i], TaskOf(tasks, rs[i])))
  }

  function ListPage(s: seq<Recording>, tasks: set<Task>, page: int, pageSize: int): Result<(seq<Item>, nat), ListError>
    requires OnePerRecording(tasks)
  {
    if page < 1 then Err(BadPage)
    else if pageSize < 1 || pageSize > MAX_PAGE_SIZE then Err(BadPageSize)
    else
      var offset: nat := (page - 1) * pageSize;
      Ok((Paired(Window(s, offset, pageSize), tasks), |s|))
  }

  // Pages count from 1 and hold 1 to 100 items.
  lemma PageAccepted(s: seq<Recording>, tasks: set<Task>, page: int, pageSize: int)
    requires OnePerRecording(tasks)
    ensures
      var answer := ListPage(s, tasks, page, pageSize);
      && (answer.Ok? <==> page >= 1 && 1 <= pageSize <= 100)
      && (answer == Err(BadPage) <==> page < 1)
      && (answer.Ok? ==> |answer.value.0| <= pageSize && answer.value.1 == |s|)
  {
  }

  function FirstPages(s: seq<Recording>, tasks: set<Task>, pages: nat, pageSize: int): seq<Item>
    requires OnePerRecording(tasks)
  {
    if pages == 0 then []
    else
      var last := ListPage(s, tasks, pages, pageSize);
      FirstPages(s, tasks, pages - 1, pageSize) + (if last.Ok? then last.value.0 else [])
  }

  function Recordings(items: seq<Item>): seq<Recording> {
    seq(|items|, i requires 0 <= i < |items| => items[i].0)
  }

  lemma {:induction false} PagesArePrefix(s: seq<Recording>, tasks: set<Task>, pages: nat, pageSize: int)
    requires OnePerRecording(tasks) && 1 <= pageSize <= MAX_PAGE_SIZE
    ensures
      var items := FirstPages(s, tasks, pages, pageSize);
      && Recordings(items) == s[..if pages * pageSize < |s| then pages * pageSize else |s|]
      && forall i :: 0 <= i < |items| ==> items[i].1 == TaskOf(tasks, items[i].0)
  {
    if pages > 0 {
      PagesArePrefix(s, tasks, pages - 1, pageSize);
      assert pages * pageSize == (pages - 1) * pageSize + pageSize;
    }
  }

  ghost predicate OwnTask(tasks: set<Task>, item: Item) {
    match item.1
    case Some(t) => t in tasks && t.recordingId == item.0.id
    case None => forall t :: t in tasks ==> t.recordingId != item.0.id
  }

  lemma TaskOfIsOwn(tasks: set<Task>, r: Recording)
    requires OnePerRecording(tasks)
    ensures OwnTask(tasks, (r, TaskOf(tasks, r)))
  {
  }

  lemma PastTheEnd(s: seq<Recording>, tasks: set<Task>, page: nat, pageSize: int)
    requires OnePerRecording(tasks) && 1 <= pageSize <= MAX_PAGE_SIZE && page * pageSize >= |s|
    ensures ListPage(s, tasks, page + 1, pageSize) == Ok(([], |s|))
  {
    assert (page + 1 - 1) * pageSize == page * pageSize;
    assert Paired(Window(s, page * pageSize, pageSize), tasks) == [];
  }

  // Turning pages until they run out yields every recording once, newest first,
  // each with its own task; the total is what the pages add up to, and pages
  // past the end are empty.
  lemma PagesCoverEverything(rs: set<Recording>, s: seq<Recording>, tasks: set<Task>, pages: nat, pageSize: int)
    requires Ordered(rs, s) && OnePerRecording(tasks) && 1 <= pageSize <= MAX_PAGE_SIZE
    requires pages * pageSize >= |s|
    ensures
      var items := FirstPages(s, tasks, pages, pageSize);
      && Ordered(rs, Recordings(items))
      && (forall i :: 0 <= i < |items| ==> OwnTask(tasks, items[i]))
      && ListPage(s, tasks, pages + 1, pageSize) == Ok(([], |items|))
  {
    var items := FirstPages(s, tasks, pages, pageSize);
    PagesArePrefix(s, tasks, pages, pageSize);
    PastTheEnd(s, tasks, pages, pageSize);
    assert Recordings(items) == s && |Recordings(items)| == |items|;
    forall i | 0 <= i < |items| ensures OwnTask(tasks, items[i]) {
      TaskOfIsOwn(tasks, items[i].0);
    }
  }
}
