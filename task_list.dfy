/**
 * The pure list transforms the client task store applies to its task list
 * (frontend/hooks/useTasks.ts): `find`, the id-keyed `map` and `filter`, the
 * object spread of an update, and the newest-first sort; with the rollback
 * properties that make each optimistic change undoable.
 */
module TaskList {
  import opened Wrappers
  import opened Types

  /** No entry of `s` carries `id`. */
  predicate Absent(s: seq<Task>, id: string) {
    forall k :: 0 <= k < |s| ==> s[k].id != id
  }

  /** Ids are pairwise distinct. */
  predicate UniqueIds(s: seq<Task>) {
    forall i, j :: 0 <= i < j < |s| ==> s[i].id != s[j].id
  }

  /** Newest first: `createdAt` never increases along the list. */
  predicate Sorted(s: seq<Task>) {
    forall i, j :: 0 <= i < j < |s| ==> s[i].createdAt >= s[j].createdAt
  }

  /** `tasks.find(t => t.id === id)`: the first entry carrying `id`. */
  function Find(s: seq<Task>, id: string): (r: Option<Task>)
    ensures r.None? <==> Absent(s, id)
    ensures r.Some? ==> exists k :: 0 <= k < |s| && s[k] == r.value && r.value.id == id && Absent(s[..k], id)
  {
    if |s| == 0 then None
    else if s[0].id == id then
      assert s[0] == s[0] && Absent(s[..0], id);
      Some(s[0])
    else
      var r := Find(s[1..], id);
      if r.Some? then
        var k :| 0 <= k < |s[1..]| && s[1..][k] == r.value && r.value.id == id && Absent(s[1..][..k], id);
        assert s[k + 1] == r.value && s[..k + 1] == [s[0]] + s[1..][..k];
        r
      else r
  }

  /** `prev.map(t => t.id === id ? f(t) : t)`. */
  function MapById(s: seq<Task>, id: string, f: Task -> Task): (r: seq<Task>)
    ensures |r| == |s|
    ensures forall k :: 0 <= k < |s| ==> r[k] == if s[k].id == id then f(s[k]) else s[k]
  {
    if |s| == 0 then [] else [if s[0].id == id then f(s[0]) else s[0]] + MapById(s[1..], id, f)
  }

  /** `prev.filter(t => t.id !== id)`. */
  function RemoveById(s: seq<Task>, id: string): (r: seq<Task>)
    ensures Absent(r, id)
    ensures |r| <= |s|
    ensures multiset(r) <= multiset(s)
    ensures Absent(s, id) ==> r == s
  {
    if |s| == 0 then []
    else
      assert s == [s[0]] + s[1..];
      if s[0].id == id then RemoveById(s[1..], id)
      else [s[0]] + RemoveById(s[1..], id)
  }

  /** Filtering drops every entry with the id and keeps each other entry as often as it occurs. */
  lemma {:induction false} RemoveByIdCounts(s: seq<Task>, id: string, x: Task)
    ensures multiset(RemoveById(s, id))[x] == if x.id == id then 0 else multiset(s)[x]
  {
    if s != [] {
      assert s == [s[0]] + s[1..];
      RemoveByIdCounts(s[1..], id, x);
    }
  }

  /** Filtering keeps the order of what it keeps: it works piece by piece over a concatenation. */
  lemma {:induction false} RemoveByIdAppend(a: seq<Task>, b: seq<Task>, id: string)
    ensures RemoveById(a + b, id) == RemoveById(a, id) + RemoveById(b, id)
  {
    if a == [] {
      assert a + b == b;
    } else {
      var c := a + b;
      assert c[0] == a[0] && c[1..] == a[1..] + b;
      RemoveByIdAppend(a[1..], b, id);
      var tail := RemoveById(a[1..], id);
      if a[0].id != id {
        assert RemoveById(c, id) == [a[0]] + (tail + RemoveById(b, id));
        assert RemoveById(a, id) == [a[0]] + tail;
      }
    }
  }

  /**
   * `{ ...t, ...input, updatedAt: now }`: every key present in the input
   * overwrites the task's field, an explicit `undefined` description included.
   */
  function Merge(t: Task, input: UpdateTaskInput, now: int): (r: Task)
    ensures r.id == t.id && r.createdAt == t.createdAt && r.updatedAt == now
    ensures r.title == input.title.GetOr(t.title)
    ensures r.completed == input.completed.GetOr(t.completed)
    ensures input.description.Absent? ==> r.description == t.description
    ensures input.description.Undefined? ==> r.description.None?
    ensures input.description.Present? ==> r.description == Some(input.description.value)
  {
    Task(
      t.id,
      input.title.GetOr(t.title),
      match input.description
      case Absent => t.description
      case Undefined => None
      case Present(d) => Some(d),
      input.completed.GetOr(t.completed),
      t.createdAt,
      now)
  }

  /** Applying the same update twice is applying it once. */
  lemma MergeIdempotent(t: Task, input: UpdateTaskInput, now: int)
    ensures Merge(Merge(t, input, now), input, now) == Merge(t, input, now)
  {
  }

  /** The length of the leading run of entries at least as new as `x`. */
  function InsertPos(s: seq<Task>, x: Task): (k: nat)
    ensures k <= |s|
    ensures forall i :: 0 <= i < k ==> s[i].createdAt >= x.createdAt
    ensures k < |s| ==> s[k].createdAt < x.createdAt
  {
    if |s| == 0 || s[0].createdAt < x.createdAt then 0 else 1 + InsertPos(s[1..], x)
  }

  /** One insertion step of the stable newest-first sort: `x` goes after every leading entry at least as new. */
  function InsertByCreatedAt(s: seq<Task>, x: Task): (r: seq<Task>)
    ensures |r| == |s| + 1
  {
    var k := InsertPos(s, x);
    s[..k] + [x] + s[k..]
  }

  /** Inserting adds exactly the one entry. */
  lemma InsertAddsOne(s: seq<Task>, x: Task)
    ensures multiset(InsertByCreatedAt(s, x)) == multiset(s) + multiset{x}
  {
    var k := InsertPos(s, x);
    assert s == s[..k] + s[k..];
  }

  /** Inserting into a sorted list keeps it sorted. */
  lemma InsertKeepsSorted(s: seq<Task>, x: Task)
    requires Sorted(s)
    ensures Sorted(InsertByCreatedAt(s, x))
  {
    var k := InsertPos(s, x);
    var r := InsertByCreatedAt(s, x);
    assert |r| == |s| + 1;
    assert forall i :: 0 <= i < k ==> r[i] == s[i];
    assert r[k] == x;
    assert forall i :: k < i < |r| ==> r[i] == s[i - 1];
    forall i, j | 0 <= i < j < |r| ensures r[i].createdAt >= r[j].createdAt {
      if j < k {
      } else if j == k {
      } else if i < k {
      } else if i == k {
        assert s[k].createdAt >= s[j - 1].createdAt;
      } else {
      }
    }
  }

  /**
   * `list.sort((a, b) => b.createdAt - a.createdAt)`: a stable sort, newest
   * first, built by inserting each entry in turn after the entries already
   * placed that are at least as new.
   */
  function SortByCreatedAt(s: seq<Task>): (r: seq<Task>)
    ensures Sorted(r)
  {
    if |s| == 0 then []
    else
      var sorted := SortByCreatedAt(s[..|s| - 1]);
      InsertKeepsSorted(sorted, s[|s| - 1]);
      InsertByCreatedAt(sorted, s[|s| - 1])
  }

  /** The sort returns a permutation of its input. */
  lemma {:induction false} SortPermutes(s: seq<Task>)
    ensures multiset(SortByCreatedAt(s)) == multiset(s)
    ensures |SortByCreatedAt(s)| == |s|
  {
    if |s| > 0 {
      var init, last := s[..|s| - 1], s[|s| - 1];
      var sorted := SortByCreatedAt(init);
      assert SortByCreatedAt(s) == InsertByCreatedAt(sorted, last);
      SortPermutes(init);
      InsertAddsOne(sorted, last);
      calc {
        multiset(s);
        { assert s == init + s[|s| - 1..] && s[|s| - 1..] == [last]; }
        multiset(init) + multiset{last};
      }
    }
  }

  /** Inserting an entry no newer than anything already in a list appends it. */
  lemma {:induction false} InsertOldestAppends(s: seq<Task>, x: Task)
    requires forall k :: 0 <= k < |s| ==> s[k].createdAt >= x.createdAt
    ensures InsertByCreatedAt(s, x) == s + [x]
  {
    if |s| > 0 {
      InsertOldestAppends(s[1..], x);
      assert s == [s[0]] + s[1..];
    }
  }

  /** Sorting an already sorted list changes nothing. */
  lemma {:induction false} SortSortedIsIdentity(s: seq<Task>)
    requires Sorted(s)
    ensures SortByCreatedAt(s) == s
  {
    if |s| > 0 {
      var p := s[..|s| - 1];
      SortSortedIsIdentity(p);
      InsertOldestAppends(p, s[|s| - 1]);
      assert p + [s[|s| - 1]] == s;
    }
  }

  /** Sorting a sorted list with one more entry at its end inserts that entry. */
  lemma SortAppended(s: seq<Task>, x: Task)
    requires Sorted(s)
    ensures SortByCreatedAt(s + [x]) == InsertByCreatedAt(s, x)
  {
    assert (s + [x])[..|s|] == s;
    SortSortedIsIdentity(s);
  }

  // ---------------------------------------------------------------------
  // Rollback properties of the optimistic steps
  // ---------------------------------------------------------------------

  /** Removing an id from a list headed by the only entry with that id gives back the tail. */
  lemma {:induction false} RemoveFreshHead(s: seq<Task>, x: Task)
    requires Absent(s, x.id)
    ensures RemoveById([x] + s, x.id) == s
  {
    assert ([x] + s)[1..] == s;
  }

  /** A failed create removes the placeholder and restores the list as it was before the insert. */
  lemma CreateRollbackRestores(s: seq<Task>, placeholder: Task)
    requires Absent(s, placeholder.id)
    ensures RemoveById([placeholder] + s, placeholder.id) == s
  {
    RemoveFreshHead(s, placeholder);
  }

  /** A confirmed create swaps the placeholder for the server's task and leaves the rest alone. */
  lemma CreateConfirmReplacesHead(s: seq<Task>, placeholder: Task, created: Task)
    requires Absent(s, placeholder.id)
    ensures MapById([placeholder] + s, placeholder.id, _ => created) == [created] + s
  {
    var r := MapById([placeholder] + s, placeholder.id, _ => created);
    assert r[0] == created;
    forall k | 1 <= k < |r| ensures r[k] == s[k - 1] {
      assert ([placeholder] + s)[k] == s[k - 1];
    }
  }

  /** Every entry carrying `id` equals `o`. */
  predicate AllWithIdAre(s: seq<Task>, id: string, o: Task) {
    forall k :: 0 <= k < |s| && s[k].id == id ==> s[k] == o
  }

  /** With distinct ids, the entry `find` returns is the only one carrying its id. */
  lemma FindUnique(s: seq<Task>, id: string)
    requires UniqueIds(s) && Find(s, id).Some?
    ensures AllWithIdAre(s, id, Find(s, id).value)
  {
  }

  /**
   * A failed update puts the snapshot back: merging the input into every
   * entry with the id and then replacing those entries by the snapshot
   * returns the original list.
   */
  lemma UpdateRollbackRestores(s: seq<Task>, id: string, input: UpdateTaskInput, now: int)
    requires Find(s, id).Some? && AllWithIdAre(s, id, Find(s, id).value)
    ensures MapById(MapById(s, id, (t: Task) => Merge(t, input, now)), id, _ => Find(s, id).value) == s
  {
    var o := Find(s, id).value;
    var m := MapById(s, id, (t: Task) => Merge(t, input, now));
    var r := MapById(m, id, _ => o);
    forall k | 0 <= k < |s| ensures r[k] == s[k] {
      assert m[k].id == s[k].id;
    }
  }

  /**
   * A failed toggle restores `completed` on the toggled entries but keeps the
   * fresh `updatedAt` the optimistic flip gave them.
   */
  lemma ToggleRollbackKeepsTimestamp(s: seq<Task>, task: Task, now: int)
    requires AllWithIdAre(s, task.id, task)
    ensures
      var flipped := MapById(s, task.id, (t: Task) => t.(completed := !task.completed, updatedAt := now));
      MapById(flipped, task.id, (t: Task) => t.(completed := task.completed)) == MapById(s, task.id, (t: Task) => t.(updatedAt := now))
  {
    var flipped := MapById(s, task.id, (t: Task) => t.(completed := !task.completed, updatedAt := now));
    var r := MapById(flipped, task.id, (t: Task) => t.(completed := task.completed));
    var e := MapById(s, task.id, (t: Task) => t.(updatedAt := now));
    forall k | 0 <= k < |s| ensures r[k] == e[k] {
      assert flipped[k].id == s[k].id;
    }
  }

  /** Removing the one entry with an id and adding it back restores the multiset of entries. */
  lemma {:induction false} RemoveThenAddBack(s: seq<Task>, id: string, o: Task)
    requires o.id == id && AllWithIdAre(s, id, o) && !Absent(s, id) && UniqueIds(s)
    ensures multiset(RemoveById(s, id)) + multiset{o} == multiset(s)
  {
    assert s == [s[0]] + s[1..];
    if s[0].id == id {
      assert Absent(s[1..], id);
    } else {
      RemoveThenAddBack(s[1..], id, o);
    }
  }

  /** Removing entries from a sorted list keeps it sorted. */
  lemma {:induction false} RemoveKeepsSorted(s: seq<Task>, id: string)
    requires Sorted(s)
    ensures Sorted(RemoveById(s, id))
  {
    if |s| > 0 {
      RemoveKeepsSorted(s[1..], id);
      var r := RemoveById(s[1..], id);
      forall x: Task | x in multiset(r) ensures s[0].createdAt >= x.createdAt {
        assert x in multiset(s[1..]);
        var k :| 0 <= k < |s[1..]| && s[1..][k] == x;
        assert s[k + 1] == x;
      }
      if s[0].id != id {
        forall j | 0 < j < |r| + 1 ensures s[0].createdAt >= ([s[0]] + r)[j].createdAt {
          assert ([s[0]] + r)[j] == r[j - 1] && r[j - 1] in multiset(r);
        }
      }
    }
  }

  /**
   * A failed delete re-inserts the removed task by `createdAt`: into a sorted
   * list of distinct ids it returns exactly the same entries, newest first,
   * with every other entry still in its former relative order.
   */
  lemma DeleteRollbackRestores(s: seq<Task>, id: string)
    requires Sorted(s) && UniqueIds(s) && Find(s, id).Some?
    ensures
      var o := Find(s, id).value;
      var p := RemoveById(s, id);
      var r := SortByCreatedAt(p + [o]);
      && Sorted(r)
      && multiset(r) == multiset(s)
      && exists k :: 0 <= k <= |p| && r == p[..k] + [o] + p[k..]
  {
    var o := Find(s, id).value;
    var p := RemoveById(s, id);
    FindUnique(s, id);
    RemoveThenAddBack(s, id, o);
    RemoveKeepsSorted(s, id);
    SortAppended(p, o);
    InsertAddsOne(p, o);
    var k := InsertPos(p, o);
    assert SortByCreatedAt(p + [o]) == p[..k] + [o] + p[k..];
  }

  /** The three sample tasks of the demo mode, one minute apart, newest first. */
  function DemoTasks(now: int): (r: seq<Task>)
    ensures |r| == 3 && Sorted(r) && UniqueIds(r)
    ensures forall k :: 0 <= k < 3 ==> r[k].createdAt == r[k].updatedAt
  {
    [
      Task("demo-1", "Welcome to TodoFlow!",
        Some("This is a demo task. Try editing or completing it."), false, now, now),
      Task("demo-2", "Create your first real task",
        Some("Click the 'Add Task' button above to create a new task."), false, now - 60000, now - 60000),
      Task("demo-3", "Explore the features",
        Some("You can toggle completion, edit tasks, and delete them."), true, now - 120000, now - 120000)
    ]
  }
}
