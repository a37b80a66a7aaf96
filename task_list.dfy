/** The task collection and the three pure list transforms the task store applies
    to it: spread-append after a create, `map` replacing by id after an update and
    `filter` removing by id after a delete. */
module TaskList {

  /** A task id as the server sends it. Dafny equality on this type is JavaScript's
      strict equality `===`: a number and a string never match, even 5 and "5". */
  datatype Id = NumberId(n: int) | StringId(s: string)

  datatype Status = Pending | InProgress | Completed

  /** A task record; the client never creates an id, it only keeps what the server sent. */
  datatype Task = Task(id: Id, title: string, description: string, effort: string,
                       dueDate: string, status: Status)

  /** Some entry of `ts` carries the id `id`. */
  predicate HasId(ts: seq<Task>, id: Id) {
    exists i :: 0 <= i < |ts| && ts[i].id == id
  }

  /** `[...ts, t]` */
  function Append(ts: seq<Task>, t: Task): (r: seq<Task>)
    ensures |r| == |ts| + 1
    ensures r[..|ts|] == ts && r[|ts|] == t
  {
    ts + [t]
  }

  /** `ts.map(x => x.id === id ? t : x)` */
  function ReplaceById(ts: seq<Task>, id: Id, t: Task): (r: seq<Task>)
    ensures |r| == |ts|
  {
    if ts == [] then []
    else [if ts[0].id == id then t else ts[0]] + ReplaceById(ts[1..], id, t)
  }

  /** `ts.filter(x => x.id !== id)` */
  function RemoveById(ts: seq<Task>, id: Id): (r: seq<Task>)
    ensures |r| <= |ts|
    ensures forall k :: 0 <= k < |r| ==> r[k].id != id && r[k] in ts
  {
    if ts == [] then []
    else (if ts[0].id == id then [] else [ts[0]]) + RemoveById(ts[1..], id)
  }

  /** Update, position by position: an entry with the id becomes the server's
      task, every other entry stays as it was, in place. */
  lemma {:induction false} ReplaceByIdAt(ts: seq<Task>, id: Id, t: Task, i: nat)
    requires i < |ts|
    ensures ReplaceById(ts, id, t)[i] == (if ts[i].id == id then t else ts[i])
  {
    if i > 0 {
      ReplaceByIdAt(ts[1..], id, t, i - 1);
    }
  }

  /** Updating an id the collection does not hold leaves it identical. */
  lemma {:induction false} ReplaceByIdAbsent(ts: seq<Task>, id: Id, t: Task)
    requires !HasId(ts, id)
    ensures ReplaceById(ts, id, t) == ts
  {
    if ts != [] {
      assert ts[0].id != id;
      assert !HasId(ts[1..], id) by {
        forall i | 0 <= i < |ts[1..]| ensures ts[1..][i].id != id {
          assert ts[1..][i] == ts[i + 1];
        }
      }
      ReplaceByIdAbsent(ts[1..], id, t);
    }
  }

  /** Applying the same update twice is the same as applying it once. */
  lemma {:induction false} ReplaceByIdIdempotent(ts: seq<Task>, id: Id, t: Task)
    ensures ReplaceById(ReplaceById(ts, id, t), id, t) == ReplaceById(ts, id, t)
  {
    var once := ReplaceById(ts, id, t);
    var twice := ReplaceById(once, id, t);
    forall i | 0 <= i < |ts| ensures twice[i] == once[i] {
      ReplaceByIdAt(ts, id, t, i);
      ReplaceByIdAt(once, id, t, i);
    }
  }

  /** When the server echoes the id it was asked to update, the ids of the
      collection, position by position, do not change. */
  lemma {:induction false} ReplaceByIdKeepsIds(ts: seq<Task>, id: Id, t: Task)
    requires t.id == id
    ensures forall i :: 0 <= i < |ts| ==> ReplaceById(ts, id, t)[i].id == ts[i].id
  {
    forall i | 0 <= i < |ts| ensures ReplaceById(ts, id, t)[i].id == ts[i].id {
      ReplaceByIdAt(ts, id, t, i);
    }
  }

  /** Removal works piece by piece: the survivors of a concatenation are the
      survivors of each part, in the same order. With RemoveByIdSingle this
      determines RemoveById completely, so the relative order of the kept tasks
      is the order they had. */
  lemma {:induction false} RemoveByIdConcat(a: seq<Task>, b: seq<Task>, id: Id)
    ensures RemoveById(a + b, id) == RemoveById(a, id) + RemoveById(b, id)
  {
    if a == [] {
      assert a + b == b;
    } else {
      assert (a + b)[0] == a[0];
      assert (a + b)[1..] == a[1..] + b;
      RemoveByIdConcat(a[1..], b, id);
    }
  }

  /** A single entry is dropped exactly when it carries the id. */
  lemma RemoveByIdSingle(t: Task, id: Id)
    ensures RemoveById([t], id) == (if t.id == id then [] else [t])
  {
  }

  /** Contents of a removal: no copy of a task with the id survives, every other
      task keeps each of its copies. */
  lemma {:induction false} RemoveByIdCounts(ts: seq<Task>, id: Id, x: Task)
    ensures multiset(RemoveById(ts, id))[x] == if x.id == id then 0 else multiset(ts)[x]
  {
    if ts != [] {
      RemoveByIdCounts(ts[1..], id, x);
      assert ts == [ts[0]] + ts[1..];
      assert multiset(ts) == multiset([ts[0]]) + multiset(ts[1..]);
    }
  }

  /** Deleting an id the collection does not hold leaves it identical. */
  lemma {:induction false} RemoveByIdAbsent(ts: seq<Task>, id: Id)
    requires !HasId(ts, id)
    ensures RemoveById(ts, id) == ts
  {
    if ts != [] {
      assert ts[0].id != id;
      assert !HasId(ts[1..], id) by {
        forall i | 0 <= i < |ts[1..]| ensures ts[1..][i].id != id {
          assert ts[1..][i] == ts[i + 1];
        }
      }
      RemoveByIdAbsent(ts[1..], id);
      assert ts == [ts[0]] + ts[1..];
    }
  }

  /** The collection shrinks exactly when it held the id. */
  lemma {:induction false} RemoveByIdShrinks(ts: seq<Task>, id: Id)
    ensures |RemoveById(ts, id)| < |ts| <==> HasId(ts, id)
  {
    if ts == [] {
    } else if ts[0].id == id {
      assert |RemoveById(ts[1..], id)| <= |ts[1..]|;
    } else {
      RemoveByIdShrinks(ts[1..], id);
      if HasId(ts, id) {
        var i :| 0 <= i < |ts| && ts[i].id == id;
        assert ts[1..][i - 1] == ts[i];
      }
      if HasId(ts[1..], id) {
        var i :| 0 <= i < |ts[1..]| && ts[1..][i].id == id;
        assert ts[i + 1] == ts[1..][i];
      }
    }
  }

  /** Deleting twice is the same as deleting once. */
  lemma {:induction false} RemoveByIdIdempotent(ts: seq<Task>, id: Id)
    ensures RemoveById(RemoveById(ts, id), id) == RemoveById(ts, id)
  {
    RemoveByIdAbsent(RemoveById(ts, id), id);
  }

  /** Creating a task whose id is new and then deleting that id gives back the
      collection as it was. */
  lemma {:induction false} RemoveAfterAppend(ts: seq<Task>, t: Task)
    requires !HasId(ts, t.id)
    ensures RemoveById(Append(ts, t), t.id) == ts
  {
    RemoveByIdConcat(ts, [t], t.id);
    RemoveByIdSingle(t, t.id);
    RemoveByIdAbsent(ts, t.id);
  }

  /** Updating the id of a task just created with a new id replaces that last
      entry and nothing else. */
  lemma {:induction false} ReplaceAfterAppend(ts: seq<Task>, t: Task, u: Task)
    requires !HasId(ts, t.id)
    ensures ReplaceById(Append(ts, t), t.id, u) == Append(ts, u)
  {
    var r := ReplaceById(ts + [t], t.id, u);
    forall i | 0 <= i < |ts| + 1 ensures r[i] == (ts + [u])[i] {
      ReplaceByIdAt(ts + [t], t.id, u, i);
      if i < |ts| {
        assert (ts + [t])[i] == ts[i];
      }
    }
  }
}
