/**
 * Tasks and the list transforms that both task controllers of the client
 * (src/Options.jsx and src/options-DESKTOP-8LU0NJT.jsx) and the server's
 * item lookup share: `findIndex`/`find` by id, `filter` out an id, and
 * `map` that flips `completed` on an id.
 */
module TaskLists {
  import opened Js

  /** A task. An `id` of "" stands for a task that has no id (or a falsy one). */
  datatype Task = Task(id: string, text: string, completed: bool)

  /**
   * What a task handler of the client asks of the server, if anything. Only
   * the fields the server reads are kept: the `user` the client adds to each
   * body is never read by the endpoint.
   */
  datatype RemoteCall =
    | NoCall
    | PostTask(text: string)
    | DeleteTask(id: string)
    | PutCompleted(id: string, completed: bool)

  /**
   * The argument of a remove or toggle handler: a number, used as a position,
   * or anything else (a task's id; `undefined` for an id-less task is `Key("")`).
   */
  datatype Ref = Index(i: int) | Key(id: string)

  /** `tasks.findIndex(t => t.id === id)`: the first position holding `id`, or -1. */
  function FindIndex(tasks: seq<Task>, id: string): (k: int)
    ensures -1 <= k < |tasks|
    ensures k == -1 <==> forall i :: 0 <= i < |tasks| ==> tasks[i].id != id
    ensures k >= 0 ==> tasks[k].id == id && forall i :: 0 <= i < k ==> tasks[i].id != id
  {
    if tasks == [] then -1
    else if tasks[0].id == id then 0
    else
      var k := FindIndex(tasks[1..], id);
      if k == -1 then -1 else k + 1
  }

  /** `tasks.find(t => t.id === id)`: the first task holding `id`, if any. */
  function FindById(tasks: seq<Task>, id: string): (r: Option<Task>)
    ensures r.None? <==> forall i :: 0 <= i < |tasks| ==> tasks[i].id != id
    ensures r.Some? ==> r.value.id == id
    ensures r.Some? ==> exists k :: 0 <= k < |tasks| && r.value == tasks[k] && forall i :: 0 <= i < k ==> tasks[i].id != id
  {
    var k := FindIndex(tasks, id);
    if k == -1 then None else Some(tasks[k])
  }

  /** `tasks.filter(t => t.id !== id)` */
  function WithoutId(tasks: seq<Task>, id: string): (r: seq<Task>)
    ensures |r| <= |tasks|
    ensures forall i :: 0 <= i < |r| ==> r[i].id != id
  {
    if tasks == [] then []
    else
      var rest := WithoutId(tasks[1..], id);
      if tasks[0].id == id then rest else [tasks[0]] + rest
  }

  /** The filter keeps exactly the tasks whose id differs. */
  lemma {:induction false} WithoutIdMembers(tasks: seq<Task>, id: string)
    ensures forall t :: t in WithoutId(tasks, id) <==> t in tasks && t.id != id
  {
    if tasks != [] {
      WithoutIdMembers(tasks[1..], id);
      assert tasks == [tasks[0]] + tasks[1..];
    }
  }

  /** The filter keeps the relative order of what it keeps: it distributes over concatenation. */
  lemma {:induction false} WithoutIdAppend(a: seq<Task>, b: seq<Task>, id: string)
    ensures WithoutId(a + b, id) == WithoutId(a, id) + WithoutId(b, id)
  {
    if a != [] {
      assert (a + b)[1..] == a[1..] + b;
      WithoutIdAppend(a[1..], b, id);
    } else {
      assert a + b == b;
    }
  }

  /** Filtering out an id that no task carries leaves the list as it was. */
  lemma {:induction false} WithoutAbsentId(tasks: seq<Task>, id: string)
    requires forall i :: 0 <= i < |tasks| ==> tasks[i].id != id
    ensures WithoutId(tasks, id) == tasks
  {
    if tasks != [] {
      WithoutAbsentId(tasks[1..], id);
    }
  }

  /**
   * When exactly one task carries `id`, filtering it out is removing that one
   * position (what the server's `splice(idx, 1)` does).
   */
  lemma {:induction false} WithoutUniqueId(tasks: seq<Task>, id: string, k: nat)
    requires k < |tasks| && tasks[k].id == id
    requires forall i :: 0 <= i < |tasks| && i != k ==> tasks[i].id != id
    ensures WithoutId(tasks, id) == tasks[..k] + tasks[k + 1..]
  {
    if k == 0 {
      WithoutAbsentId(tasks[1..], id);
    } else {
      var rest := tasks[1..];
      WithoutUniqueId(rest, id, k - 1);
      assert rest[..k - 1] == tasks[1..k] && rest[k..] == tasks[k + 1..];
      assert tasks[..k] == [tasks[0]] + tasks[1..k];
    }
  }

  /** `tasks.map(t => t.id === id ? { ...t, completed: !t.completed } : t)` */
  function ToggleId(tasks: seq<Task>, id: string): (r: seq<Task>)
    ensures |r| == |tasks|
    ensures forall i :: 0 <= i < |tasks| ==>
      r[i].id == tasks[i].id && r[i].text == tasks[i].text
      && r[i].completed == (if tasks[i].id == id then !tasks[i].completed else tasks[i].completed)
  {
    if tasks == [] then []
    else
      var t := tasks[0];
      [if t.id == id then t.(completed := !t.completed) else t] + ToggleId(tasks[1..], id)
  }

  /** Toggling the same id twice gives back the list it started from. */
  lemma ToggleIdTwice(tasks: seq<Task>, id: string)
    ensures ToggleId(ToggleId(tasks, id), id) == tasks
  {
    var r := ToggleId(ToggleId(tasks, id), id);
    assert forall i :: 0 <= i < |tasks| ==> r[i] == tasks[i];
  }

  /** Toggling an id that no task carries changes nothing. */
  lemma ToggleAbsentId(tasks: seq<Task>, id: string)
    requires forall i :: 0 <= i < |tasks| ==> tasks[i].id != id
    ensures ToggleId(tasks, id) == tasks
  {
    var r := ToggleId(tasks, id);
    assert forall i :: 0 <= i < |tasks| ==> r[i] == tasks[i];
  }
}
