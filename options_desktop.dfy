/**
 * The single-user variant of the client component (src/options-DESKTOP-8LU0NJT.jsx):
 * one task list seeded with id-less tasks, loaded from the server or else from
 * the `todo.tasks` entry; handlers that take either a task id or a position,
 * and an add that reconciles by object identity rather than by id.
 */
module OptionsDesktop {
  import opened Js
  import opened TaskLists

  /** The list the component starts with; none of these tasks has an id. */
  const SeedTasks: seq<Task> := [
    Task("", "Go to school", false),
    Task("", "Complete assignment", true),
    Task("", "Learn React", false),
    Task("", "Complete project", false),
    Task("", "Go to gym", true)
  ]

  /**
   * `typeof idOrIndex === 'number' ? tasks[idOrIndex]?.id : idOrIndex`: the id
   * a handler acts on, "" when there is none.
   */
  function ResolveId(tasks: seq<Task>, ref: Ref): (id: string)
    ensures ref.Key? ==> id == ref.id
    ensures ref.Index? && 0 <= ref.i < |tasks| ==> id == tasks[ref.i].id
    ensures ref.Index? && !(0 <= ref.i < |tasks|) ==> id == ""
  {
    match ref
    case Key(id) => id
    case Index(i) => if 0 <= i < |tasks| then tasks[i].id else ""
  }

  /**
   * In a list where no task has an id, no argument of any kind makes remove or
   * toggle change the list: the seeded tasks can never be removed or toggled.
   */
  lemma IdlessTasksAreInert(tasks: seq<Task>, ref: Ref)
    requires forall i :: 0 <= i < |tasks| ==> tasks[i].id == ""
    ensures var id := ResolveId(tasks, ref);
      id == "" || (WithoutId(tasks, id) == tasks && ToggleId(tasks, id) == tasks)
  {
    var id := ResolveId(tasks, ref);
    if id != "" {
      WithoutAbsentId(tasks, id);
      ToggleAbsentId(tasks, id);
    }
  }

  class SelectOption {
    var selectedIndex: Option<nat>
    var inputValue: string
    var tasks: seq<Task>

    constructor ()
      ensures selectedIndex == None && inputValue == "" && tasks == SeedTasks
    {
      selectedIndex, inputValue, tasks := None, "", SeedTasks;
    }

    /**
     * The load effect: the server's array if it answers with one, else the
     * stored `todo.tasks` array; otherwise the list stays (no id backfill here).
     */
    method Load(remote: Option<seq<Task>>, local: Stored<Task>)
      modifies this`tasks
      ensures tasks == if remote.Some? then remote.value
                       else if local.Present? then local.items
                       else old(tasks)
    {
      if remote.Some? {
        tasks := remote.value;
        return;
      }
      if local.Present? {
        tasks := local.items;
      }
    }

    /**
     * `addTask`: with a non-blank input, append a temporary task and clear the
     * input; if the server saved it, that very object (the last position) is
     * replaced by the server's task as it is, so the server's id wins.
     */
    method AddTask(now: nat, saved: Option<Task>) returns (call: RemoteCall)
      modifies this`tasks, this`inputValue
      ensures var text := Trim(old(inputValue));
        if text == "" then
          call == NoCall && tasks == old(tasks) && inputValue == old(inputValue)
        else
          && call == PostTask(text) && inputValue == ""
          && tasks == old(tasks) + [if saved.Some? then saved.value else Task("t" + NatToString(now), text, false)]
    {
      var text := Trim(inputValue);
      if text == "" {
        return NoCall;
      }
      var temp := Task("t" + NatToString(now), text, false);
      tasks := tasks + [temp];
      inputValue := "";
      call := PostTask(text);
      if saved.Some? {
        var at := |tasks| - 1;
        tasks := tasks[at := saved.value];
      }
    }

    /**
     * `removeTask(idOrIndex)`: nothing happens without an id; otherwise the
     * tasks with the id are filtered out, and a failed DELETE restores the
     * snapshot, every task in its old position.
     */
    method RemoveTask(ref: Ref, ok: bool) returns (call: RemoteCall)
      modifies this`tasks
      ensures var id := ResolveId(old(tasks), ref);
        && (id == "" ==> call == NoCall && tasks == old(tasks))
        && (id != "" ==> call == DeleteTask(id) && tasks == if ok then WithoutId(old(tasks), id) else old(tasks))
    {
      var id := ResolveId(tasks, ref);
      if id == "" {
        return NoCall;
      }
      var previous := tasks;
      tasks := WithoutId(tasks, id);
      call := DeleteTask(id);
      if !ok {
        tasks := previous;
      }
    }

    /**
     * `toggleComplete(idOrIndex)`: nothing happens without an id; otherwise
     * `completed` flips on the tasks with the id, the PUT carries the negation
     * of the first such task's old value (`true` when there is none), and a
     * failed PUT restores the snapshot.
     */
    method ToggleComplete(ref: Ref, ok: bool) returns (call: RemoteCall)
      modifies this`tasks
      ensures var id := ResolveId(old(tasks), ref);
        var found := FindById(old(tasks), id);
        && (id == "" ==> call == NoCall && tasks == old(tasks))
        && (id != "" ==>
             && call == PutCompleted(id, !(found.Some? && found.value.completed))
             && tasks == if ok then ToggleId(old(tasks), id) else old(tasks))
    {
      var id := ResolveId(tasks, ref);
      if id == "" {
        return NoCall;
      }
      var previous := tasks;
      tasks := ToggleId(tasks, id);
      var task := FindById(previous, id);
      call := PutCompleted(id, !(task.Some? && task.value.completed));
      if !ok {
        tasks := previous;
      }
    }
  }
}
