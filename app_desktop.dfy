/**
 * The list component of the desktop variant (src/App-DESKTOP-8LU0NJT.jsx): it
 * shows the parent's tasks and input when it is given them, and otherwise keeps
 * a local list of its own. Each handler hands over to the parent's handler when
 * there is one, and otherwise edits the local list by position.
 */
module AppDesktop {
  import opened Js
  import opened TaskLists

  /** The local list the component starts with. */
  const LocalSeed: seq<Task> := [
    Task("", "Go to school", false),
    Task("", "Complete assignment", false),
    Task("", "Learn React", false)
  ]

  /** `tasks.filter((_, i) => i !== index)`, for the positions from `start` on. */
  function RemoveAtFrom(tasks: seq<Task>, index: Ref, start: nat): (r: seq<Task>)
    ensures index.Index? && start <= index.i < start + |tasks| ==>
      r == tasks[..index.i - start] + tasks[index.i - start + 1..]
    ensures !(index.Index? && start <= index.i < start + |tasks|) ==> r == tasks
    decreases |tasks|
  {
    if tasks == [] then []
    else
      var rest := RemoveAtFrom(tasks[1..], index, start + 1);
      if index == Index(start) then rest else [tasks[0]] + rest
  }

  /** The local `removeTask(index)`: drops the element at a position that exists, keeping the others in order. */
  function RemoveAt(tasks: seq<Task>, index: Ref): (r: seq<Task>)
    ensures index.Index? && 0 <= index.i < |tasks| ==> r == tasks[..index.i] + tasks[index.i + 1..]
    ensures !(index.Index? && 0 <= index.i < |tasks|) ==> r == tasks
  {
    RemoveAtFrom(tasks, index, 0)
  }

  /** `tasks.map((t, i) => i === index ? { ...t, completed: !t.completed } : t)`, for the positions from `start` on. */
  function ToggleAtFrom(tasks: seq<Task>, index: Ref, start: nat): (r: seq<Task>)
    ensures |r| == |tasks|
    ensures forall i :: 0 <= i < |tasks| ==>
      r[i] == if index == Index(start + i) then tasks[i].(completed := !tasks[i].completed) else tasks[i]
    decreases |tasks|
  {
    if tasks == [] then []
    else
      var t := tasks[0];
      [if index == Index(start) then t.(completed := !t.completed) else t]
      + ToggleAtFrom(tasks[1..], index, start + 1)
  }

  /** The local `toggleComplete(index)`. */
  function ToggleAt(tasks: seq<Task>, index: Ref): (r: seq<Task>)
    ensures |r| == |tasks|
    ensures forall i :: 0 <= i < |tasks| && index != Index(i) ==> r[i] == tasks[i]
    ensures index.Index? && 0 <= index.i < |tasks| ==>
      r[index.i] == tasks[index.i].(completed := !tasks[index.i].completed)
  {
    ToggleAtFrom(tasks, index, 0)
  }

  /** Toggling the same position twice gives back the list it started from. */
  lemma ToggleAtTwice(tasks: seq<Task>, index: Ref)
    ensures ToggleAt(ToggleAt(tasks, index), index) == tasks
  {
    var r := ToggleAt(ToggleAt(tasks, index), index);
    assert forall i :: 0 <= i < |tasks| ==> r[i] == tasks[i];
  }

  class App {
    /** `tasks` and `inputValue` props: `None` for null or undefined. */
    const tasksProp: Option<seq<Task>>
    const inputValueProp: Option<string>
    /** Whether the parent passed `addTask`, `removeTask` and `toggleComplete` handlers. */
    const addTaskProp: bool
    const removeTaskProp: bool
    const toggleCompleteProp: bool

    var tasksLocal: seq<Task>
    var inputValueLocal: string

    constructor (tasksProp: Option<seq<Task>>, inputValueProp: Option<string>,
                 addTaskProp: bool, removeTaskProp: bool, toggleCompleteProp: bool)
      ensures this.tasksProp == tasksProp && this.inputValueProp == inputValueProp
      ensures this.addTaskProp == addTaskProp && this.removeTaskProp == removeTaskProp
      ensures this.toggleCompleteProp == toggleCompleteProp
      ensures tasksLocal == LocalSeed && inputValueLocal == ""
    {
      this.tasksProp := tasksProp;
      this.inputValueProp := inputValueProp;
      this.addTaskProp := addTaskProp;
      this.removeTaskProp := removeTaskProp;
      this.toggleCompleteProp := toggleCompleteProp;
      tasksLocal := LocalSeed;
      inputValueLocal := "";
    }

    /** `tasksProp ?? tasksLocal`: the list the component shows. */
    function Tasks(): (shown: seq<Task>)
      reads this
      ensures tasksProp.Some? ==> shown == tasksProp.value
      ensures tasksProp.None? ==> shown == tasksLocal
    {
      tasksProp.GetOr(tasksLocal)
    }

    /** `inputValueProp ?? inputValueLocal` */
    function InputValue(): (shown: string)
      reads this
      ensures inputValueProp.Some? ==> shown == inputValueProp.value
      ensures inputValueProp.None? ==> shown == inputValueLocal
    {
      inputValueProp.GetOr(inputValueLocal)
    }

    /**
     * `addTask`: hands over to the parent's handler if there is one; otherwise
     * a non-blank input (the shown one) is appended, trimmed, as an id-less
     * open task to the local list, and the local input is cleared.
     */
    method AddTask() returns (delegated: bool)
      modifies this`tasksLocal, this`inputValueLocal
      ensures delegated == addTaskProp
      ensures var text := Trim(old(InputValue()));
        if addTaskProp || text == "" then
          tasksLocal == old(tasksLocal) && inputValueLocal == old(inputValueLocal)
        else
          tasksLocal == old(tasksLocal) + [Task("", text, false)] && inputValueLocal == ""
    {
      if addTaskProp {
        return true;
      }
      var text := Trim(InputValue());
      if text != "" {
        tasksLocal := tasksLocal + [Task("", text, false)];
        inputValueLocal := "";
      }
      return false;
    }

    /** `removeTask(index)`: hands over to the parent's handler if there is one, else removes by position. */
    method RemoveTask(index: Ref) returns (delegated: bool)
      modifies this`tasksLocal
      ensures delegated == removeTaskProp
      ensures tasksLocal == if removeTaskProp then old(tasksLocal) else RemoveAt(old(tasksLocal), index)
    {
      if removeTaskProp {
        return true;
      }
      tasksLocal := RemoveAt(tasksLocal, index);
      return false;
    }

    /** `toggleComplete(index)`: hands over to the parent's handler if there is one, else flips by position. */
    method ToggleComplete(index: Ref) returns (delegated: bool)
      modifies this`tasksLocal
      ensures delegated == toggleCompleteProp
      ensures tasksLocal == if toggleCompleteProp then old(tasksLocal) else ToggleAt(old(tasksLocal), index)
    {
      if toggleCompleteProp {
        return true;
      }
      tasksLocal := ToggleAt(tasksLocal, index);
      return false;
    }
  }

  /**
   * The rendered buttons pass `task.id`, which is not a number, so on the
   * local list remove and toggle never change anything.
   */
  lemma IdArgumentsLeaveLocalList(tasks: seq<Task>, id: string)
    ensures RemoveAt(tasks, Key(id)) == tasks && ToggleAt(tasks, Key(id)) == tasks
  {
    var r := ToggleAt(tasks, Key(id));
    assert forall i :: 0 <= i < |tasks| ==> r[i] == tasks[i];
  }
}
