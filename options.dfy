/**
 * The multi-user client component `SelectOption` (src/Options.jsx): a user
 * registry with a bootstrap administrator, a login session, and the task
 * controller of a logged-in user, which applies every change to its list at
 * once and then reconciles it with, or rolls it back after, the server's answer.
 *
 * The list and registry transforms are pure functions; the component's state
 * cells are the fields of class `SelectOption`, whose methods are the handlers.
 * A remote call's outcome is a parameter of the handler that makes it.
 */
module Options {
  import opened Js
  import opened TaskLists

  datatype User = User(name: string, password: string, isAdmin: bool)

  /** The account created when no stored user is an administrator. */
  const BootstrapAdmin := User("Admin", "admin123", true)

  predicate HasAdmin(users: seq<User>) {
    exists i :: 0 <= i < |users| && users[i].isAdmin
  }

  /**
   * The registry after the mount effect: the stored users, in order, followed
   * by the bootstrap administrator when none of them is an administrator.
   */
  function WithAdmin(users: seq<User>): (r: seq<User>)
    ensures HasAdmin(r)
    ensures |users| <= |r| <= |users| + 1 && r[..|users|] == users
    ensures r == users <==> HasAdmin(users)
    ensures !HasAdmin(users) ==> r[|users|] == BootstrapAdmin
  {
    if HasAdmin(users) then users
    else
      var r := users + [BootstrapAdmin];
      assert r[|users|].isAdmin;
      r
  }

  /** Bootstrapping a registry that has been bootstrapped already changes nothing. */
  lemma WithAdminIdempotent(users: seq<User>)
    ensures WithAdmin(WithAdmin(users)) == WithAdmin(users)
  {
  }

  predicate Matches(u: User, name: string, password: string) {
    u.name == name && u.password == password
  }

  /** `allUsers.find(u => u.name === name && u.password === password)`, as a position (-1 when none). */
  function FindLogin(users: seq<User>, name: string, password: string): (k: int)
    ensures -1 <= k < |users|
    ensures k == -1 <==> forall i :: 0 <= i < |users| ==> !Matches(users[i], name, password)
    ensures k >= 0 ==> Matches(users[k], name, password)
                       && forall i :: 0 <= i < k ==> !Matches(users[i], name, password)
  {
    if users == [] then -1
    else if Matches(users[0], name, password) then 0
    else
      var k := FindLogin(users[1..], name, password);
      if k == -1 then -1 else k + 1
  }

  /**
   * With the bootstrap administrator in place, "Admin"/"admin123" always logs
   * in; it carries the administrator role unless a stored (non-admin) user has
   * the same name and password and is found first.
   */
  lemma BootstrapAdminLogsIn(users: seq<User>)
    requires !HasAdmin(users)
    ensures var r := WithAdmin(users);
      var k := FindLogin(r, "Admin", "admin123");
      && k >= 0
      && (r[k].isAdmin <==> forall i :: 0 <= i < |users| ==> !Matches(users[i], "Admin", "admin123"))
  {
    var r := WithAdmin(users);
    assert Matches(r[|users|], "Admin", "admin123");
    var k := FindLogin(r, "Admin", "admin123");
    if forall i :: 0 <= i < |users| ==> !Matches(users[i], "Admin", "admin123") {
      assert k == |users|;
    } else {
      assert k < |users|;
      assert r[k] == users[k];
    }
  }

  predicate NameTaken(users: seq<User>, name: string) {
    exists i :: 0 <= i < |users| && users[i].name == name
  }

  datatype Registration = MissingField | NameExists | Registered(users: seq<User>)

  /**
   * `handleRegister` on the registry: both fields are trimmed; an empty one,
   * or a name some user already has (exact, case-sensitive), is refused;
   * otherwise a non-admin user is appended.
   */
  function Register(users: seq<User>, newUserName: string, newPassword: string): (r: Registration)
    ensures r.MissingField? <==> Trim(newUserName) == "" || Trim(newPassword) == ""
    ensures r.NameExists? <==> !r.MissingField? && NameTaken(users, Trim(newUserName))
    ensures r.Registered? ==>
      && |r.users| == |users| + 1 && r.users[..|users|] == users
      && r.users[|users|] == User(Trim(newUserName), Trim(newPassword), false)
  {
    var name := Trim(newUserName);
    var password := Trim(newPassword);
    if name == "" || password == "" then MissingField
    else if NameTaken(users, name) then NameExists
    else Registered(users + [User(name, password, false)])
  }

  /** Registering a name a second time is refused as a name that exists. */
  lemma RegisterTwiceRefused(users: seq<User>, name: string, password1: string, password2: string)
    requires Register(users, name, password1).Registered?
    requires Trim(password2) != ""
    ensures Register(Register(users, name, password1).users, name, password2) == NameExists
  {
    var after := Register(users, name, password1).users;
    assert after[|users|].name == Trim(name);
  }

  // ---------------------------------------------------------------------------
  // Task list transforms

  /** The optimistic task of `addTask`: `{ id: `t${Date.now()}`, text, completed: false }`. */
  function TempTask(now: nat, text: string): (t: Task)
    ensures t.id != "" && t.text == text && !t.completed
  {
    Task("t" + NatToString(now), text, false)
  }

  /** `{ ...saved, id: saved.id || tempId }` */
  function Merged(saved: Task, tempId: string): (t: Task)
    ensures t.text == saved.text && t.completed == saved.completed
    ensures t.id == (if saved.id != "" then saved.id else tempId)
  {
    saved.(id := if saved.id != "" then saved.id else tempId)
  }

  /** `prev.map(t => t.id === tempId ? { ...saved, id: saved.id || tempId } : t)` */
  function Reconcile(tasks: seq<Task>, tempId: string, saved: Task): (r: seq<Task>)
    ensures |r| == |tasks|
    ensures forall i :: 0 <= i < |tasks| ==>
      r[i] == if tasks[i].id == tempId then Merged(saved, tempId) else tasks[i]
  {
    if tasks == [] then []
    else [if tasks[0].id == tempId then Merged(saved, tempId) else tasks[0]]
         + Reconcile(tasks[1..], tempId, saved)
  }

  /**
   * When no earlier task shares the temporary id, reconciling replaces just
   * the optimistic task at the end by the server's task (server id first).
   */
  lemma ReconcileReplacesLast(tasks: seq<Task>, temp: Task, saved: Task)
    requires forall i :: 0 <= i < |tasks| ==> tasks[i].id != temp.id
    ensures Reconcile(tasks + [temp], temp.id, saved) == tasks + [Merged(saved, temp.id)]
  {
    var r := Reconcile(tasks + [temp], temp.id, saved);
    assert forall i :: 0 <= i < |tasks| ==> r[i] == tasks[i];
  }

  /** `t${user}${idx}${Date.now()}` */
  function BackfillId(user: string, idx: nat, now: nat): (id: string)
    ensures id != "" && id[0] == 't'
  {
    "t" + user + NatToString(idx) + NatToString(now)
  }

  /** `parsed.map((t, idx) => ({ ...t, id: t.id || BackfillId(user, idx, now) }))`, from position `start` on. */
  function BackfillFrom(items: seq<Task>, user: string, now: nat, start: nat): (r: seq<Task>)
    ensures |r| == |items|
    ensures forall i :: 0 <= i < |items| ==>
      && r[i].text == items[i].text && r[i].completed == items[i].completed
      && r[i].id == (if items[i].id != "" then items[i].id else BackfillId(user, start + i, now))
    decreases |items|
  {
    if items == [] then []
    else
      var t := items[0];
      [t.(id := if t.id != "" then t.id else BackfillId(user, start, now))]
      + BackfillFrom(items[1..], user, now, start + 1)
  }

  function Backfill(items: seq<Task>, user: string, now: nat): (r: seq<Task>)
    ensures |r| == |items|
    ensures forall i :: 0 <= i < |r| ==> r[i].id != ""
    ensures forall i :: 0 <= i < |r| ==>
      r[i].text == items[i].text && r[i].completed == items[i].completed
      && (items[i].id != "" ==> r[i].id == items[i].id)
  {
    BackfillFrom(items, user, now, 0)
  }

  /**
   * Backfilling an already backfilled list, at any later time, changes
   * nothing: every task already has an id, so no id is regenerated.
   */
  lemma BackfillReloadStable(items: seq<Task>, user: string, now: nat, later: nat)
    ensures Backfill(Backfill(items, user, now), user, later) == Backfill(items, user, now)
  {
    var once := Backfill(items, user, now);
    var twice := Backfill(once, user, later);
    assert forall i :: 0 <= i < |once| ==> twice[i] == once[i];
  }

  /** What the admin view shows for one user: the stored list, or [] when missing or unreadable. */
  function StoredTasks(storage: map<string, Stored<Task>>, name: string): seq<Task> {
    if name !in storage then []
    else match storage[name]
      case Present(items) => items
      case _ => []
  }

  /** The admin view: one entry per non-admin user name, holding that user's stored tasks. */
  function AdminView(users: seq<User>, storage: map<string, Stored<Task>>): (m: map<string, seq<Task>>)
    ensures m.Keys == set i | 0 <= i < |users| && !users[i].isAdmin :: users[i].name
    ensures forall name :: name in m ==> m[name] == StoredTasks(storage, name)
  {
    if users == [] then map[]
    else
      var init := users[..|users| - 1];
      var last := users[|users| - 1];
      var m := AdminView(init, storage);
      assert forall i :: 0 <= i < |init| ==> init[i] == users[i];
      var r := if last.isAdmin then m else m[last.name := StoredTasks(storage, last.name)];
      assert forall name :: name in r.Keys ==> name in (set i | 0 <= i < |users| && !users[i].isAdmin :: users[i].name);
      assert forall i :: 0 <= i < |users| && !users[i].isAdmin ==> users[i].name in r.Keys by {
        forall i | 0 <= i < |users| && !users[i].isAdmin ensures users[i].name in r.Keys {
          if i < |init| { assert init[i].name in m.Keys; }
        }
      }
      r
  }

  // ---------------------------------------------------------------------------
  // The component's state and handlers

  class SelectOption {
    var isLoggedIn: bool
    var currentUser: Option<string>
    var allUsers: seq<User>
    var newUserName: string
    var loginUsername: string
    var loginPassword: string
    var newPassword: string
    var isAdmin: bool
    var selectedIndex: Option<nat>
    var inputValue: string
    var tasks: seq<Task>
    var allUsersTasks: map<string, seq<Task>>

    constructor ()
      ensures !isLoggedIn && currentUser == None && allUsers == [] && !isAdmin
      ensures newUserName == "" && loginUsername == "" && loginPassword == "" && newPassword == ""
      ensures selectedIndex == None && inputValue == "" && tasks == [] && allUsersTasks == map[]
    {
      isLoggedIn, currentUser, allUsers, isAdmin := false, None, [], false;
      newUserName, loginUsername, loginPassword, newPassword := "", "", "", "";
      selectedIndex, inputValue, tasks, allUsersTasks := None, "", [], map[];
    }

    /**
     * The mount effect: `stored` is the parsed `todo.users` entry (`Some([])`
     * when there is none, `None` when it does not parse), bootstrapped with
     * the administrator.
     */
    method LoadUsers(stored: Option<seq<User>>)
      modifies this`allUsers
      ensures allUsers == if stored.None? then old(allUsers) else WithAdmin(stored.value)
    {
      if stored.None? {
        return;
      }
      allUsers := stored.value;
      if !HasAdmin(stored.value) {
        allUsers := stored.value + [BootstrapAdmin];
      }
    }

    /** The admin effect: while an administrator is logged in, gather every other user's stored tasks. */
    method LoadAllUsersTasks(storage: map<string, Stored<Task>>)
      modifies this`allUsersTasks
      ensures allUsersTasks == if isAdmin && isLoggedIn then AdminView(allUsers, storage) else old(allUsersTasks)
    {
      if !isAdmin || !isLoggedIn {
        return;
      }
      allUsersTasks := AdminView(allUsers, storage);
    }

    /** `handleLogin`: succeeds exactly when some user matches both fields; a failure changes nothing. */
    method HandleLogin() returns (ok: bool)
      modifies this`currentUser, this`isLoggedIn, this`isAdmin, this`loginUsername, this`loginPassword
      ensures var k := FindLogin(allUsers, old(loginUsername), old(loginPassword));
        && (ok <==> k >= 0)
        && (ok ==> currentUser == Some(old(loginUsername)) && isLoggedIn && isAdmin == allUsers[k].isAdmin
                   && loginUsername == "" && loginPassword == "")
        && (!ok ==> currentUser == old(currentUser) && isLoggedIn == old(isLoggedIn) && isAdmin == old(isAdmin)
                    && loginUsername == old(loginUsername) && loginPassword == old(loginPassword))
    {
      var k := FindLogin(allUsers, loginUsername, loginPassword);
      if k == -1 {
        return false;
      }
      var user := allUsers[k];
      currentUser := Some(user.name);
      isLoggedIn := true;
      isAdmin := user.isAdmin;
      loginUsername := "";
      loginPassword := "";
      return true;
    }

    /** `handleRegister`: a refused registration changes nothing; a new user is appended and the form cleared. */
    method HandleRegister() returns (r: Registration)
      modifies this`allUsers, this`newUserName, this`newPassword
      ensures r == Register(old(allUsers), old(newUserName), old(newPassword))
      ensures r.Registered? ==> allUsers == r.users && newUserName == "" && newPassword == ""
      ensures !r.Registered? ==>
        allUsers == old(allUsers) && newUserName == old(newUserName) && newPassword == old(newPassword)
    {
      ghost var expected := Register(allUsers, newUserName, newPassword);
      var name := Trim(newUserName);
      var password := Trim(newPassword);
      if name == "" || password == "" {
        assert expected == MissingField;
        return MissingField;
      }
      if NameTaken(allUsers, name) {
        assert expected == NameExists;
        return NameExists;
      }
      assert expected == Registered(allUsers + [User(name, password, false)]);
      allUsers := allUsers + [User(name, password, false)];
      newUserName := "";
      newPassword := "";
      return Registered(allUsers);
    }

    /** `handleLogout`: the session, the view and the task list are cleared. */
    method HandleLogout()
      modifies this`isLoggedIn, this`currentUser, this`isAdmin, this`selectedIndex, this`inputValue, this`tasks
      ensures !isLoggedIn && currentUser == None && !isAdmin && selectedIndex == None
      ensures inputValue == "" && tasks == []
    {
      isLoggedIn := false;
      currentUser := None;
      isAdmin := false;
      selectedIndex := None;
      inputValue := "";
      tasks := [];
    }

    /**
     * The task-loading effect of a logged-in regular user: the server's array
     * if it answers with one (`remote`), else the user's stored entry with ids
     * backfilled, else [] for a missing or corrupt entry; a stored non-array
     * leaves the list as it was.
     */
    method LoadTasks(remote: Option<seq<Task>>, local: Stored<Task>, now: nat)
      modifies this`tasks
      ensures !isLoggedIn || isAdmin || currentUser.None? || currentUser.value == "" ==> tasks == old(tasks)
      ensures isLoggedIn && !isAdmin && currentUser.Some? && currentUser.value != "" ==>
        tasks == match (remote, local)
          case (Some(data), _) => data
          case (None, Present(items)) => Backfill(items, currentUser.value, now)
          case (None, NotAList) => old(tasks)
          case (None, _) => []
    {
      if !isLoggedIn || isAdmin || currentUser.None? || currentUser.value == "" {
        return;
      }
      if remote.Some? {
        tasks := remote.value;
        return;
      }
      match local
      case Missing => tasks := [];
      case Corrupt => tasks := [];
      case NotAList =>
      case Present(items) => tasks := Backfill(items, currentUser.value, now);
    }

    /**
     * `addTask`: with a non-blank input, append the trimmed text as a
     * temporary task and clear the input, then, if the server saved it
     * (`saved`), put the server's task in place of every task with the
     * temporary id; if not, the temporary task stays.
     */
    method AddTask(now: nat, saved: Option<Task>) returns (call: RemoteCall)
      modifies this`tasks, this`inputValue
      ensures var text := Trim(old(inputValue));
        var temp := TempTask(now, text);
        if text == "" then
          call == NoCall && tasks == old(tasks) && inputValue == old(inputValue)
        else
          && call == PostTask(text) && inputValue == ""
          && tasks == if saved.None? then old(tasks) + [temp] else Reconcile(old(tasks) + [temp], temp.id, saved.value)
    {
      var text := Trim(inputValue);
      if text == "" {
        return NoCall;
      }
      var temp := TempTask(now, text);
      tasks := tasks + [temp];
      inputValue := "";
      call := PostTask(text);
      if saved.Some? {
        tasks := Reconcile(tasks, temp.id, saved.value);
      }
    }

    /**
     * `removeTask`: a falsy id does nothing; otherwise every task with the id
     * is filtered out, and the snapshot taken before is put back exactly when
     * the server's DELETE fails (`ok` false).
     */
    method RemoveTask(taskId: string, ok: bool) returns (call: RemoteCall)
      modifies this`tasks
      ensures taskId == "" ==> call == NoCall && tasks == old(tasks)
      ensures taskId != "" ==> call == DeleteTask(taskId)
                               && tasks == if ok then WithoutId(old(tasks), taskId) else old(tasks)
    {
      if taskId == "" {
        return NoCall;
      }
      var previous := tasks;
      tasks := WithoutId(tasks, taskId);
      call := DeleteTask(taskId);
      if !ok {
        tasks := previous;
      }
    }

    /**
     * `toggleComplete`: a falsy id, or one no task has, does nothing;
     * otherwise `completed` flips on the tasks with the id, the PUT carries the
     * negation of the first such task's old value, and a failed PUT restores
     * the snapshot.
     */
    method ToggleComplete(taskId: string, ok: bool) returns (call: RemoteCall)
      modifies this`tasks
      ensures taskId == "" || FindById(old(tasks), taskId).None? ==> call == NoCall && tasks == old(tasks)
      ensures taskId != "" && FindById(old(tasks), taskId).Some? ==>
        && call == PutCompleted(taskId, !FindById(old(tasks), taskId).value.completed)
        && tasks == if ok then ToggleId(old(tasks), taskId) else old(tasks)
    {
      if taskId == "" {
        return NoCall;
      }
      var task := FindById(tasks, taskId);
      if task.None? {
        return NoCall;
      }
      var previous := tasks;
      tasks := ToggleId(tasks, taskId);
      call := PutCompleted(taskId, !task.value.completed);
      if !ok {
        tasks := previous;
      }
    }
  }

  /**
   * Removing an id no task has leaves the list as it was, whatever the server
   * answers: the expression below is the list `SelectOption.RemoveTask` leaves
   * for a non-empty id (its second `ensures`).
   */
  lemma RemoveAbsentIdUnchanged(tasks: seq<Task>, taskId: string, ok: bool)
    requires forall i :: 0 <= i < |tasks| ==> tasks[i].id != taskId
    ensures (if ok then WithoutId(tasks, taskId) else tasks) == tasks
  {
    WithoutAbsentId(tasks, taskId);
  }
}
