/**
 * The serverless tasks endpoint (api/tasks.js): a module-level task list that
 * POST appends to, PUT/PATCH overwrites one element of and DELETE splices one
 * element out of, behind a router that answers with the status codes of
 * section 15 of RFC 9110.
 *
 * `Respond` is the specification of one request: the response and the task
 * list afterwards, as a function of the list before. `TaskStore.Handle` is the
 * handler itself, step by step with early returns, and is proved to follow it.
 */
module TasksApi {
  import opened Js
  import opened TaskLists

  // Status codes (RFC 9110, sections 15.3.1, 15.3.2, 15.3.5, 15.5.1, 15.5.5 and 15.5.6)
  const OK: nat := 200
  const CREATED: nat := 201
  const NO_CONTENT: nat := 204
  const BAD_REQUEST: nat := 400
  const NOT_FOUND: nat := 404
  const METHOD_NOT_ALLOWED: nat := 405

  /** What a request body denotes once parsed: an object with (possibly undefined) fields, `null`, or another JSON value. */
  datatype Payload = Fields(text: JsValue, completed: JsValue) | NullPayload | Primitive

  /**
   * `req.body`: a falsy body (replaced by `{}`), a non-empty string that still
   * has to go through JSON.parse (`None` when it throws), or an already parsed value.
   */
  datatype Body = NoBody | JsonText(parsed: Option<Payload>) | Parsed(payload: Payload)

  datatype Request = Request(verb: string, url: string, body: Body)

  datatype ResponseBody = Empty | TaskArray(tasks: seq<Task>) | TaskObject(task: Task) | Error(message: string)

  datatype Response = Response(status: nat, body: ResponseBody)

  /** A response together with the task list it leaves behind. */
  datatype Reply = Reply(response: Response, store: seq<Task>)

  /** The task list the module starts with. */
  const SeedTasks: seq<Task> := [Task("t1", "Go to school", false), Task("t2", "Complete assignment", true)]

  /** `t${Date.now()}${Math.floor(Math.random() * 1000)}` */
  function ServerId(now: nat, random: nat): (id: string)
    ensures |id| >= 3 && id[0] == 't'
  {
    "t" + NatToString(now) + NatToString(random)
  }

  // ---------------------------------------------------------------------------
  // Paths: url.split('/').filter(Boolean)

  /** `s.split(sep)`: the pieces between separators, empty ones included. */
  function Split(s: string, sep: char): (pieces: seq<string>)
    ensures |pieces| >= 1
    ensures forall i :: 0 <= i < |pieces| ==> sep !in pieces[i]
    decreases |s|
  {
    if s == [] then [""]
    else
      var rest := Split(s[1..], sep);
      if s[0] == sep then [""] + rest else [[s[0]] + rest[0]] + rest[1..]
  }

  /** `pieces.join(sep)` */
  function Join(pieces: seq<string>, sep: char): string
    requires |pieces| >= 1
  {
    if |pieces| == 1 then pieces[0] else pieces[0] + [sep] + Join(pieces[1..], sep)
  }

  /** Splitting loses nothing: joining the pieces back gives the original string. */
  lemma {:induction false} JoinSplit(s: string, sep: char)
    ensures Join(Split(s, sep), sep) == s
  {
    if s != [] {
      var rest := Split(s[1..], sep);
      JoinSplit(s[1..], sep);
      if s[0] == sep {
        assert Split(s, sep)[1..] == rest;
      } else if |rest| > 1 {
        assert Split(s, sep)[1..] == rest[1..];
      }
    }
  }

  /** Splitting at a separator splits the two sides independently. */
  lemma {:induction false} SplitAtSeparator(a: string, b: string, sep: char)
    ensures Split(a + [sep] + b, sep) == Split(a, sep) + Split(b, sep)
  {
    if a == [] {
      assert a + [sep] + b == [sep] + b;
      assert ([sep] + b)[1..] == b;
    } else {
      assert (a + [sep] + b)[1..] == a[1..] + [sep] + b;
      SplitAtSeparator(a[1..], b, sep);
    }
  }

  /** A string without separators is one piece. */
  lemma {:induction false} SplitNoSeparator(s: string, sep: char)
    requires sep !in s
    ensures Split(s, sep) == [s]
  {
    if s != [] {
      SplitNoSeparator(s[1..], sep);
      assert [s[0]] + s[1..] == s;
    }
  }

  /** Joining separator-free pieces and splitting again gives the pieces back. */
  lemma {:induction false} SplitJoin(pieces: seq<string>, sep: char)
    requires |pieces| >= 1
    requires forall i :: 0 <= i < |pieces| ==> sep !in pieces[i]
    ensures Split(Join(pieces, sep), sep) == pieces
  {
    if |pieces| == 1 {
      SplitNoSeparator(pieces[0], sep);
    } else {
      SplitAtSeparator(pieces[0], Join(pieces[1..], sep), sep);
      SplitNoSeparator(pieces[0], sep);
      SplitJoin(pieces[1..], sep);
    }
  }

  /** `.filter(Boolean)` on strings: drops the empty ones. */
  function NonEmpty(pieces: seq<string>): (r: seq<string>)
    ensures |r| <= |pieces|
    ensures forall p :: p in r <==> p in pieces && p != ""
  {
    if pieces == [] then []
    else if pieces[0] == "" then NonEmpty(pieces[1..])
    else [pieces[0]] + NonEmpty(pieces[1..])
  }

  lemma {:induction false} NonEmptyAppend(a: seq<string>, b: seq<string>)
    ensures NonEmpty(a + b) == NonEmpty(a) + NonEmpty(b)
  {
    if a == [] {
      assert a + b == b;
    } else {
      assert (a + b)[1..] == a[1..] + b;
      NonEmptyAppend(a[1..], b);
    }
  }

  lemma {:induction false} NonEmptyKeepsAll(pieces: seq<string>)
    requires forall i :: 0 <= i < |pieces| ==> pieces[i] != ""
    ensures NonEmpty(pieces) == pieces
  {
    if pieces != [] {
      NonEmptyKeepsAll(pieces[1..]);
    }
  }

  /** `url.split('/').filter(Boolean)`: the path segments of a URL. */
  function Segments(url: string): (parts: seq<string>)
    ensures forall i :: 0 <= i < |parts| ==> parts[i] != "" && '/' !in parts[i]
  {
    var pieces := Split(url, '/');
    var parts := NonEmpty(pieces);
    assert forall i :: 0 <= i < |parts| ==> parts[i] in pieces;
    parts
  }

  /** Every path made of non-empty, slash-free segments, each after a '/', splits back into those segments. */
  lemma PathSegments(parts: seq<string>)
    requires |parts| >= 1
    requires forall i :: 0 <= i < |parts| ==> parts[i] != "" && '/' !in parts[i]
    ensures Segments("/" + Join(parts, '/')) == parts
  {
    var path := Join(parts, '/');
    assert "/" + path == [] + ['/'] + path;
    SplitAtSeparator([], path, '/');
    SplitJoin(parts, '/');
    assert Split("/" + path, '/') == [""] + parts;
    NonEmptyAppend([""], parts);
    NonEmptyKeepsAll(parts);
  }

  // ---------------------------------------------------------------------------
  // Routing

  datatype Endpoint = Preflight | Collection | Item(id: string) | Unmatched

  /**
   * Which branch of the handler a request takes: OPTIONS before anything else,
   * then `[_, "tasks"]` for the collection and `[_, "tasks", id]` for one task.
   */
  function Route(parts: seq<string>, verb: string): (e: Endpoint)
    ensures e == Preflight <==> verb == "OPTIONS"
    ensures e == Collection <==> verb != "OPTIONS" && |parts| == 2 && parts[1] == "tasks"
    ensures e.Item? <==> verb != "OPTIONS" && |parts| == 3 && parts[1] == "tasks"
    ensures e.Item? ==> e.id == parts[2]
  {
    if verb == "OPTIONS" then Preflight
    else if |parts| == 2 && parts[1] == "tasks" then Collection
    else if |parts| == 3 && parts[1] == "tasks" then Item(parts[2])
    else Unmatched
  }

  /** The first segment is never looked at: `/api/tasks` and `/anything/tasks` route alike. */
  lemma RouteIgnoresFirstSegment(parts: seq<string>, verb: string, other: string)
    requires |parts| >= 1
    ensures Route(parts[0 := other], verb) == Route(parts, verb)
  {
  }

  /** `/<prefix>/tasks` and `/<prefix>/tasks/<id>` (e.g. `/api/tasks/t1`) reach the collection and item routes. */
  lemma TaskPaths(prefix: string, id: string, verb: string)
    requires prefix != "" && '/' !in prefix
    requires id != "" && '/' !in id && verb != "OPTIONS"
    ensures Route(Segments("/" + prefix + "/tasks"), verb) == Collection
    ensures Route(Segments("/" + prefix + "/tasks/" + id), verb) == Item(id)
  {
    var collection := [prefix, "tasks"];
    var item := [prefix, "tasks", id];
    PathSegments(collection);
    PathSegments(item);
    assert collection[1..] == ["tasks"];
    assert item[1..] == ["tasks", id] && item[1..][1..] == [id];
    assert Join(item[1..], '/') == "tasks/" + id;
    assert "/" + Join(collection, '/') == "/" + prefix + "/tasks";
    assert "/" + Join(item, '/') == "/" + prefix + "/tasks/" + id;
  }

  /**
   * A query string stays glued to the last segment, so `/api/tasks?user=<name>`
   * (the URL the client loads a user's tasks from) matches no route.
   */
  lemma QueryStringUnmatched(prefix: string, query: string, verb: string)
    requires prefix != "" && '/' !in prefix
    requires '/' !in query && verb != "OPTIONS"
    ensures Route(Segments("/" + prefix + "/tasks?" + query), verb) == Unmatched
  {
    var last := "tasks?" + query;
    var parts := [prefix, last];
    PathSegments(parts);
    assert parts[1..] == [last];
    assert "/" + Join(parts, '/') == "/" + prefix + "/tasks?" + query;
    assert last[5] == '?';
  }

  // ---------------------------------------------------------------------------
  // Bodies

  /**
   * `typeof body === 'string' ? JSON.parse(body) : body` with `body = req.body || {}`:
   * `None` when JSON.parse throws.
   */
  function ReadPayload(body: Body): (p: Option<Payload>)
    ensures p.None? <==> body == JsonText(None)
  {
    match body
    case NoBody => Some(Fields(Undefined, Undefined))
    case JsonText(parsed) => parsed
    case Parsed(NullPayload) => Some(Fields(Undefined, Undefined))
    case Parsed(payload) => Some(payload)
  }

  /**
   * The task a POST creates from its payload, or `None` when `text` is missing,
   * empty or not a string. The check runs on the untrimmed text.
   */
  function NewTask(payload: Payload, id: string): (t: Option<Task>)
    ensures t.Some? <==> payload.Fields? && payload.text.Str? && payload.text.s != ""
    ensures t.Some? ==> t.value.id == id && t.value.text == Trim(payload.text.s)
                        && t.value.completed == Truthy(payload.completed)
  {
    if payload.Fields? && payload.text.Str? && payload.text.s != "" then
      Some(Task(id, Trim(payload.text.s), Truthy(payload.completed)))
    else None
  }

  /**
   * `{ ...task }` overwritten with `String(payload.text)` and `!!payload.completed`
   * where those are not undefined; `None` when the payload is `null`, where
   * reading `payload.text` throws.
   */
  function Patch(task: Task, payload: Payload): (r: Option<Task>)
    ensures r.None? <==> payload.NullPayload?
    ensures r.Some? ==> r.value.id == task.id
    ensures r.Some? && (payload.Primitive? || payload.text == Undefined) ==> r.value.text == task.text
    ensures r.Some? && (payload.Primitive? || payload.completed == Undefined) ==> r.value.completed == task.completed
    ensures r.Some? && payload.Fields? && payload.text != Undefined ==> r.value.text == ToString(payload.text)
    ensures r.Some? && payload.Fields? && payload.completed != Undefined ==> r.value.completed == Truthy(payload.completed)
  {
    match payload
    case NullPayload => None
    case Primitive => Some(task)
    case Fields(text, completed) =>
      var t1 := if text != Undefined then task.(text := ToString(text)) else task;
      Some(if completed != Undefined then t1.(completed := Truthy(completed)) else t1)
  }

  // ---------------------------------------------------------------------------
  // One request

  function Fail(status: nat, message: string, tasks: seq<Task>): Reply {
    Reply(Response(status, Error(message)), tasks)
  }

  /** The response to `req` and the task list after it, given the list before it and the id a POST would use. */
  function Respond(tasks: seq<Task>, req: Request, newId: string): (o: Reply)
    ensures o.response.status in {OK, CREATED, NO_CONTENT, BAD_REQUEST, NOT_FOUND, METHOD_NOT_ALLOWED}
    ensures req.verb == "OPTIONS" <==> o.response.status == NO_CONTENT
    ensures o.response.status == NO_CONTENT ==> o == Reply(Response(NO_CONTENT, Empty), tasks)
    ensures o.response.status !in {OK, CREATED} ==> o.store == tasks
    ensures req.verb == "GET" ==> o.store == tasks
    ensures o.response.status == CREATED ==>
      req.verb == "POST" && o.response.body.TaskObject? && o.response.body.task.id == newId
      && o.store == tasks + [o.response.body.task]
    ensures o.store != tasks ==>
      o.response.status == CREATED
      || (o.response.status == OK && req.verb in {"PUT", "PATCH", "DELETE"})
  {
    match Route(Segments(req.url), req.verb)
    case Preflight => Reply(Response(NO_CONTENT, Empty), tasks)
    case Unmatched => Fail(NOT_FOUND, "Not Found", tasks)
    case Collection =>
      if req.verb == "GET" then Reply(Response(OK, TaskArray(tasks)), tasks)
      else if req.verb == "POST" then
        match ReadPayload(req.body)
        case None => Fail(BAD_REQUEST, "Invalid JSON body", tasks)
        case Some(payload) =>
          match NewTask(payload, newId)
          case None => Fail(BAD_REQUEST, "Missing or invalid `text` in body", tasks)
          case Some(item) => Reply(Response(CREATED, TaskObject(item)), tasks + [item])
      else Fail(METHOD_NOT_ALLOWED, "Method Not Allowed", tasks)
    case Item(id) =>
      var k := FindIndex(tasks, id);
      if k == -1 then Fail(NOT_FOUND, "Task not found", tasks)
      else if req.verb == "GET" then Reply(Response(OK, TaskObject(tasks[k])), tasks)
      else if req.verb == "PUT" || req.verb == "PATCH" then
        match ReadPayload(req.body)
        case None => Fail(BAD_REQUEST, "Invalid JSON body", tasks)
        case Some(payload) =>
          match Patch(tasks[k], payload)
          case None => Fail(BAD_REQUEST, "Invalid JSON body", tasks)
          case Some(updated) => Reply(Response(OK, TaskObject(updated)), tasks[k := updated])
      else if req.verb == "DELETE" then
        Reply(Response(OK, TaskObject(tasks[k])), tasks[..k] + tasks[k + 1..])
      else Fail(METHOD_NOT_ALLOWED, "Method Not Allowed", tasks)
  }

  /**
   * A POST to the collection creates a task (201, appended last, text trimmed,
   * `completed` its truthiness) exactly when the body parses and its `text` is
   * a non-empty string; otherwise it is a 400 and the list is unchanged.
   */
  lemma PostOutcome(tasks: seq<Task>, req: Request, newId: string)
    requires Route(Segments(req.url), req.verb) == Collection && req.verb == "POST"
    ensures var o := Respond(tasks, req, newId);
      var p := ReadPayload(req.body);
      if p.Some? && p.value.Fields? && p.value.text.Str? && p.value.text.s != "" then
        var item := Task(newId, Trim(p.value.text.s), Truthy(p.value.completed));
        o == Reply(Response(CREATED, TaskObject(item)), tasks + [item])
      else
        o.response.status == BAD_REQUEST && o.store == tasks
  {
    match ReadPayload(req.body)
    case None =>
    case Some(payload) =>
      assert NewTask(payload, newId).Some? <==> payload.Fields? && payload.text.Str? && payload.text.s != "";
  }

  /**
   * The statuses of the router: an unmatched path is 404 "Not Found"; GET on
   * the collection is 200 with the whole list and GET on a known item is 200
   * with the first task carrying its id; PUT/PATCH on a known item is 200
   * exactly when the body parses to something other than `null`, and 400
   * "Invalid JSON body" otherwise. None of these but a successful update
   * changes the list.
   */
  lemma RouterStatuses(tasks: seq<Task>, req: Request, newId: string)
    ensures var e := Route(Segments(req.url), req.verb);
      var o := Respond(tasks, req, newId);
      && (e == Unmatched ==> o == Fail(NOT_FOUND, "Not Found", tasks))
      && (e == Collection && req.verb == "GET" ==> o == Reply(Response(OK, TaskArray(tasks)), tasks))
      && (e.Item? && req.verb == "GET" && FindById(tasks, e.id).Some? ==>
            o == Reply(Response(OK, TaskObject(FindById(tasks, e.id).value)), tasks))
      && (e.Item? && FindIndex(tasks, e.id) >= 0 && req.verb in {"PUT", "PATCH"} ==>
            var p := ReadPayload(req.body);
            && (o.response.status == OK <==> p.Some? && !p.value.NullPayload?)
            && (o.response.status != OK ==> o == Fail(BAD_REQUEST, "Invalid JSON body", tasks)))
  {
  }

  /** The client's `/api/tasks?user=<name>` is therefore answered 404 "Not Found", whatever its verb (bar OPTIONS) and body. */
  lemma QueryStringNotFound(tasks: seq<Task>, prefix: string, query: string, req: Request, newId: string)
    requires prefix != "" && '/' !in prefix
    requires '/' !in query && req.verb != "OPTIONS"
    requires req.url == "/" + prefix + "/tasks?" + query
    ensures Respond(tasks, req, newId) == Fail(NOT_FOUND, "Not Found", tasks)
  {
    QueryStringUnmatched(prefix, query, req.verb);
  }

  /**
   * A verb a route does not handle is 405: anything but GET and POST on the
   * collection, and anything but GET, PUT, PATCH and DELETE on a known item
   * (an unknown id is 404 first).
   */
  lemma UnsupportedVerbNotAllowed(tasks: seq<Task>, req: Request, newId: string)
    ensures var e := Route(Segments(req.url), req.verb);
      ((e == Collection && req.verb !in {"GET", "POST"})
       || (e.Item? && FindIndex(tasks, e.id) >= 0 && req.verb !in {"GET", "PUT", "PATCH", "DELETE"})) ==>
        Respond(tasks, req, newId) == Fail(METHOD_NOT_ALLOWED, "Method Not Allowed", tasks)
  {
  }

  /** On the item route an id no task carries is 404 whatever the method (bar OPTIONS), before any 405. */
  lemma UnknownIdNotFound(tasks: seq<Task>, req: Request, newId: string)
    requires Route(Segments(req.url), req.verb).Item?
    requires forall i :: 0 <= i < |tasks| ==> tasks[i].id != Route(Segments(req.url), req.verb).id
    ensures Respond(tasks, req, newId) == Fail(NOT_FOUND, "Task not found", tasks)
  {
  }

  /** A POST whose text is only whitespace passes the check and stores a task with empty text. */
  lemma WhitespaceTextStoredEmpty(tasks: seq<Task>, req: Request, newId: string, text: string, completed: JsValue)
    requires Route(Segments(req.url), req.verb) == Collection && req.verb == "POST"
    requires req.body == Parsed(Fields(Str(text), completed))
    requires text != "" && AllWhitespace(text)
    ensures Respond(tasks, req, newId) ==
      Reply(Response(CREATED, TaskObject(Task(newId, "", Truthy(completed)))),
            tasks + [Task(newId, "", Truthy(completed))])
  {
  }

  /**
   * A successful PUT/PATCH rewrites only the first task with the id, keeps that
   * task's id, and changes a field only when the payload carries it.
   */
  lemma UpdateTouchesOneTask(tasks: seq<Task>, req: Request, newId: string)
    requires Route(Segments(req.url), req.verb).Item?
    requires req.verb in {"PUT", "PATCH"}
    requires Respond(tasks, req, newId).response.status == OK
    ensures var id := Route(Segments(req.url), req.verb).id;
      var k := FindIndex(tasks, id);
      var after := Respond(tasks, req, newId).store;
      && 0 <= k < |after| == |tasks|
      && after[k].id == id
      && (forall i :: 0 <= i < |tasks| && i != k ==> after[i] == tasks[i])
      && Respond(tasks, req, newId).response.body == TaskObject(after[k])
      && match ReadPayload(req.body).value
         case Fields(text, completed) =>
           && after[k].text == (if text == Undefined then tasks[k].text else ToString(text))
           && after[k].completed == (if completed == Undefined then tasks[k].completed else Truthy(completed))
         case _ => after[k] == tasks[k]
  {
  }

  /**
   * A DELETE that finds its id removes the first task carrying it and answers
   * with that task; the others keep their order.
   */
  lemma DeleteRemovesOneTask(tasks: seq<Task>, req: Request, newId: string)
    requires Route(Segments(req.url), req.verb).Item? && req.verb == "DELETE"
    requires FindIndex(tasks, Route(Segments(req.url), req.verb).id) >= 0
    ensures var id := Route(Segments(req.url), req.verb).id;
      var k := FindIndex(tasks, id);
      var o := Respond(tasks, req, newId);
      && o.response == Response(OK, TaskObject(tasks[k]))
      && o.store == tasks[..k] + tasks[k + 1..]
      && |o.store| == |tasks| - 1
  {
  }

  /** With unique ids, the server's DELETE leaves the same list as the client's `filter(t => t.id !== id)`. */
  lemma DeleteAgreesWithClientFilter(tasks: seq<Task>, req: Request, newId: string)
    requires Route(Segments(req.url), req.verb).Item? && req.verb == "DELETE"
    requires FindIndex(tasks, Route(Segments(req.url), req.verb).id) >= 0
    requires forall i, j :: 0 <= i < j < |tasks| ==> tasks[i].id != tasks[j].id
    ensures Respond(tasks, req, newId).store == WithoutId(tasks, Route(Segments(req.url), req.verb).id)
  {
    var id := Route(Segments(req.url), req.verb).id;
    var k := FindIndex(tasks, id);
    DeleteRemovesOneTask(tasks, req, newId);
    assert forall i :: 0 <= i < |tasks| && i != k ==> tasks[i].id != id by {
      forall i | 0 <= i < |tasks| && i != k ensures tasks[i].id != id {
        if i < k { assert tasks[i].id != tasks[k].id; } else { assert tasks[k].id != tasks[i].id; }
      }
    }
    WithoutUniqueId(tasks, id, k);
  }

  // ---------------------------------------------------------------------------
  // The module state and the handler

  class TaskStore {
    var tasks: seq<Task>
    var initialized: bool

    constructor ()
      ensures tasks == SeedTasks && !initialized
    {
      tasks := SeedTasks;
      initialized := false;
    }

    /**
     * `initStore()`: the first call adopts what the data file holds (`file` is
     * `None` when file storage is off, the file is missing or unreadable, or it
     * does not hold an array); later calls do nothing.
     */
    method InitStore(file: Option<seq<Task>>)
      modifies this
      ensures initialized
      ensures tasks == if old(initialized) || file.None? then old(tasks) else file.value
    {
      if initialized {
        return;
      }
      if file.Some? {
        tasks := file.value;
      }
      initialized := true;
    }

    /** `handler(req, res)`, with the clock and the random number of a new id as parameters. */
    method Handle(req: Request, file: Option<seq<Task>>, now: nat, random: nat) returns (resp: Response)
      requires random < 1000
      modifies this
      ensures initialized
      ensures var loaded := if old(initialized) || file.None? then old(tasks) else file.value;
        Reply(resp, tasks) == Respond(loaded, req, ServerId(now, random))
    {
      InitStore(file);

      if req.verb == "OPTIONS" {
        return Response(NO_CONTENT, Empty);
      }

      var parts := Segments(req.url);

      if |parts| == 2 && parts[1] == "tasks" {
        resp := HandleCollection(req, ServerId(now, random));
        return;
      }

      if |parts| == 3 && parts[1] == "tasks" {
        resp := HandleItem(req, parts[2]);
        return;
      }

      return Response(NOT_FOUND, Error("Not Found"));
    }

    /** The `/api/tasks` branch of the handler: list, create, or 405. */
    method HandleCollection(req: Request, newId: string) returns (resp: Response)
      requires Route(Segments(req.url), req.verb) == Collection
      modifies this`tasks
      ensures Reply(resp, tasks) == Respond(old(tasks), req, newId)
    {
      if req.verb == "GET" {
        return Response(OK, TaskArray(tasks));
      }
      if req.verb == "POST" {
        var payload := ReadPayload(req.body);
        if payload.None? {
          return Response(BAD_REQUEST, Error("Invalid JSON body"));
        }
        var p := payload.value;
        if !(p.Fields? && p.text.Str? && p.text.s != "") {
          return Response(BAD_REQUEST, Error("Missing or invalid `text` in body"));
        }
        var item := Task(newId, Trim(p.text.s), Truthy(p.completed));
        tasks := tasks + [item];
        return Response(CREATED, TaskObject(item));
      }
      return Response(METHOD_NOT_ALLOWED, Error("Method Not Allowed"));
    }

    /**
     * The `/api/tasks/:id` branch of the handler: 404 for an unknown id, else
     * read, update, delete, or 405. No task is created here, so the outcome
     * agrees with `Respond` whatever id a POST would have used.
     */
    method HandleItem(req: Request, id: string) returns (resp: Response)
      requires Route(Segments(req.url), req.verb) == Item(id)
      modifies this`tasks
      ensures forall newId :: Reply(resp, tasks) == Respond(old(tasks), req, newId)
    {
      var idx := FindIndex(tasks, id);
      if idx == -1 {
        return Response(NOT_FOUND, Error("Task not found"));
      }
      if req.verb == "GET" {
        return Response(OK, TaskObject(tasks[idx]));
      }
      if req.verb == "PUT" || req.verb == "PATCH" {
        var payload := ReadPayload(req.body);
        if payload.None? || payload.value.NullPayload? {
          return Response(BAD_REQUEST, Error("Invalid JSON body"));
        }
        var updated := tasks[idx];
        if payload.value.Fields? && payload.value.text != Undefined {
          updated := updated.(text := ToString(payload.value.text));
        }
        if payload.value.Fields? && payload.value.completed != Undefined {
          updated := updated.(completed := Truthy(payload.value.completed));
        }
        tasks := tasks[idx := updated];
        return Response(OK, TaskObject(updated));
      }
      if req.verb == "DELETE" {
        var removed := tasks[idx];
        tasks := tasks[..idx] + tasks[idx + 1..];
        return Response(OK, TaskObject(removed));
      }
      return Response(METHOD_NOT_ALLOWED, Error("Method Not Allowed"));
    }
  }
}
