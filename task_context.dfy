/** The task collection store (TaskProvider): the list of tasks, a loading flag and
    an error message, updated by each operation from the outcome of its request. */
module TaskContext {
  import opened Js
  import opened Api
  import opened TaskList

  const NotAuthenticated := "Not authenticated. Please log in."
  const SessionExpired := "Session expired. Please log in again."
  const FetchFailed := "Failed to fetch tasks"
  const CreateFailed := "Failed to create task"
  const UpdateFailed := "Failed to update task"
  const DeleteFailed := "Failed to delete task"
  const ExportFailed := "Failed to export tasks"
  const TemplateFailed := "Failed to download template"
  const ImportFailed := "Failed to import tasks"

  /** The message a failed list request leaves in `error`. It is never empty, so
      the error is always shown; a 401 is reported as an expired session; any
      other failure shows the server's own message when it sent a non-empty one
      and the generic message otherwise. */
  function FetchErrorMessage(f: Failure): (msg: string)
    ensures msg != ""
    ensures Unauthorized(f) ==> msg == SessionExpired
    ensures !Unauthorized(f) && Truthy(ServerError(f)) ==> msg == ServerError(f).value
    ensures !Unauthorized(f) && !Truthy(ServerError(f)) ==> msg == FetchFailed
  {
    if Unauthorized(f) then SessionExpired
    else if Truthy(ServerError(f)) then ServerError(f).value
    else FetchFailed
  }

  /** An expired session is reported differently from a failure the server did
      not explain, whatever the status of the latter. */
  lemma ExpiredIsNotGeneric(f: Failure, g: Failure)
    requires Unauthorized(f) && !Unauthorized(g) && !Truthy(ServerError(g))
    ensures FetchErrorMessage(f) != FetchErrorMessage(g)
  {
  }

  class TaskStore {
    var tasks: seq<Task>
    var loading: bool
    var error: Option<string>
    /** The same localStorage the session store writes: fetchTasks reads the
        token from it directly. */
    const storage: LocalStorage
    /** Every task the server has returned so far. */
    ghost var served: set<Task>

    /** No optimistic update: every local task is one the server returned. */
    ghost predicate Valid()
      reads this
    {
      forall t :: t in tasks ==> t in served
    }

    /** `useState([])`, `useState(false)`, `useState(null)` */
    constructor (storage: LocalStorage)
      ensures this.storage == storage
      ensures tasks == [] && !loading && error == None
      ensures served == {} && Valid()
    {
      this.storage := storage;
      tasks, loading, error := [], false, None;
      served := {};
    }

    /** fetchTasks: with no token in storage, no request is made; otherwise the
        list is replaced by the server's, or the error describes the failure.
        Never re-raises, and loading is false once it returns. */
    method FetchTasks(reply: Outcome<seq<Task>>)
      requires Valid()
      modifies this
      ensures Valid() && !loading
      ensures served == old(served) + if Truthy(storage.token) && reply.Ok? then set t | t in reply.data else {}
      ensures !Truthy(storage.token) ==> tasks == old(tasks) && error == Some(NotAuthenticated)
      ensures Truthy(storage.token) && reply.Ok? ==> tasks == reply.data && error == None
      ensures Truthy(storage.token) && reply.Err? ==>
                tasks == old(tasks) && error == Some(FetchErrorMessage(reply.failure))
    {
      loading := true;
      var token := storage.token;
      if !Truthy(token) {
        error := Some(NotAuthenticated);
      } else {
        match reply
        case Ok(list) =>
          served := served + set t | t in list;
          tasks := list;
          error := None;
        case Err(f) =>
          error := Some(FetchErrorMessage(f));
      }
      loading := false;
    }

    /** createTask: on success the server's task is appended; on failure the list
        is kept, the error set and the failure re-raised. */
    method CreateTask(reply: Outcome<Task>) returns (settled: Settled)
      requires Valid()
      modifies this
      ensures Valid() && loading == old(loading)
      ensures served == old(served) + if reply.Ok? then {reply.data} else {}
      ensures reply.Ok? ==> tasks == Append(old(tasks), reply.data) && error == None && settled == Fulfilled
      ensures reply.Err? ==>
                tasks == old(tasks) && error == Some(CreateFailed) && settled == Rejected(reply.failure)
    {
      match reply
      case Ok(created) =>
        served := served + {created};
        tasks := Append(tasks, created);
        error := None;
        settled := Fulfilled;
      case Err(f) =>
        error := Some(CreateFailed);
        settled := Rejected(f);
    }

    /** updateTask: on success every entry with the id becomes the server's task;
        on failure the list is kept, the error set and the failure re-raised. */
    method UpdateTask(id: Id, reply: Outcome<Task>) returns (settled: Settled)
      requires Valid()
      modifies this
      ensures Valid() && loading == old(loading)
      ensures served == old(served) + if reply.Ok? then {reply.data} else {}
      ensures reply.Ok? ==>
                tasks == ReplaceById(old(tasks), id, reply.data) && error == None && settled == Fulfilled
      ensures reply.Err? ==>
                tasks == old(tasks) && error == Some(UpdateFailed) && settled == Rejected(reply.failure)
    {
      match reply
      case Ok(updated) =>
        served := served + {updated};
        var next := ReplaceById(tasks, id, updated);
        forall i | 0 <= i < |tasks| ensures next[i] in served {
          ReplaceByIdAt(tasks, id, updated, i);
        }
        tasks := next;
        error := None;
        settled := Fulfilled;
      case Err(f) =>
        error := Some(UpdateFailed);
        settled := Rejected(f);
    }

    /** deleteTask: on success every entry with the id is removed; on failure the
        list is kept, the error set and the failure re-raised. */
    method DeleteTask(id: Id, reply: Outcome<()>) returns (settled: Settled)
      requires Valid()
      modifies this
      ensures Valid() && loading == old(loading) && served == old(served)
      ensures reply.Ok? ==> tasks == RemoveById(old(tasks), id) && error == None && settled == Fulfilled
      ensures reply.Err? ==>
                tasks == old(tasks) && error == Some(DeleteFailed) && settled == Rejected(reply.failure)
    {
      match reply
      case Ok(_) =>
        tasks := RemoveById(tasks, id);
        error := None;
        settled := Fulfilled;
      case Err(f) =>
        error := Some(DeleteFailed);
        settled := Rejected(f);
    }

    /** The common shape of exportTasks and downloadTemplate: a success only
        hands a file to the browser, a failure sets `message`; neither re-raises
        and neither touches the list. A success keeps an earlier error. */
    method Download(reply: Outcome<()>, message: string)
      modifies this`error
      ensures error == if reply.Err? then Some(message) else old(error)
    {
      if reply.Err? {
        error := Some(message);
      }
    }

    /** exportTasks */
    method ExportTasks(reply: Outcome<()>)
      modifies this`error
      ensures error == if reply.Err? then Some(ExportFailed) else old(error)
    {
      Download(reply, ExportFailed);
    }

    /** downloadTemplate */
    method DownloadTemplate(reply: Outcome<()>)
      modifies this`error
      ensures error == if reply.Err? then Some(TemplateFailed) else old(error)
    {
      Download(reply, TemplateFailed);
    }

    /** importTasks: after a successful upload the list is fetched again and the
        error is then cleared, whatever that fetch did (it never re-raises); a
        failed upload keeps the list, sets the error and re-raises. */
    method ImportTasks(upload: Outcome<()>, refresh: Outcome<seq<Task>>) returns (settled: Settled)
      requires Valid()
      modifies this
      ensures Valid()
      ensures served == old(served) +
                if upload.Ok? && Truthy(storage.token) && refresh.Ok? then set t | t in refresh.data else {}
      ensures upload.Ok? ==> error == None && !loading && settled == Fulfilled
      ensures upload.Ok? ==>
                tasks == if Truthy(storage.token) && refresh.Ok? then refresh.data else old(tasks)
      ensures upload.Err? ==>
                tasks == old(tasks) && loading == old(loading) && error == Some(ImportFailed) &&
                settled == Rejected(upload.failure)
    {
      match upload
      case Ok(_) =>
        FetchTasks(refresh);
        error := None;
        settled := Fulfilled;
      case Err(f) =>
        error := Some(ImportFailed);
        settled := Rejected(f);
    }
  }
}
