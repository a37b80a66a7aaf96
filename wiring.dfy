/** How the two stores and the guard fit together through the one shared
    localStorage: the guard and fetchTasks read storage, the session store writes it. */
module Wiring {
  import opened Js
  import opened Api
  import opened TaskList
  import opened TaskContext
  import opened AuthContext
  import opened App

  /** Reading the persisted token instead of the session's in-memory one changes
      no guard decision: while the sync effect has run, the guard decides on
      storage exactly as it would on the token. */
  lemma GuardAgreesWithSession(session: SessionStore, child: View)
    requires session.Valid()
    ensures PrivateRoute(child, session.storage.token) == PrivateRoute(child, session.token)
  {
  }

  /** A successful login of a@b.com stores "tok1"; the guard then lets /tasks
      through and fetchTasks sends its request and takes the server's list. */
  method LoginThenFetch(listed: seq<Task>)
  {
    var storage := new LocalStorage(None);
    var session := new SessionStore(storage);
    var store := new TaskStore(storage);
    var reply := AuthData(Some(User(1, "a@b.com")), Some("tok1"));
    var settled := session.Login(Ok(reply));
    assert settled == Fulfilled && storage.token == Some("tok1");
    assert Resolve("/tasks", storage.token, 0) == Some(TaskListPage);
    store.FetchTasks(Ok(listed));
    assert store.tasks == listed && store.error == None && !store.loading;
    assert session.Valid();
  }

  /** A 401 on fetchTasks reports an expired session but clears neither the
      session nor the stored token, so the guard still renders /tasks. */
  method ExpiredSessionKeepsToken(status401: ErrorResponse)
    requires status401.status == 401
  {
    var storage := new LocalStorage(Some("stale"));
    var session := new SessionStore(storage);
    var store := new TaskStore(storage);
    store.FetchTasks(Err(Failure(Some(status401))));
    assert store.error == Some(SessionExpired) && store.tasks == [];
    assert session.token == Some("stale") && session.Valid();
    assert Resolve("/tasks", storage.token, 0) == Some(TaskListPage);
  }

  /** After logout no request is made: fetchTasks reports that nobody is signed
      in, and every guarded path resolves to the login page. */
  method LogoutThenFetch(listed: seq<Task>)
  {
    var storage := new LocalStorage(Some("tok1"));
    var session := new SessionStore(storage);
    var store := new TaskStore(storage);
    session.Logout();
    store.FetchTasks(Ok(listed));
    assert store.error == Some(NotAuthenticated) && store.tasks == [] && !store.loading;
    assert Resolve("/tasks/new", storage.token, 1) == Some(LoginPage);
  }

  /** Creating a task the server numbers 5 appends it after the existing ones;
      deleting 5 locally and then fetching a list that still holds it brings it
      back (the store never overrides the server). */
  method CreateDeleteFetch(existing: Task, created: Task)
    requires created.id == NumberId(5) && existing.id != created.id
  {
    var storage := new LocalStorage(Some("tok1"));
    var store := new TaskStore(storage);
    store.FetchTasks(Ok([existing]));
    var s1 := store.CreateTask(Ok(created));
    assert store.tasks == [existing, created] && s1 == Fulfilled;
    var s2 := store.DeleteTask(NumberId(5), Ok(()));
    assert store.tasks == [existing] by {
      assert [existing, created] == [existing] + [created];
      RemoveByIdConcat([existing], [created], NumberId(5));
      RemoveByIdSingle(existing, NumberId(5));
      RemoveByIdSingle(created, NumberId(5));
    }
    store.FetchTasks(Ok([existing, created]));
    assert HasId(store.tasks, NumberId(5)) by {
      assert store.tasks[1].id == NumberId(5);
    }
  }

  /** Strict equality on ids: an update addressed to the string "5" leaves a
      task whose id is the number 5 untouched. */
  method UpdateIsStrict(t: Task, u: Task)
    requires t.id == NumberId(5)
  {
    var storage := new LocalStorage(Some("tok1"));
    var store := new TaskStore(storage);
    store.FetchTasks(Ok([t]));
    var settled := store.UpdateTask(StringId("5"), Ok(u));
    assert !HasId([t], StringId("5"));
    ReplaceByIdAbsent([t], StringId("5"), u);
    assert store.tasks == [t] && settled == Fulfilled;
  }
}
