/**
 * The `/tasks` endpoints over an abstract task table.
 *
 * The database session is replaced by a `TaskStore` object: the task table
 * as a map from id to row, the set of existing user ids, and the table's
 * auto-increment counter (the id the next insert receives).
 */
module Tasks {
  import opened Common

  /** A row of the `tasks` table. */
  datatype Task = Task(id: int, userId: int, title: string, completed: bool)

  /** A partial update: only the fields given (not `None`) are written. */
  datatype TaskUpdate = TaskUpdate(title: Option<string>, completed: Option<bool>)

  /** The optional query parameters of the listing. */
  datatype TaskFilter = TaskFilter(userId: Option<int>, completed: Option<bool>)

  const UserMissing: HttpError := HttpError(404, "User does not exist")
  const TaskMissing: HttpError := HttpError(404, "Not found")

  predicate Matches(t: Task, f: TaskFilter) {
    && (f.userId.None? || t.userId == f.userId.value)
    && (f.completed.None? || t.completed == f.completed.value)
  }

  /** Every row is stored under its own id. */
  ghost predicate KeyedById(tasks: map<int, Task>) {
    forall id :: id in tasks ==> tasks[id].id == id
  }

  /**
   * The rows with ids from `hi` down to 1 that pass the filter, highest id
   * first: the filtered query ordered by descending id.
   */
  function Query(tasks: map<int, Task>, hi: int, f: TaskFilter): seq<Task>
    decreases hi
  {
    if hi < 1 then []
    else (if hi in tasks && Matches(tasks[hi], f) then [tasks[hi]] else []) + Query(tasks, hi - 1, f)
  }

  lemma {:induction false} QueryOrdered(tasks: map<int, Task>, hi: int, f: TaskFilter)
    requires KeyedById(tasks)
    ensures forall i :: 0 <= i < |Query(tasks, hi, f)| ==> 1 <= Query(tasks, hi, f)[i].id <= hi
    ensures forall i, j :: 0 <= i < j < |Query(tasks, hi, f)| ==> Query(tasks, hi, f)[i].id > Query(tasks, hi, f)[j].id
    decreases hi
  {
    if hi >= 1 {
      QueryOrdered(tasks, hi - 1, f);
      var head := if hi in tasks && Matches(tasks[hi], f) then [tasks[hi]] else [];
      var rest := Query(tasks, hi - 1, f);
      assert Query(tasks, hi, f) == head + rest;
      assert forall i :: 0 <= i < |head| ==> head[i].id == hi;
      forall i, j | 0 <= i < j < |head + rest|
        ensures (head + rest)[i].id > (head + rest)[j].id
      {
        if i >= |head| {
          assert (head + rest)[i] == rest[i - |head|] && (head + rest)[j] == rest[j - |head|];
        } else {
          assert (head + rest)[j] == rest[j - |head|];
        }
      }
    }
  }

  lemma {:induction false} QueryMembers(tasks: map<int, Task>, hi: int, f: TaskFilter)
    requires KeyedById(tasks)
    ensures forall t :: t in Query(tasks, hi, f) <==> t.id in tasks && tasks[t.id] == t && 1 <= t.id <= hi && Matches(t, f)
    decreases hi
  {
    if hi >= 1 {
      QueryMembers(tasks, hi - 1, f);
    }
  }

  class TaskStore {
    var tasks: map<int, Task>
    /** Ids of the rows of the `users` table, which this module only reads. */
    var users: set<int>
    var nextId: int

    ghost predicate Valid()
      reads this
    {
      && 1 <= nextId
      && KeyedById(tasks)
      && (forall id :: id in tasks ==> 1 <= id < nextId && tasks[id].userId in users)
    }

    /** An empty task table next to the given users. */
    constructor (users: set<int>)
      ensures Valid()
      ensures this.users == users && tasks == map[] && nextId == 1
    {
      this.users := users;
      tasks := map[];
      nextId := 1;
    }

    /** `list_tasks`: the tasks that pass the filter, by descending id. */
    function ListTasks(f: TaskFilter): (r: seq<Task>)
      reads this
      requires Valid()
      ensures forall t :: t in r <==> t.id in tasks && tasks[t.id] == t && Matches(t, f)
      ensures forall i, j :: 0 <= i < j < |r| ==> r[i].id > r[j].id
    {
      QueryMembers(tasks, nextId - 1, f);
      QueryOrdered(tasks, nextId - 1, f);
      Query(tasks, nextId - 1, f)
    }

    /** `create_task`: the user must exist; the new row gets the next id and is not completed. */
    method CreateTask(userId: int, title: string) returns (r: Result<Task, HttpError>)
      requires Valid()
      modifies this
      ensures Valid() && users == old(users)
      ensures userId !in users ==> r == Failure(UserMissing) && tasks == old(tasks) && nextId == old(nextId)
      ensures userId in users ==>
        && r == Success(Task(old(nextId), userId, title, false))
        && old(nextId) !in old(tasks)
        && tasks == old(tasks)[old(nextId) := r.value]
        && nextId == old(nextId) + 1
      ensures r.Success? ==> r.value in ListTasks(TaskFilter(Some(userId), None))
    {
      if userId !in users {
        return Failure(UserMissing);
      }
      var task := Task(nextId, userId, title, false);
      tasks := tasks[nextId := task];
      nextId := nextId + 1;
      r := Success(task);
    }

    /** `update_task`: only the fields the update gives are written. */
    method UpdateTask(id: int, patch: TaskUpdate) returns (r: Result<Task, HttpError>)
      requires Valid()
      modifies this
      ensures Valid() && users == old(users) && nextId == old(nextId)
      ensures id !in old(tasks) ==> r == Failure(TaskMissing) && tasks == old(tasks)
      ensures id in old(tasks) ==>
        var before := old(tasks)[id];
        && r.Success?
        && tasks == old(tasks)[id := r.value]
        && r.value.id == id && r.value.userId == before.userId
        && r.value.title == (if patch.title.Some? then patch.title.value else before.title)
        && r.value.completed == (if patch.completed.Some? then patch.completed.value else before.completed)
    {
      if id !in tasks {
        return Failure(TaskMissing);
      }
      var task := tasks[id];
      if patch.title.Some? {
        task := task.(title := patch.title.value);
      }
      if patch.completed.Some? {
        task := task.(completed := patch.completed.value);
      }
      tasks := tasks[id := task];
      r := Success(task);
    }

    /** `delete_task`: removes the row if there is one, and silently does nothing otherwise. */
    method DeleteTask(id: int)
      requires Valid()
      modifies this
      ensures Valid() && users == old(users) && nextId == old(nextId)
      ensures tasks == old(tasks) - {id}
      ensures id !in old(tasks) ==> tasks == old(tasks)
      ensures forall f: TaskFilter, t: Task :: t in ListTasks(f) ==> t.id != id
    {
      if id !in tasks {
        return;
      }
      tasks := tasks - {id};
    }
  }

  /** Deleting twice leaves the table as deleting once does. */
  method DeleteTwice(store: TaskStore, id: int)
    requires store.Valid()
    modifies store
    ensures store.Valid()
    ensures store.tasks == old(store.tasks) - {id}
  {
    store.DeleteTask(id);
    store.DeleteTask(id);
  }

  /**
   * The create, list, update, delete sequence of the API test, for a user
   * `uid` that exists: what each step lets the client observe.
   */
  method CreateListUpdateDeleteScenario(uid: int)
    returns (created: Task, listedAfterCreate: seq<Task>, updated: Task, listedAfterDelete: seq<Task>)
    ensures created.userId == uid && created.title == "First" && !created.completed
    ensures exists item :: item in listedAfterCreate && item.id == created.id
    ensures updated.id == created.id && updated.completed
    ensures forall item :: item in listedAfterDelete ==> item.id != created.id
  {
    var store := new TaskStore({uid});
    var r := store.CreateTask(uid, "First");
    created := r.value;
    listedAfterCreate := store.ListTasks(TaskFilter(Some(uid), None));
    var u := store.UpdateTask(created.id, TaskUpdate(None, Some(true)));
    updated := u.value;
    store.DeleteTask(created.id);
    listedAfterDelete := store.ListTasks(TaskFilter(Some(uid), None));
  }
}
