/**
 * The task table of the scraping server (TP2/server_scraping.py, `TaskRecord`
 * and `TaskManager`). Clock readings and task ids are passed in; each method
 * is one critical section under the manager's lock.
 */
module Tasks {
  import opened Wrappers
  import opened Json

  /** Seconds since the epoch, UTC. */
  type Time = real

  /** A JSON object, as the result dictionaries of a task are. */
  type Payload = map<string, Json>

  const Pending: string := "pending"
  const Completed: string := "completed"
  const Failed: string := "failed"

  datatype TaskRecord = TaskRecord(
    taskId: string,
    url: string,
    status: string,
    createdAt: Time,
    updatedAt: Time,
    result: Option<Payload>,
    error: Option<string>)

  /** `bool(x)` for the optional error string. */
  predicate ErrorSet(error: Option<string>) {
    error.Some? && error.value != ""
  }

  /** `self.result and "status" in self.result`. */
  predicate HasResultStatus(result: Option<Payload>) {
    result.Some? && result.value != map[] && "status" in result.value
  }

  /**
   * `as_status_payload`: the five fixed fields, the error only when it is a
   * non-empty string, and the result's status only when the result has one.
   * `isoformat` renders a clock reading.
   */
  function StatusPayload(r: TaskRecord, isoformat: Time -> string): (p: Payload)
    ensures p.Keys == {"task_id", "url", "status", "created_at", "updated_at"}
                      + (if ErrorSet(r.error) then {"error"} else {})
                      + (if HasResultStatus(r.result) then {"result_status"} else {})
    ensures p["task_id"] == JStr(r.taskId) && p["url"] == JStr(r.url) && p["status"] == JStr(r.status)
    ensures p["created_at"] == JStr(isoformat(r.createdAt)) && p["updated_at"] == JStr(isoformat(r.updatedAt))
    ensures "error" in p ==> p["error"] == JStr(r.error.value)
    ensures "result_status" in p ==> p["result_status"] == r.result.value["status"]
  {
    var base := map[
      "task_id" := JStr(r.taskId),
      "url" := JStr(r.url),
      "status" := JStr(r.status),
      "created_at" := JStr(isoformat(r.createdAt)),
      "updated_at" := JStr(isoformat(r.updatedAt))];
    var withError := if ErrorSet(r.error) then base["error" := JStr(r.error.value)] else base;
    if HasResultStatus(r.result) then withError["result_status" := r.result.value["status"]] else withError
  }

  /** The record `create_task` builds: pending, no result, no error, both stamps `now`. */
  function NewRecord(id: string, url: string, now: Time): (r: TaskRecord)
    ensures r.taskId == id && r.url == url
    ensures r.status == Pending && r.result == None && r.error == None
    ensures r.createdAt == now && r.updatedAt == now
  {
    TaskRecord(id, url, Pending, now, now, None, None)
  }

  /** The table after `set_status(id, status, error=error)` on a known id. */
  function StatusSet(tasks: map<string, TaskRecord>, id: string, status: string, error: Option<string>, now: Time)
    : (r: map<string, TaskRecord>)
    requires id in tasks
    ensures r.Keys == tasks.Keys
    ensures forall k | k in tasks && k != id :: r[k] == tasks[k]
    ensures r[id].status == status && r[id].error == error && r[id].updatedAt == now
    ensures r[id].taskId == tasks[id].taskId && r[id].url == tasks[id].url
    ensures r[id].createdAt == tasks[id].createdAt && r[id].result == tasks[id].result
  {
    tasks[id := tasks[id].(status := status, error := error, updatedAt := now)]
  }

  /** The table after `set_result(id, result, status)` on a known id. */
  function ResultSet(tasks: map<string, TaskRecord>, id: string, result: Payload, status: string, now: Time)
    : (r: map<string, TaskRecord>)
    requires id in tasks
    ensures r.Keys == tasks.Keys
    ensures forall k | k in tasks && k != id :: r[k] == tasks[k]
    ensures r[id].result == Some(result) && r[id].status == status && r[id].error == None
    ensures r[id].updatedAt == now
    ensures r[id].taskId == tasks[id].taskId && r[id].url == tasks[id].url
    ensures r[id].createdAt == tasks[id].createdAt
  {
    tasks[id := tasks[id].(result := Some(result), status := status, error := None, updatedAt := now)]
  }

  /** A status change followed by a result leaves the same record as the result alone. */
  lemma ResultOverridesStatus(tasks: map<string, TaskRecord>, id: string, s1: string, e: Option<string>,
                              t1: Time, result: Payload, s2: string, t2: Time)
    requires id in tasks
    ensures ResultSet(StatusSet(tasks, id, s1, e, t1), id, result, s2, t2) == ResultSet(tasks, id, result, s2, t2)
  {
    var a := ResultSet(StatusSet(tasks, id, s1, e, t1), id, result, s2, t2);
    var b := ResultSet(tasks, id, result, s2, t2);
    assert a[id] == b[id];
  }

  /** Looking up an unknown id is the `KeyError` of `self._tasks[task_id]`. */
  datatype ManagerError = UnknownTask(id: string)

  class TaskManager {
    var tasks: map<string, TaskRecord>

    constructor ()
      ensures tasks == map[]
    {
      tasks := map[];
    }

    /**
     * `create_task`: store a new pending record under `id` (the fresh
     * `uuid4().hex` the caller drew) and return it.
     */
    method CreateTask(id: string, url: string, now: Time) returns (record: TaskRecord)
      modifies this
      ensures record == NewRecord(id, url, now)
      ensures tasks == old(tasks)[id := record]
    {
      record := NewRecord(id, url, now);
      tasks := tasks[id := record];
    }

    /** `get`: the record stored under `id`, if any. */
    method Get(id: string) returns (r: Option<TaskRecord>)
      ensures r.Some? <==> id in tasks
      ensures r.Some? ==> r.value == tasks[id]
    {
      r := if id in tasks then Some(tasks[id]) else None;
    }

    /** `set_status`: new status, error and update time; an unknown id fails and changes nothing. */
    method SetStatus(id: string, status: string, error: Option<string>, now: Time) returns (r: Result<(), ManagerError>)
      modifies this
      ensures id in old(tasks) ==> r.Ok? && tasks == StatusSet(old(tasks), id, status, error, now)
      ensures id !in old(tasks) ==> r == Err(UnknownTask(id)) && tasks == old(tasks)
    {
      if id !in tasks {
        return Err(UnknownTask(id));
      }
      var record := tasks[id];
      record := record.(status := status);
      record := record.(updatedAt := now);
      record := record.(error := error);
      tasks := tasks[id := record];
      r := Ok(());
    }

    /** `set_result`: store the result, set the status, clear the error; an unknown id fails and changes nothing. */
    method SetResult(id: string, result: Payload, status: string, now: Time) returns (r: Result<(), ManagerError>)
      modifies this
      ensures id in old(tasks) ==> r.Ok? && tasks == ResultSet(old(tasks), id, result, status, now)
      ensures id !in old(tasks) ==> r == Err(UnknownTask(id)) && tasks == old(tasks)
    {
      if id !in tasks {
        return Err(UnknownTask(id));
      }
      var record := tasks[id];
      record := record.(result := Some(result));
      record := record.(status := status);
      record := record.(error := None);
      record := record.(updatedAt := now);
      tasks := tasks[id := record];
      r := Ok(());
    }
  }
}
