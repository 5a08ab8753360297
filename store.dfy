/**
 * The service's task table as a mutable object, and the four handlers as its methods. Each
 * method follows the handler's early-return checks in order and is proved against the
 * corresponding decision in module Handlers.
 */
module Server {
  import opened Tasks
  import opened Handlers

  class TaskStore {
    /** The shared table the handlers read and update in place. */
    var tasks: Store

    /** Every entry is stored under its own ID. */
    ghost predicate Valid()
      reads this
    {
      WellKeyed(tasks)
    }

    /** The table the service starts with. */
    constructor ()
      ensures tasks == Seed()
      ensures tasks.Keys == {"1", "2"}
      ensures Valid()
    {
      tasks := Seed();
    }

    /** GET /tasks. */
    method GetTasks(enc: Encoding) returns (resp: Response)
      ensures resp == List(tasks, enc).resp
      ensures resp.status == StatusOK ==> resp.body == AllTasks(tasks)
      ensures resp.status != StatusOK ==> resp.status == StatusInternalServerError
    {
      if enc.EncodeFailed? {
        resp := Response(StatusInternalServerError, Message(enc.err));
        return;
      }
      resp := Response(StatusOK, AllTasks(tasks));
    }

    /** POST /tasks, given what reading and decoding the body produced. */
    method PostTask(body: PostBody) returns (resp: Response)
      modifies this
      ensures resp == Post(old(tasks), body).resp
      ensures tasks == Post(old(tasks), body).store
      ensures body.Parsed? ==> tasks == old(tasks)[body.task.id := body.task]
      ensures old(Valid()) ==> Valid()
    {
      if body.ReadFailed? {
        resp := Response(StatusBadRequest, Message(body.err));
        return;
      }
      if body.DecodeFailed? {
        resp := Response(StatusBadRequest, Message(body.err));
        return;
      }
      var task := body.task;
      tasks := tasks[task.id := task];
      resp := Response(StatusCreated, NoBody);
    }

    /** GET /tasks/{id}. */
    method GetTask(id: string, enc: Encoding) returns (resp: Response)
      ensures resp == Get(tasks, id, enc).resp
      ensures resp.status == StatusOK <==> id in tasks && enc.Encoded?
      ensures resp.status == StatusOK ==> resp.body == OneTask(tasks[id])
      ensures id !in tasks ==> resp == Response(StatusBadRequest, Message(NotFoundMessage))
    {
      if id !in tasks {
        resp := Response(StatusBadRequest, Message(NotFoundMessage));
        return;
      }
      var task := tasks[id];
      if enc.EncodeFailed? {
        resp := Response(StatusBadRequest, Message(enc.err));
        return;
      }
      resp := Response(StatusOK, OneTask(task));
    }

    /** DELETE /tasks/{id}. */
    method DeleteTask(id: string) returns (resp: Response)
      modifies this
      ensures resp == Delete(old(tasks), id).resp
      ensures tasks == Delete(old(tasks), id).store
      ensures id in old(tasks) ==> tasks == old(tasks) - {id}
      ensures old(Valid()) ==> Valid()
    {
      if id !in tasks {
        resp := Response(StatusBadRequest, Message(NotFoundMessage));
        return;
      }
      tasks := tasks - {id};
      resp := Response(StatusOK, NoBody);
    }
  }

  /**
   * A client session against a fresh service: create task "3", fetch it, delete it, fetch it
   * again. The answers are 201, 200 with the task, 200, and 400 with the not-found message.
   */
  method CreateFetchDeleteFetch(t: Task) returns (statuses: seq<int>, fetched: Body)
    requires t.id == "3"
    ensures statuses == [StatusCreated, StatusOK, StatusOK, StatusBadRequest]
    ensures fetched == OneTask(t)
  {
    var store := new TaskStore();
    var created := store.PostTask(Parsed(t));
    var first := store.GetTask("3", Encoded);
    var deleted := store.DeleteTask("3");
    var second := store.GetTask("3", Encoded);
    statuses := [created.status, first.status, deleted.status, second.status];
    fetched := first.body;
  }
}
