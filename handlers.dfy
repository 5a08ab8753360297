/**
 * What each of the four handlers decides: the response it sends and the table it leaves behind.
 * Reading the request body, decoding JSON and encoding JSON are calls into libraries; their
 * outcome is an input here (PostBody, Encoding), and a response carries the value that would be
 * encoded rather than its bytes.
 */
module Handlers {
  import opened Tasks

  /** What reading and decoding the body of a create request produced. */
  datatype PostBody =
    | ReadFailed(err: string)    // the body could not be read
    | DecodeFailed(err: string)  // the body is not JSON that decodes into a Task
    | Parsed(task: Task)

  /** Whether encoding the response value as JSON succeeded. */
  datatype Encoding = Encoded | EncodeFailed(err: string)

  datatype Body =
    | NoBody
    | Message(text: string)           // a plain-text error body
    | OneTask(task: Task)             // a task, sent as JSON
    | AllTasks(tasks: map<string, Task>)  // the whole table, sent as a JSON object

  datatype Response = Response(status: int, body: Body)

  /** The response to one request and the table after it. */
  datatype Outcome = Outcome(resp: Response, store: Store)

  /** GET /tasks: the whole table, or 500 when encoding fails. */
  function List(m: Store, enc: Encoding): (o: Outcome)
    ensures o.store == m
    ensures o.resp.status == StatusOK <==> enc.Encoded?
    ensures enc.Encoded? ==> o.resp.body == AllTasks(m)
    ensures enc.EncodeFailed? ==> o.resp == Response(StatusInternalServerError, Message(enc.err))
  {
    match enc
    case EncodeFailed(err) => Outcome(Response(StatusInternalServerError, Message(err)), m)
    case Encoded => Outcome(Response(StatusOK, AllTasks(m)), m)
  }

  /**
   * POST /tasks: a decoded task replaces whatever is stored under its ID (an empty ID
   * included) and the answer is 201; a read or decode failure is answered with 400 and the
   * table is left alone.
   */
  function Post(m: Store, body: PostBody): (o: Outcome)
    ensures o.resp.status == StatusCreated <==> body.Parsed?
    ensures !body.Parsed? ==> o.store == m && o.resp == Response(StatusBadRequest, Message(body.err))
    ensures body.Parsed? ==>
      && o.resp.body == NoBody
      && o.store.Keys == m.Keys + {body.task.id}
      && o.store[body.task.id] == body.task
      && (forall k :: k in m && k != body.task.id ==> o.store[k] == m[k])
      && |o.store| == (if body.task.id in m then |m| else |m| + 1)
    ensures WellKeyed(m) ==> WellKeyed(o.store)
  {
    match body
    case ReadFailed(err) => Outcome(Response(StatusBadRequest, Message(err)), m)
    case DecodeFailed(err) => Outcome(Response(StatusBadRequest, Message(err)), m)
    case Parsed(task) => Outcome(Response(StatusCreated, NoBody), m[task.id := task])
  }

  /** GET /tasks/{id}: the stored task, or 400 when it is absent or cannot be encoded. */
  function Get(m: Store, id: string, enc: Encoding): (o: Outcome)
    ensures o.store == m
    ensures o.resp.status == StatusOK <==> id in m && enc.Encoded?
    ensures id !in m ==> o.resp == Response(StatusBadRequest, Message(NotFoundMessage))
    ensures id in m && enc.Encoded? ==> o.resp.body == OneTask(m[id])
    ensures id in m && enc.EncodeFailed? ==> o.resp == Response(StatusBadRequest, Message(enc.err))
    ensures WellKeyed(m) && o.resp.body.OneTask? ==> o.resp.body.task.id == id
  {
    if id !in m then
      Outcome(Response(StatusBadRequest, Message(NotFoundMessage)), m)
    else
      match enc
      case EncodeFailed(err) => Outcome(Response(StatusBadRequest, Message(err)), m)
      case Encoded => Outcome(Response(StatusOK, OneTask(m[id])), m)
  }

  /** DELETE /tasks/{id}: removes exactly that entry and answers 200, or 400 when it is absent. */
  function Delete(m: Store, id: string): (o: Outcome)
    ensures o.resp.status == StatusOK <==> id in m
    ensures id !in m ==> o.store == m && o.resp == Response(StatusBadRequest, Message(NotFoundMessage))
    ensures id in m ==>
      && o.resp.body == NoBody
      && o.store.Keys == m.Keys - {id}
      && |o.store| == |m| - 1
      && (forall k :: k in o.store ==> o.store[k] == m[k])
    ensures WellKeyed(m) ==> WellKeyed(o.store)
  {
    if id !in m then
      Outcome(Response(StatusBadRequest, Message(NotFoundMessage)), m)
    else
      Outcome(Response(StatusOK, NoBody), m - {id})
  }

  /** One request as routed to a handler. */
  datatype Request =
    | ListTasks(enc: Encoding)
    | PostTask(body: PostBody)
    | GetTask(id: string, enc: Encoding)
    | DeleteTask(id: string)

  function Apply(m: Store, req: Request): Outcome
  {
    match req
    case ListTasks(enc) => List(m, enc)
    case PostTask(body) => Post(m, body)
    case GetTask(id, enc) => Get(m, id, enc)
    case DeleteTask(id) => Delete(m, id)
  }

  /** The table after serving the requests one at a time, in order. */
  function Replay(m: Store, reqs: seq<Request>): Store
    decreases |reqs|
  {
    if reqs == [] then m else Replay(Apply(m, reqs[0]).store, reqs[1..])
  }

  /** Every table the service can reach from its seed keeps each entry under its own ID. */
  lemma {:induction false} ReplayKeepsWellKeyed(m: Store, reqs: seq<Request>)
    requires WellKeyed(m)
    ensures WellKeyed(Replay(m, reqs))
    decreases |reqs|
  {
    if reqs != [] {
      ReplayKeepsWellKeyed(Apply(m, reqs[0]).store, reqs[1..]);
    }
  }

  lemma ReachableWellKeyed(reqs: seq<Request>)
    ensures WellKeyed(Replay(Seed(), reqs))
  {
    ReplayKeepsWellKeyed(Seed(), reqs);
  }

  /** Fetching and listing never change the table. */
  lemma {:induction false} ReadsLeaveStore(m: Store, reqs: seq<Request>)
    requires forall i :: 0 <= i < |reqs| ==> reqs[i].ListTasks? || reqs[i].GetTask?
    ensures Replay(m, reqs) == m
    decreases |reqs|
  {
    if reqs != [] {
      ReadsLeaveStore(m, reqs[1..]);
    }
  }

  /** A posted task is what a fetch of its ID returns next. */
  lemma PostThenGet(m: Store, t: Task)
    ensures Post(m, Parsed(t)).resp.status == StatusCreated
    ensures Get(Post(m, Parsed(t)).store, t.id, Encoded).resp == Response(StatusOK, OneTask(t))
  {
  }

  /** Posting twice under one ID leaves only the second task, as if the first never happened. */
  lemma PostOverwrites(m: Store, t1: Task, t2: Task)
    requires t1.id == t2.id
    ensures Post(Post(m, Parsed(t1)).store, Parsed(t2)).store == Post(m, Parsed(t2)).store
    ensures Get(Post(Post(m, Parsed(t1)).store, Parsed(t2)).store, t2.id, Encoded).resp.body == OneTask(t2)
  {
  }

  /** A failed read or decode changes nothing, whatever follows. */
  lemma RejectedPostIsNoOp(m: Store, body: PostBody, reqs: seq<Request>)
    requires !body.Parsed?
    ensures Post(m, body).resp.status == StatusBadRequest
    ensures Replay(m, [PostTask(body)] + reqs) == Replay(m, reqs)
  {
    assert ([PostTask(body)] + reqs)[1..] == reqs;
  }

  /** After post then delete, the ID is gone: fetching it is answered with 400. */
  lemma PostDeleteGet(m: Store, t: Task, enc: Encoding)
    ensures Delete(Post(m, Parsed(t)).store, t.id).resp.status == StatusOK
    ensures Get(Delete(Post(m, Parsed(t)).store, t.id).store, t.id, enc).resp
         == Response(StatusBadRequest, Message(NotFoundMessage))
  {
  }

  /** Deleting the same ID a second time is answered with 400 and changes nothing. */
  lemma DeleteTwice(m: Store, id: string)
    ensures Delete(Delete(m, id).store, id).resp == Response(StatusBadRequest, Message(NotFoundMessage))
    ensures Delete(Delete(m, id).store, id).store == Delete(m, id).store
  {
  }

  /** The create requests for a list of tasks, in order. */
  function Creates(ts: seq<Task>): (reqs: seq<Request>)
    ensures |reqs| == |ts|
    ensures forall i :: 0 <= i < |ts| ==> reqs[i] == PostTask(Parsed(ts[i]))
  {
    if ts == [] then [] else [PostTask(Parsed(ts[0]))] + Creates(ts[1..])
  }

  ghost predicate DistinctIds(ts: seq<Task>)
  {
    forall i, j :: 0 <= i < j < |ts| ==> ts[i].id != ts[j].id
  }

  /** The IDs of a list of tasks. */
  function Ids(ts: seq<Task>): (ids: set<string>)
    ensures forall t :: t in ts ==> t.id in ids
  {
    if ts == [] then {} else {ts[0].id} + Ids(ts[1..])
  }

  /** Serving a list of creates is serving the first, then the rest. */
  lemma CreatesUnfold(m: Store, ts: seq<Task>)
    requires ts != []
    ensures Replay(m, Creates(ts)) == Replay(Post(m, Parsed(ts[0])).store, Creates(ts[1..]))
  {
    assert Creates(ts)[1..] == Creates(ts[1..]);
  }

  /** After the first create, the remaining tasks still have distinct IDs that are not stored. */
  lemma CreatesRestFresh(m: Store, ts: seq<Task>)
    requires ts != []
    requires DistinctIds(ts)
    requires forall t :: t in ts ==> t.id !in m
    ensures DistinctIds(ts[1..])
    ensures forall u :: u in ts[1..] ==> u.id !in Post(m, Parsed(ts[0])).store
  {
    var rest := ts[1..];
    forall u | u in rest ensures u.id != ts[0].id && u.id !in m {
      var j :| 0 <= j < |rest| && rest[j] == u;
      assert ts[j + 1] == u;
    }
    forall i, j | 0 <= i < j < |rest| ensures rest[i].id != rest[j].id {
      assert rest[i] == ts[i + 1] && rest[j] == ts[j + 1];
    }
  }

  /**
   * Creating tasks with distinct IDs that are not yet stored grows the table by exactly that
   * many entries.
   */
  lemma {:induction false} CreatesGrow(m: Store, ts: seq<Task>)
    requires DistinctIds(ts)
    requires forall t :: t in ts ==> t.id !in m
    ensures Replay(m, Creates(ts)).Keys == m.Keys + Ids(ts)
    ensures |Replay(m, Creates(ts))| == |m| + |ts|
    decreases |ts|
  {
    if ts != [] {
      CreatesUnfold(m, ts);
      CreatesRestFresh(m, ts);
      var m' := Post(m, Parsed(ts[0])).store;
      CreatesGrow(m', ts[1..]);
      assert m'.Keys == m.Keys + {ts[0].id} && |m'| == |m| + 1;
      assert Ids(ts) == {ts[0].id} + Ids(ts[1..]);
    }
  }

  /**
   * After creating tasks with distinct IDs that are not yet stored, each is retrievable under
   * its ID and every earlier entry is as it was.
   */
  lemma {:induction false} CreatesStore(m: Store, ts: seq<Task>)
    requires DistinctIds(ts)
    requires forall t :: t in ts ==> t.id !in m
    ensures forall t :: t in ts ==> t.id in Replay(m, Creates(ts)) && Replay(m, Creates(ts))[t.id] == t
    ensures forall k :: k in m ==> k in Replay(m, Creates(ts)) && Replay(m, Creates(ts))[k] == m[k]
    decreases |ts|
  {
    if ts != [] {
      CreatesUnfold(m, ts);
      CreatesRestFresh(m, ts);
      CreatesStore(Post(m, Parsed(ts[0])).store, ts[1..]);
      assert forall t :: t in ts ==> t == ts[0] || t in ts[1..];
    }
  }

  /**
   * After creating tasks with fresh distinct IDs, listing answers 200 with a table of exactly
   * the old entries plus the new ones, each stored under its own ID.
   */
  lemma ListAfterCreates(m: Store, ts: seq<Task>)
    requires WellKeyed(m)
    requires DistinctIds(ts)
    requires forall t :: t in ts ==> t.id !in m
    ensures List(Replay(m, Creates(ts)), Encoded).resp.status == StatusOK
    ensures List(Replay(m, Creates(ts)), Encoded).resp.body.tasks.Keys == m.Keys + Ids(ts)
    ensures |List(Replay(m, Creates(ts)), Encoded).resp.body.tasks| == |m| + |ts|
    ensures forall t :: t in ts ==> List(Replay(m, Creates(ts)), Encoded).resp.body.tasks[t.id] == t
    ensures WellKeyed(List(Replay(m, Creates(ts)), Encoded).resp.body.tasks)
  {
    CreatesGrow(m, ts);
    CreatesStore(m, ts);
    ReplayKeepsWellKeyed(m, Creates(ts));
  }
}
