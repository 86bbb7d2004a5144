/**
 * One worker thread as the main thread sees it (src/workerThread.ts): the
 * request in flight, the handshake that sends a task with its own message
 * port, the handler that serves the worker's calls on the loader context, the
 * graceful and the forced exit, and the respawn after a crash.
 *
 * The thread itself, its ports and the loader context are outside the model:
 * what the class sends is recorded in `posts`, calls on a task's loader
 * context in `calls`, replies on a task's port in `replies`, and calls of a
 * task's completion callback in `completions`.
 */
module Threads {
  import opened Values
  import opened Channel
  import opened Messages
  import opened Context
  import opened ContextBuilder
  import opened Errors

  /** The entries of the context that are neither omitted nor functions. */
  function ClonableData(ctx: Entries): (d: map<string, Value>)
    ensures forall k :: k in d <==> k in ToMap(ctx) && k !in OmittedKeys && !ToMap(ctx)[k].Fn?
    ensures forall k :: k in d ==> d[k] == ToMap(ctx)[k]
  {
    RestMap(ctx);
    var rest := ToMap(Rest(ctx));
    map k | k in rest && !rest[k].Fn? :: rest[k]
  }

  /** `createTransferValue`. */
  function CreateTransferValue(ctx: Entries): map<string, Value>
    requires WellTyped(ctx)
  {
    Augment(ClonableData(ctx), ctx)
  }

  /**
   * What a worker thread receives: the context without the six omitted keys
   * and without any function, with `loaders` and `resource` recomputed.
   */
  lemma TransferValueShape(ctx: Entries)
    requires WellTyped(ctx)
    ensures var r := CreateTransferValue(ctx);
      && (forall k :: k in r ==> !r[k].Fn?)
      && OmittedKeys !! r.Keys
      && "loaders" in r && r["loaders"] == List(TransferLoaders(ctx))
      && "resource" in r && r["resource"] == Str(Resource(ctx))
      && (forall k :: k != "loaders" && k != "resource" ==>
            (k in r <==> k in ToMap(ctx) && k !in OmittedKeys && !ToMap(ctx)[k].Fn?))
      && (forall k :: k in r && k != "loaders" && k != "resource" ==> r[k] == ToMap(ctx)[k])
  {
    assert "loaders" !in OmittedKeys && "resource" !in OmittedKeys;
  }

  /**
   * The value a worker thread receives is exactly the clonable half that
   * `buildWorkerLoaderContext` produces: both drop the same keys and the
   * functions, and recompute the same two keys.
   */
  lemma TransferIsContextObject(ctx: Entries)
    requires WellTyped(ctx) && DistinctKeys(ctx)
    ensures CreateTransferValue(ctx) == BuildWorkerLoaderContext(ctx).contextObject
  {
    TransferValueShape(ctx);
    var a, b := CreateTransferValue(ctx), BuildWorkerLoaderContext(ctx).contextObject;
    forall k ensures (k in a <==> k in b) && (k in a ==> a[k] == b[k]) {
      if k != "loaders" && k != "resource" {
        BuildPartitions(ctx, k);
      }
    }
  }

  /** What the port handler of a task does with one message from the worker. */
  datatype PortAction =
    | Finish(error: Value, result: Value)
    | Forward(name: string, args: seq<Value>)
    | AskResolve(context: Value, request: Value)
    | Ignore

  /** `value[i]`, `undefined` past the end. */
  function Arg(value: seq<Value>, i: nat): (v: Value)
    ensures i < |value| ==> v == value[i]
    ensures i >= |value| ==> v == Undefined
  {
    if i < |value| then value[i] else Undefined
  }

  /** The loader-context method each forwarded request calls on the main thread. */
  function MethodName(t: RequestToMain): string {
    match t
    case LOADER_CONTEXT_EMIT_WARNING => "emitWarning"
    case LOADER_CONTEXT_EMIT_ERROR => "emitError"
    case LOADER_CONTEXT_LOAD_MODULE => "loadModule"
    case LOADER_CONTEXT_RESOLVE => "resolve"
    case LOADER_CONTEXT_ADDDEPENDENCY => "addDependency"
    case LOADER_CONTEXT_DEPENDENCY => "dependency"
    case LOADER_CONTEXT_ADD_CONTEXT_DEPENDENCY => "addContextDependency"
    case LOADER_CONTEXT_CLEAR_DEPENDENCIES => "clearDependencies"
    case LOADER_CONTEXT_EMIT_FILE => "emitFile"
  }

  /** How many elements after the tag the main thread passes on. */
  function Arity(t: RequestToMain): nat {
    match t
    case LOADER_CONTEXT_CLEAR_DEPENDENCIES => 0
    case LOADER_CONTEXT_RESOLVE => 2
    case LOADER_CONTEXT_EMIT_FILE => 3
    case _ => 1
  }

  /** The arguments `value[1]`, ..., `value[n]` of a message. */
  function Args(value: seq<Value>, n: nat): (args: seq<Value>)
    ensures |args| == n && forall i :: 0 <= i < n ==> args[i] == Arg(value, i + 1)
  {
    seq(n, i requires 0 <= i < n => Arg(value, i + 1))
  }

  /** The branch of `taskEventHandler` for a request to the main thread. */
  function ToMainAction(t: RequestToMain, value: seq<Value>): PortAction {
    match t
    case LOADER_CONTEXT_LOAD_MODULE => Ignore
    case LOADER_CONTEXT_RESOLVE => AskResolve(Arg(value, 1), Arg(value, 2))
    case _ => Forward(MethodName(t), Args(value, Arity(t)))
  }

  /** `taskEventHandler`: dispatch on the tag in `value[0]`; unknown tags are ignored. */
  function TaskEvent(value: seq<Value>): (a: PortAction)
    ensures a.Finish? ==> |value| > 0 && (value[0] == Num(100) || value[0] == Num(101))
    ensures a.Forward? || a.AskResolve? ==> |value| > 0 && value[0].Num? && 200 <= value[0].n <= 208
  {
    var ch := Arg(value, 0);
    if !ch.Num? then Ignore
    else
      match Decode(ch.n)
      case Some(FromWorker(COMPLETE_LOADER_SUCCESS)) => Finish(Null, Arg(value, 1))
      case Some(FromWorker(COMPLETE_LOADER_ERROR)) => Finish(Arg(value, 1), Null)
      case Some(ToMain(t)) => ToMainAction(t, value)
      case _ => Ignore
  }

  /** A success message completes the task with no error and the message's result. */
  lemma SuccessCompletes(result: Value, rest: seq<Value>)
    ensures TaskEvent([Num(Code(FromWorker(COMPLETE_LOADER_SUCCESS))), result] + rest) == Finish(Null, result)
  {
  }

  /** An error message completes the task with the message's error and a `null` result. */
  lemma ErrorCompletes(error: Value, rest: seq<Value>)
    ensures TaskEvent([Num(Code(FromWorker(COMPLETE_LOADER_ERROR))), error] + rest) == Finish(error, Null)
  {
  }

  /**
   * Every request to the main thread but `loadModule` reaches the loader
   * context: `resolve` with its two arguments, the others through the method
   * of the same name with as many arguments as that method takes.
   */
  lemma RequestReachesContext(t: RequestToMain, value: seq<Value>)
    requires |value| > 0 && value[0] == Num(Code(ToMain(t)))
    ensures t == LOADER_CONTEXT_LOAD_MODULE ==> TaskEvent(value) == Ignore
    ensures t == RequestToMain.LOADER_CONTEXT_RESOLVE ==> TaskEvent(value) == AskResolve(Arg(value, 1), Arg(value, 2))
    ensures t != LOADER_CONTEXT_LOAD_MODULE && t != RequestToMain.LOADER_CONTEXT_RESOLVE ==>
      TaskEvent(value) == Forward(MethodName(t), Args(value, Arity(t)))
  {
    DecodeCode(ToMain(t));
  }

  /** The reply to a worker's `resolve`: `[LOADER_CONTEXT_RESOLVE, err ? serializeError(err) : undefined, result]`. */
  function ResolveReply(err: Value, result: Value): (m: seq<Value>)
    ensures |m| == 3 && m[0] == Num(Code(FromMain(ResponseFromMain.LOADER_CONTEXT_RESOLVE))) && m[2] == result
    ensures Truthy(err) ==> m[1] == SerializeError(err)
    ensures !Truthy(err) ==> m[1] == Undefined
    ensures !m[1].Err?
  {
    [Num(300), if Truthy(err) then SerializeError(err) else Undefined, result]
  }

  /** What the main thread posts to the thread. */
  datatype Post =
      /** `{ port, request: [tag, processed, transferValue] }` with the task's own port. */
    | TaskPost(port: nat, tag: RequestToWorker, processed: bool, transfer: map<string, Value>)
      /** `{ request: [EXIT_THREAD, false] }` */
    | ExitPost(tag: RequestToWorker, processed: bool)

  /** The main-thread end of a task's message channel: whom it completes and whose context it serves. */
  datatype Port = Port(callback: nat, context: Entries)

  /** A call on the loader context of the task that owns port `port`. */
  datatype Call = Call(port: nat, name: string, args: seq<Value>)

  /** A message posted on a task's port. */
  datatype Reply = Reply(port: nat, message: seq<Value>)

  /** A call `onTaskComplete(error, result)` of callback `callback`. */
  datatype Completion = Completion(callback: nat, error: Value, result: Value)

  class WorkerThread {
    const workerId: nat
    var closed: bool
    var forceExited: bool
    /** The request being served, kept to re-submit it after a crash. */
    var request: Option<TaskMessage>
    var callback: Option<nat>
    /** How many `Worker` instances `initialize` has created. */
    var spawned: nat
    var terminateCalls: nat
    var exitResolved: bool
    /** How many `exitHandler` listeners are registered on the thread. */
    var exitHandlers: nat
    /** A re-submission after a crash threw (destructuring the context of an exit request). */
    var resubmitFailed: bool
    var posts: seq<Post>
    var ports: seq<Port>
    var calls: seq<Call>
    /** The ports whose `resolve` is waiting for the loader context's callback. */
    var resolves: seq<nat>
    var replies: seq<Reply>
    var completions: seq<Completion>

    /** A request that carries a context carries a loader context the handshake can marshal. */
    ghost predicate Valid()
      reads this
    {
      && (request.Some? && request.value.context.Some? ==> WellTyped(request.value.context.value))
      && (forall i :: 0 <= i < |resolves| ==> resolves[i] < |ports|)
      && (forall i :: 0 <= i < |ports| ==> WellTyped(ports[i].context))
    }

    /** The state right after construction: one thread spawned, nothing sent or received. */
    ghost predicate Pristine()
      reads this
    {
      && !closed && !forceExited && request == None && callback == None
      && spawned == 1 && terminateCalls == 0 && !exitResolved && exitHandlers == 0 && !resubmitFailed
      && posts == [] && ports == [] && calls == [] && resolves == [] && replies == [] && completions == []
    }

    constructor (workerId: nat)
      ensures Valid() && Pristine() && this.workerId == workerId
    {
      this.workerId := workerId;
      closed, forceExited := false, false;
      request, callback := None, None;
      spawned, terminateCalls := 1, 0;
      exitResolved, exitHandlers, resubmitFailed := false, 0, false;
      posts, ports, calls, resolves, replies, completions := [], [], [], [], [], [];
    }

    /** `forceExit`: mark closed and force-exited, and terminate the thread. */
    method ForceExit()
      requires Valid()
      modifies this`forceExited, this`closed, this`terminateCalls
      ensures Valid() && forceExited && closed && terminateCalls == old(terminateCalls) + 1
    {
      forceExited := true;
      closed := true;
      terminateCalls := terminateCalls + 1;
    }

    /**
     * `requestTask`: remember the request and its callback, open a port whose
     * handler completes the callback and serves the request's context, and
     * hand the port and the marshalled request to the thread. A request
     * without a context makes marshalling throw before anything is posted.
     */
    method RequestTask(req: TaskMessage, cb: nat) returns (ok: bool)
      requires Valid()
      requires req.context.Some? ==> WellTyped(req.context.value)
      modifies this`request, this`callback, this`ports, this`posts
      ensures Valid()
      ensures request == Some(req) && callback == Some(cb)
      ensures ok <==> req.context.Some?
      ensures ok ==>
        ports == old(ports) + [Port(cb, req.context.value)] &&
        posts == old(posts) + [TaskPost(|old(ports)|, req.tag, req.processed, CreateTransferValue(req.context.value))]
      ensures !ok ==> ports == old(ports) && posts == old(posts)
    {
      callback := Some(cb);
      request := Some(req);
      if req.context.None? {
        return false;
      }
      var ctx := req.context.value;
      var port := |ports|;
      ports := ports + [Port(cb, ctx)];
      posts := posts + [TaskPost(port, req.tag, req.processed, CreateTransferValue(ctx))];
      ok := true;
    }

    /**
     * The handler on port `p` receives `value`. A completion clears the
     * request and the callback before calling the callback, so a later crash
     * does not re-submit a finished task.
     */
    method OnPortMessage(p: nat, value: seq<Value>)
      requires Valid() && p < |ports|
      modifies this`request, this`callback, this`completions, this`calls, this`resolves
      ensures Valid()
      ensures var a := TaskEvent(value);
        && (a.Finish? ==>
              request == None && callback == None &&
              completions == old(completions) + [Completion(old(ports[p].callback), a.error, a.result)] &&
              calls == old(calls) && resolves == old(resolves))
        && (a.Forward? ==>
              calls == old(calls) + [Call(p, a.name, a.args)] &&
              request == old(request) && callback == old(callback) && completions == old(completions) &&
              resolves == old(resolves))
        && (a.AskResolve? ==>
              calls == old(calls) + [Call(p, "resolve", [a.context, a.request])] && resolves == old(resolves) + [p] &&
              request == old(request) && callback == old(callback) && completions == old(completions))
        && (a.Ignore? ==>
              calls == old(calls) && resolves == old(resolves) &&
              request == old(request) && callback == old(callback) && completions == old(completions))
    {
      var a := TaskEvent(value);
      match a
      case Finish(error, result) =>
        request := None;
        callback := None;
        completions := completions + [Completion(ports[p].callback, error, result)];
      case Forward(name, args) =>
        calls := calls + [Call(p, name, args)];
      case AskResolve(context, req) =>
        calls := calls + [Call(p, "resolve", [context, req])];
        resolves := resolves + [p];
      case Ignore =>
    }

    /** The loader context answers the `i`-th `resolve`: reply on that task's port. */
    method OnResolved(i: nat, err: Value, result: Value)
      requires Valid() && i < |resolves|
      modifies this`replies
      ensures Valid()
      ensures replies == old(replies) + [Reply(resolves[i], ResolveReply(err, result))]
    {
      replies := replies + [Reply(resolves[i], ResolveReply(err, result))];
    }

    /**
     * `requestExit`: make the exit tuple the current request, listen for the
     * thread's close acknowledgement, mark closed and post the request. The
     * completion callback of a task still in flight is kept.
     */
    method RequestExit()
      requires Valid()
      modifies this`request, this`exitHandlers, this`closed, this`posts
      ensures Valid()
      ensures request == Some(ExitRequest) && closed && exitHandlers == old(exitHandlers) + 1
      ensures posts == old(posts) + [ExitPost(EXIT_THREAD, false)]
    {
      request := Some(ExitRequest);
      exitHandlers := exitHandlers + 1;
      closed := true;
      posts := posts + [ExitPost(EXIT_THREAD, false)];
    }

    /**
     * A message on the thread itself: the close acknowledgement makes every
     * registered exit handler unregister itself and clear the request.
     */
    method OnThreadMessage(value: Value)
      requires Valid()
      modifies this`request, this`exitHandlers
      ensures Valid()
      ensures value == Num(Code(FromWorker(COMPLETE_CLOSE_PARENT_PORT))) && old(exitHandlers) > 0 ==>
        exitHandlers == 0 && request == None
      ensures !(value == Num(Code(FromWorker(COMPLETE_CLOSE_PARENT_PORT))) && old(exitHandlers) > 0) ==>
        exitHandlers == old(exitHandlers) && request == old(request)
    {
      if value == Num(102) && exitHandlers > 0 {
        exitHandlers := 0;
        request := None;
      }
    }

    /**
     * What a respawn does: one more thread, and the remembered request (if a
     * callback is remembered too) posted to it with its callback; a request
     * without a context makes that re-submission throw before anything is
     * posted.
     */
    twostate predicate Respawned()
      requires old(Valid())
      reads this
    {
      && spawned == old(spawned) + 1 && exitResolved == old(exitResolved)
      && (old(request).Some? && old(callback).Some? ==>
            request == old(request) && callback == old(callback) &&
            (old(request).value.context.Some? ==>
               posts == old(posts) + [TaskPost(|old(ports)|, old(request).value.tag, old(request).value.processed,
                                               CreateTransferValue(old(request).value.context.value))] &&
               resubmitFailed == old(resubmitFailed)) &&
            (old(request).value.context.None? ==> posts == old(posts) && resubmitFailed))
      && (!(old(request).Some? && old(callback).Some?) ==>
            posts == old(posts) && request == old(request) && resubmitFailed == old(resubmitFailed))
    }

    /**
     * `onWorkerThreadExit`: a crash that was not forced spawns a new thread
     * and re-submits the remembered request with its callback; any other exit
     * resolves the exit promise.
     */
    method OnWorkerThreadExit(exitCode: int)
      requires Valid()
      modifies this`spawned, this`exitResolved, this`resubmitFailed, this`request, this`callback, this`ports, this`posts
      ensures Valid()
      ensures exitCode == 0 || old(forceExited) ==>
        exitResolved && spawned == old(spawned) && posts == old(posts) && request == old(request) &&
        resubmitFailed == old(resubmitFailed)
      ensures exitCode != 0 && !old(forceExited) ==> Respawned()
    {
      if exitCode != 0 && !forceExited {
        Respawn();
      } else {
        exitResolved := true;
      }
    }

    /** `initialize` followed by the re-submission of the remembered request. */
    method Respawn()
      requires Valid()
      modifies this`spawned, this`resubmitFailed, this`request, this`callback, this`ports, this`posts
      ensures Valid() && Respawned()
    {
      spawned := spawned + 1;
      if request.Some? && callback.Some? {
        var req, cb := request.value, callback.value;
        var ok := RequestTask(req, cb);
        if !ok {
          resubmitFailed := true;
        }
      }
    }
  }
}
