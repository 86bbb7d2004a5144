/**
 * The worker-thread side of the tag protocol (src/workerScript.ts): the set
 * of tasks in progress, closing the parent port once it is empty (retried
 * after an exit request), the loader-context methods that forward calls to
 * the main thread as tagged messages, and the single completion message of
 * each loader run.
 *
 * Ports, the parent port and loader-runner are outside the model: messages
 * are recorded in `parentPosts` and `portPosts`, a loader run's end is the
 * event `OnLoaderDone`, and the 1000 ms retry timer is the event
 * `FireExitRetry`.
 */
module WorkerScript {
  import opened Values
  import opened Channel
  import opened Errors
  import opened Threads

  /** What a loader-context method the worker installs does when the loader calls it. */
  datatype ContextMethod =
      /** `unsupport(msg)`: report `msg` through `emitError`. */
    | Unsupported(msg: string)
      /** `proxyFunctionWithoutCallbackResult(tag)`: post `[tag, ...args]`. */
    | Forwarding(tag: RequestToMain)
      /** `emitError` / `emitWarning`: post `[tag, serializeError(message)]`. */
    | Serializing(tag: RequestToMain)
      /** `proxyFunctionWithCallback([request, reply])`: keep the last argument as the callback. */
    | WithCallback(request: RequestToMain, reply: ResponseFromMain)

  const DeprecatedMessage: string :=
    "webpack-loader-worker does not support deprecated properties https://webpack.js.org/api/loaders/#deprecated-context-properties"
  const LoadModuleMessage: string := "webpack-loader-worker does not support loadModule"

  /** The methods `augmentLoaderOptions` installs on the cloned context. */
  function ContextMethodOf(name: string): Option<ContextMethod> {
    match name
    case "exec" => Some(Unsupported(DeprecatedMessage))
    case "resolveSync" => Some(Unsupported(DeprecatedMessage))
    case "emitError" => Some(Serializing(LOADER_CONTEXT_EMIT_ERROR))
    case "emitWarning" => Some(Serializing(LOADER_CONTEXT_EMIT_WARNING))
    case "addDependency" => Some(Forwarding(LOADER_CONTEXT_ADDDEPENDENCY))
    case "dependency" => Some(Forwarding(LOADER_CONTEXT_DEPENDENCY))
    case "addContextDependency" => Some(Forwarding(LOADER_CONTEXT_ADD_CONTEXT_DEPENDENCY))
    case "clearDependencies" => Some(Forwarding(LOADER_CONTEXT_CLEAR_DEPENDENCIES))
    case "emitFile" => Some(Forwarding(LOADER_CONTEXT_EMIT_FILE))
    case "resolve" => Some(WithCallback(RequestToMain.LOADER_CONTEXT_RESOLVE, ResponseFromMain.LOADER_CONTEXT_RESOLVE))
    case "loadModule" => Some(Unsupported(LoadModuleMessage))
    case _ => None
  }

  /** The names the worker writes over the cloned context, besides `options` and `fs`. */
  const InstalledNames: set<string> := {"exec", "resolveSync", "emitError", "emitWarning", "addDependency",
    "dependency", "addContextDependency", "clearDependencies", "emitFile", "resolve", "loadModule"}

  lemma InstalledNamesAreMethods(name: string)
    ensures name in InstalledNames <==> ContextMethodOf(name).Some?
  {
  }

  /** `args.slice(0, args.length - 1)` and `args[args.length - 1]`. */
  function SplitCallback(args: seq<Value>): (r: (seq<Value>, Value))
    ensures |args| > 0 ==> r.0 == args[..|args| - 1] && r.1 == args[|args| - 1]
    ensures |args| == 0 ==> r.0 == [] && r.1 == Undefined
  {
    if |args| == 0 then ([], Undefined) else (args[..|args| - 1], args[|args| - 1])
  }

  /** The message a call of a context method posts on the task's port. */
  function PostedMessage(m: ContextMethod, args: seq<Value>): (msg: seq<Value>)
    ensures |msg| >= 1 && msg[0].Num?
  {
    match m
    case Unsupported(text) => [Num(Code(ToMain(LOADER_CONTEXT_EMIT_ERROR))), Str(text)]
    case Forwarding(tag) => [Num(Code(ToMain(tag)))] + args
    case Serializing(tag) => [Num(Code(ToMain(tag))), SerializeError(Arg(args, 0))]
    case WithCallback(request, _) => [Num(Code(ToMain(request)))] + SplitCallback(args).0
  }

  /** Each installed forwarding method posts the tag of the main thread's method of the same name. */
  lemma InstalledTags(name: string)
    requires ContextMethodOf(name).Some?
    ensures var m := ContextMethodOf(name).value;
      && (m.Forwarding? || m.Serializing? ==>
            MethodName(m.tag) == name && m.tag != LOADER_CONTEXT_LOAD_MODULE && m.tag != RequestToMain.LOADER_CONTEXT_RESOLVE)
      && (m.Serializing? ==> Arity(m.tag) == 1)
      && (m.WithCallback? ==> m.request == RequestToMain.LOADER_CONTEXT_RESOLVE)
  {
  }

  /**
   * The protocol round trip: a context method the worker installs, called
   * with the arguments the main thread's method takes, reaches the main
   * thread's loader context as the same method with the same arguments
   * (`emitError`/`emitWarning` with the serialised message, `resolve` as a
   * resolve request with its context and request, the unsupported ones as an
   * `emitError` with their message).
   */
  lemma CallReachesMainThread(name: string, args: seq<Value>)
    requires ContextMethodOf(name).Some?
    ensures var m, a := ContextMethodOf(name).value, TaskEvent(PostedMessage(ContextMethodOf(name).value, args));
      && (m.Forwarding? && |args| == Arity(m.tag) ==> a == Forward(name, args))
      && (m.Serializing? ==> a == Forward(name, [SerializeError(Arg(args, 0))]))
      && (m.WithCallback? && |args| == 3 ==> a == AskResolve(args[0], args[1]))
      && (m.Unsupported? ==> a == Forward("emitError", [Str(m.msg)]))
  {
    InstalledTags(name);
    var m := ContextMethodOf(name).value;
    var msg := PostedMessage(m, args);
    match m
    case Unsupported(_) =>
      RequestReachesContext(LOADER_CONTEXT_EMIT_ERROR, msg);
    case Forwarding(tag) =>
      RequestReachesContext(tag, msg);
      if |args| == Arity(tag) {
        assert Args(msg, Arity(tag)) == args;
      }
    case Serializing(tag) =>
      RequestReachesContext(tag, msg);
    case WithCallback(request, _) =>
      RequestReachesContext(request, msg);
  }

  /** A callback kept by `proxyFunctionWithCallback`: the port it listens on, the reply tag, the callback. */
  datatype Handler = Handler(port: nat, reply: ResponseFromMain, callback: Value)

  /** A handler fires for a message on its own port whose first element is its reply tag. */
  predicate Matches(h: Handler, port: nat, response: seq<Value>) {
    h.port == port && Arg(response, 0) == Num(Code(FromMain(h.reply)))
  }

  /** The handlers still listening after a message: exactly those that did not fire. */
  function Remaining(hs: seq<Handler>, port: nat, response: seq<Value>): (r: seq<Handler>)
    ensures forall i :: 0 <= i < |r| ==> !Matches(r[i], port, response) && r[i] in hs
    ensures forall h :: h in hs && !Matches(h, port, response) ==> h in r
    decreases |hs|
  {
    if hs == [] then []
    else
      var p := Remaining(hs[..|hs| - 1], port, response);
      assert forall h :: h in hs ==> h in hs[..|hs| - 1] || h == hs[|hs| - 1];
      if Matches(hs[|hs| - 1], port, response) then p else p + [hs[|hs| - 1]]
  }

  /** The callbacks a message fires, in registration order, with `(response[1], response[2])`. */
  function Fired(hs: seq<Handler>, port: nat, response: seq<Value>): (r: seq<(Value, seq<Value>)>)
    ensures forall i :: 0 <= i < |r| ==> r[i].1 == [Arg(response, 1), Arg(response, 2)]
    decreases |hs|
  {
    if hs == [] then []
    else
      var p := Fired(hs[..|hs| - 1], port, response);
      if Matches(hs[|hs| - 1], port, response) then p + [(hs[|hs| - 1].callback, [Arg(response, 1), Arg(response, 2)])] else p
  }

  /**
   * A message fires each listening handler exactly once or leaves it
   * listening: a handler stays if and only if it does not match, every
   * matching handler's callback fires, and only matching handlers' callbacks
   * fire.
   */
  lemma {:induction false} FiredOrRemaining(hs: seq<Handler>, port: nat, response: seq<Value>)
    ensures |Fired(hs, port, response)| + |Remaining(hs, port, response)| == |hs|
    ensures forall i :: 0 <= i < |hs| ==> (hs[i] in Remaining(hs, port, response) <==> !Matches(hs[i], port, response))
    ensures forall i :: 0 <= i < |hs| && Matches(hs[i], port, response) ==>
      (hs[i].callback, [Arg(response, 1), Arg(response, 2)]) in Fired(hs, port, response)
    ensures forall i :: 0 <= i < |Fired(hs, port, response)| ==>
      exists j :: 0 <= j < |hs| && Matches(hs[j], port, response) && Fired(hs, port, response)[i].0 == hs[j].callback
    decreases |hs|
  {
    if hs != [] {
      var q := hs[..|hs| - 1];
      FiredOrRemaining(q, port, response);
      var p, f := Fired(q, port, response), Fired(hs, port, response);
      forall i | 0 <= i < |hs| && Matches(hs[i], port, response)
        ensures (hs[i].callback, [Arg(response, 1), Arg(response, 2)]) in f
      {
        if i < |hs| - 1 {
          assert q[i] == hs[i];
        }
      }
      forall i | 0 <= i < |f|
        ensures exists j :: 0 <= j < |hs| && Matches(hs[j], port, response) && f[i].0 == hs[j].callback
      {
        if i < |p| {
          var j :| 0 <= j < |q| && Matches(q[j], port, response) && p[i].0 == q[j].callback;
          assert f[i] == p[i] && q[j] == hs[j];
        } else {
          assert Matches(hs[|hs| - 1], port, response) && f[i].0 == hs[|hs| - 1].callback;
        }
      }
    }
  }

  /** A message for which no handler matches fires nothing. */
  lemma {:induction false} NoneFire(hs: seq<Handler>, port: nat, response: seq<Value>)
    requires forall i :: 0 <= i < |hs| ==> !Matches(hs[i], port, response)
    ensures Fired(hs, port, response) == []
    decreases |hs|
  {
    if hs != [] {
      var p := hs[..|hs| - 1];
      assert forall i :: 0 <= i < |p| ==> p[i] == hs[i];
      NoneFire(p, port, response);
    }
  }

  /** A second message with the same tag on the same port fires none of the handlers left by the first. */
  lemma FiresAtMostOnce(hs: seq<Handler>, port: nat, r1: seq<Value>, r2: seq<Value>)
    requires Arg(r1, 0) == Arg(r2, 0)
    ensures Fired(Remaining(hs, port, r1), port, r2) == []
  {
    var rem := Remaining(hs, port, r1);
    assert forall i :: 0 <= i < |rem| ==> !Matches(rem[i], port, r1);
    NoneFire(rem, port, r2);
  }

  /**
   * Every kept `resolve` callback on a port fires on the first resolve reply
   * there, each with that reply's error and result: with two resolves in
   * flight on one task, both get the first answer.
   */
  lemma ResolveRepliesFanOut(cb1: Value, cb2: Value, port: nat, err: Value, result: Value)
    ensures var hs := [Handler(port, ResponseFromMain.LOADER_CONTEXT_RESOLVE, cb1),
                       Handler(port, ResponseFromMain.LOADER_CONTEXT_RESOLVE, cb2)];
      var reply := ResolveReply(err, result);
      Fired(hs, port, reply) == [(cb1, [reply[1], result]), (cb2, [reply[1], result])] &&
      Remaining(hs, port, reply) == []
  {
    var hs := [Handler(port, ResponseFromMain.LOADER_CONTEXT_RESOLVE, cb1),
               Handler(port, ResponseFromMain.LOADER_CONTEXT_RESOLVE, cb2)];
    var reply := ResolveReply(err, result);
    assert Matches(hs[0], port, reply) && Matches(hs[1], port, reply);
    assert hs[..1] == [hs[0]] && [hs[0]][..0] == [];
    assert Fired(hs[..1], port, reply) == [(cb1, [reply[1], result])];
    assert Remaining(hs[..1], port, reply) == [];
  }

  /** The buffers `Object.values(result).filter(ArrayBuffer.isView).map(x => x.buffer)` lists; `None` when it throws. */
  function TransferBuffers(result: Value): (r: Option<set<nat>>)
    ensures Nullish(result) <==> r.None?
    ensures result.List? ==> r == Some(set i | 0 <= i < |result.items| && result.items[i].Buffer? :: result.items[i].id)
    ensures result.Obj? ==> r == Some(set k | k in result.fields && result.fields[k].Buffer? :: result.fields[k].id)
  {
    match result
    case Undefined => None
    case Null => None
    case List(items) => Some(set i | 0 <= i < |items| && items[i].Buffer? :: items[i].id)
    case Obj(fields) => Some(set k | k in fields && fields[k].Buffer? :: fields[k].id)
    case Err(_, _, _, props) => Some(set k | k in props && props[k].Buffer? :: props[k].id)
    case _ => Some({})
  }

  /** A message posted on a task's port, with the buffers it transfers. */
  datatype PortPost = PortPost(port: nat, message: seq<Value>, transfer: set<nat>)

  /** What the loader runner receives: `resource`, `loaders` and the augmented context's data. */
  datatype RunnerOptions = RunnerOptions(resource: Value, loaders: Value, context: map<string, Value>)

  /**
   * `augmentLoaderOptions` on the data it can show: `options.context` is the
   * root context, and the installed methods (and `fs`) replace whatever the
   * clone held under their names.
   */
  function AugmentLoaderOptions(ctx: map<string, Value>): (o: RunnerOptions)
    ensures o.resource == Get(ctx, "resource") && o.loaders == Get(ctx, "loaders")
    ensures "options" in o.context && o.context["options"] == Obj(map["context" := Get(ctx, "rootContext")])
    ensures forall k :: k in InstalledNames || k == "fs" ==> k !in o.context
    ensures forall k :: k in ctx && k !in InstalledNames && k != "fs" && k != "options" ==>
      k in o.context && o.context[k] == ctx[k]
  {
    RunnerOptions(Get(ctx, "resource"), Get(ctx, "loaders"),
                  (ctx - InstalledNames - {"fs"})["options" := Obj(map["context" := Get(ctx, "rootContext")])])
  }

  class WorkerFunctionRunner {
    /** The ports of the tasks in progress. */
    var workingTask: set<nat>
    var parentPosts: seq<Value>
    var parentClosed: bool
    var portPosts: seq<PortPost>
    var closedPorts: seq<nat>
    var handlers: seq<Handler>
    /** Calls of kept callbacks: the callback and its arguments. */
    var callbackCalls: seq<(Value, seq<Value>)>
    /** What each task's loader run received. */
    var runs: map<nat, RunnerOptions>
    /** Pending 1000 ms retry timers of exit requests. */
    var retries: set<nat>
    var nextTimer: nat
    var exitRequested: bool
    /** An exception escaped the loader runner's callback; nothing was posted for that run. */
    var crashed: bool

    /** Once an exit is requested, a retry stays pending until the parent port is closed. */
    ghost predicate Valid()
      reads this
    {
      && (exitRequested && !parentClosed ==> retries != {})
      && (forall id :: id in retries ==> id < nextTimer)
    }

    constructor ()
      ensures Valid() && workingTask == {} && !exitRequested && !parentClosed && !crashed
      ensures parentPosts == [] && portPosts == [] && closedPorts == [] && handlers == [] && callbackCalls == []
      ensures runs == map[] && retries == {}
    {
      workingTask, parentPosts, parentClosed := {}, [], false;
      portPosts, closedPorts, handlers, callbackCalls := [], [], [], [];
      runs, retries, nextTimer, exitRequested, crashed := map[], {}, 0, false, false;
    }

    /** `closePort`: only with no task in progress, acknowledge on the parent port and close it. */
    method ClosePort() returns (closed: bool)
      modifies this`parentPosts, this`parentClosed
      ensures closed <==> workingTask == {}
      ensures closed ==> parentPosts == old(parentPosts) + [Num(Code(FromWorker(COMPLETE_CLOSE_PARENT_PORT)))] && parentClosed
      ensures !closed ==> parentPosts == old(parentPosts) && parentClosed == old(parentClosed)
    {
      if workingTask == {} {
        parentPosts := parentPosts + [Num(102)];
        parentClosed := true;
        return true;
      }
      return false;
    }

    method ArmRetry()
      modifies this`retries, this`nextTimer
      ensures retries == old(retries) + {old(nextTimer)} && nextTimer == old(nextTimer) + 1
    {
      retries := retries + {nextTimer};
      nextTimer := nextTimer + 1;
    }

    /**
     * The parent port's listener: an exit request closes the parent port or
     * arms a retry; a task request with a port starts a loader run on the
     * augmented clone of its context. A closed parent port delivers nothing.
     */
    method OnParentMessage(msg: Post)
      requires Valid() && !parentClosed
      modifies this
      ensures Valid()
      ensures msg.tag == EXIT_THREAD ==>
        exitRequested && runs == old(runs) && workingTask == old(workingTask) &&
        (old(workingTask) == {} ==> parentClosed && parentPosts == old(parentPosts) + [Num(102)] && retries == old(retries)) &&
        (old(workingTask) != {} ==> parentPosts == old(parentPosts) && retries == old(retries) + {old(nextTimer)})
      ensures msg.tag == RUN_LOADER && msg.TaskPost? ==>
        workingTask == old(workingTask) + {msg.port} && runs == old(runs)[msg.port := AugmentLoaderOptions(msg.transfer)] &&
        parentPosts == old(parentPosts) && retries == old(retries)
      ensures msg.tag == RUN_LOADER && msg.ExitPost? ==>
        workingTask == old(workingTask) && runs == old(runs) && parentPosts == old(parentPosts)
      ensures portPosts == old(portPosts) && handlers == old(handlers) && callbackCalls == old(callbackCalls)
    {
      if msg.tag == EXIT_THREAD {
        exitRequested := true;
        var closed := ClosePort();
        if !closed {
          ArmRetry();
        }
      }
      if msg.TaskPost? && msg.tag == RUN_LOADER {
        workingTask := workingTask + {msg.port};
        runs := runs[msg.port := AugmentLoaderOptions(msg.transfer)];
      }
    }

    /** A retry timer fires: close the parent port if no task is left, otherwise arm the next retry. */
    method FireExitRetry(id: nat)
      requires Valid() && id in retries
      modifies this`retries, this`nextTimer, this`parentPosts, this`parentClosed
      ensures Valid()
      ensures old(workingTask) == {} ==>
        parentClosed && parentPosts == old(parentPosts) + [Num(102)] && retries == old(retries) - {id}
      ensures old(workingTask) != {} ==>
        parentPosts == old(parentPosts) && retries == old(retries) - {id} + {old(nextTimer)}
    {
      retries := retries - {id};
      var closed := ClosePort();
      if !closed {
        ArmRetry();
      }
    }

    /** The loader calls context method `name` of the task on `port`. */
    method CallContext(port: nat, name: string, args: seq<Value>)
      requires ContextMethodOf(name).Some?
      modifies this`portPosts, this`handlers
      ensures portPosts == old(portPosts) + [PortPost(port, PostedMessage(ContextMethodOf(name).value, args), {})]
      ensures ContextMethodOf(name).value.WithCallback? ==>
        handlers == old(handlers) + [Handler(port, ContextMethodOf(name).value.reply, SplitCallback(args).1)]
      ensures !ContextMethodOf(name).value.WithCallback? ==> handlers == old(handlers)
    {
      var m := ContextMethodOf(name).value;
      if m.WithCallback? {
        handlers := handlers + [Handler(port, m.reply, SplitCallback(args).1)];
      }
      portPosts := portPosts + [PortPost(port, PostedMessage(m, args), {})];
    }

    /** A message from the main thread on `port`: the matching kept callbacks fire and stop listening. */
    method OnPortReply(port: nat, response: seq<Value>)
      modifies this`handlers, this`callbackCalls
      ensures handlers == Remaining(old(handlers), port, response)
      ensures callbackCalls == old(callbackCalls) + Fired(old(handlers), port, response)
    {
      var hs := handlers;
      var kept: seq<Handler> := [];
      for i := 0 to |hs|
        invariant kept == Remaining(hs[..i], port, response)
        invariant callbackCalls == old(callbackCalls) + Fired(hs[..i], port, response)
      {
        assert hs[..i + 1][..i] == hs[..i];
        var h := hs[i];
        if Matches(h, port, response) {
          callbackCalls := callbackCalls + [(h.callback, [Arg(response, 1), Arg(response, 2)])];
        } else {
          kept := kept + [h];
        }
      }
      assert hs[..|hs|] == hs;
      handlers := kept;
    }

    /**
     * The loader runner's callback for the task on `port`: exactly one
     * completion message, an error for a truthy error and a success carrying
     * the result (and transferring its buffers) otherwise; then the port is
     * closed and the task leaves the working set. Listing the buffers of a
     * missing result throws, and then nothing is posted.
     */
    method OnLoaderDone(port: nat, err: Value, result: Value)
      requires Valid() && port in workingTask
      modifies this`portPosts, this`closedPorts, this`workingTask, this`crashed
      ensures Valid()
      ensures Truthy(err) ==>
        portPosts == old(portPosts) + [PortPost(port, [Num(Code(FromWorker(COMPLETE_LOADER_ERROR))), err], {})]
      ensures !Truthy(err) && !Nullish(result) ==>
        portPosts == old(portPosts) +
          [PortPost(port, [Num(Code(FromWorker(COMPLETE_LOADER_SUCCESS))), result], TransferBuffers(result).value)]
      ensures Truthy(err) || !Nullish(result) ==>
        closedPorts == old(closedPorts) + [port] && workingTask == old(workingTask) - {port} && crashed == old(crashed)
      ensures !Truthy(err) && Nullish(result) ==>
        crashed && portPosts == old(portPosts) && workingTask == old(workingTask) && closedPorts == old(closedPorts)
    {
      if Truthy(err) {
        portPosts := portPosts + [PortPost(port, [Num(101), err], {})];
      } else {
        var buffers := TransferBuffers(result);
        if buffers.None? {
          crashed := true;
          return;
        }
        portPosts := portPosts + [PortPost(port, [Num(100), result], buffers.value)];
      }
      closedPorts := closedPorts + [port];
      if port in workingTask {
        workingTask := workingTask - {port};
      }
    }
  }

  /** The completion message a run posts is the one the main thread turns into the task's callback. */
  lemma CompletionReachesCallback(err: Value, result: Value)
    ensures Truthy(err) ==> TaskEvent([Num(Code(FromWorker(COMPLETE_LOADER_ERROR))), err]) == Finish(err, Null)
    ensures TaskEvent([Num(Code(FromWorker(COMPLETE_LOADER_SUCCESS))), result]) == Finish(Null, result)
  {
    SuccessCompletes(result, []);
    ErrorCompletes(err, []);
    assert [Num(Code(FromWorker(COMPLETE_LOADER_SUCCESS))), result] == [Num(Code(FromWorker(COMPLETE_LOADER_SUCCESS))), result] + [];
    assert [Num(Code(FromWorker(COMPLETE_LOADER_ERROR))), err] == [Num(Code(FromWorker(COMPLETE_LOADER_ERROR))), err] + [];
  }
}
