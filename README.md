# webpack-loader-worker, modelled in Dafny

webpack-loader-worker runs webpack loaders on Node.js `worker_threads`. Underneath the threads, ports, comlink proxies, rxjs streams and loader-runner, the library makes a set of sequential bookkeeping decisions. This project models those decisions and proves what they guarantee.

- **The tag-protocol pool.**
  - `Queue` models the task scheduler. It keeps one FIFO list per worker, tries the lists in round-robin order from a rotating offset, uses a shared `processed` slot and a lock per worker.
  - `Pool` models the worker slot table.
  - `Threads` models a worker thread as the main thread sees it: the request in flight, tag dispatch, exit and respawn.
  - `PoolFacade` models the façade: the default size, a single `close`, one idle timer, and one pool per options key.
  - `WorkerScript` models the worker side: the in-progress set, closing the parent port, the context proxies, and the completion message of each run.
- **The comlink pool.**
  - `ComlinkPool` models the context split that records `proxyFnKeys`, the first-available scan, pairing in arrival order, and settlement routing.
  - `ComlinkWorker` models the runner's `isRunning` flag, the rebinding of `proxyFnKeys`, and the `resolve` override.
- **Shared pieces.**
  - `Context` and `ContextBuilder` hold the marshalling rule: six keys dropped, `loaders` suffix, `resource`.
  - `Errors` models `serializeError`.
  - `Channel` holds the wire tags and their codes.
  - `Messages` models the request tuple.
  - `LoaderWorker` models the loader entry point: the all-compilers-done counter, the local context builder, and result forwarding.

`Values` gives JavaScript values a shape:
- an object is a `map` when only its keys matter;
- it is an `Entries` sequence (the result of `Object.entries`) when order matters;
- `Fn(id)` is a function and `Err` is an `Error`.

The environment is represented as data:
- Messages a component posts become outbox sequences.
- Timers become explicit fire events.
- What remote workers answer, and how loader runs settle, are inputs to methods.

This follows the code where the code's behaviour is surprising. Examples:
- the respawn after a crash re-submits an exit request;
- a `resolve` reply fires every kept callback on the port;
- a failed loader run leaves the comlink runner busy;
- the comlink pool probes for a worker only at start-up and after each settled run, so at most one comlink run is in flight despite `mergeMap`'s bound of 4.

## Model

| member | source | states |
|---|---|---|
| Channel.Decode | src/WorkerChannelMessage.ts:5-46 | a code that decodes at all decodes to a tag whose code it is |
| Channel.DecodeCode | src/WorkerChannelMessage.ts:5-46 | round trip: every tag's code decodes back to that tag |
| Channel.CodeInjective | src/WorkerChannelMessage.ts:5-46 | two tags with the same code are the same tag |
| Channel.FamilyRanges | src/WorkerChannelMessage.ts:5-46 | the four families use the disjoint ranges 0..1, 100..102, 200..208 and 300; the family follows from the code alone (both directions) |
| Channel.RequestToMainConsecutive | src/WorkerChannelMessage.ts:26-36 | the nine request-to-main codes are consecutive in declaration order, starting at 200 |
| Errors.SerializeError | src/utils/serializeError.ts:4-13 | an `Error` becomes a record with exactly `message`, `name` and `stack`, all equal to the error's; any other value is returned unchanged; the result is never an `Error` |
| Errors.SerializeString | src/utils/serializeError.ts:12 | a string is returned unchanged |
| Errors.SerializeIdempotent | src/utils/serializeError.ts:5-12 | serialising a serialised value changes nothing |
| Errors.SerializeDropsProps | src/utils/serializeError.ts:6-10 | an error's own extra properties do not affect the record |
| Context.Rest | src/utils/buildWorkerLoaderContext.ts:13 | the rest entries contain none of the six omitted keys, and each one is an entry of the context |
| Context.RestMap | src/utils/WorkerTaskLoaderContext.ts:6-9 | the rest object is exactly the context minus `fs`, `callback`, `async`, `_module`, `_compilation` and `_compiler` |
| Context.RestDistinct | src/utils/buildWorkerLoaderContext.ts:13 | removing keys keeps the remaining own keys distinct |
| Context.SliceStart | src/utils/buildWorkerLoaderContext.ts:26 | `slice(start)` starts at `start` when it is in range, counts from the end when it is negative, and never goes past the length |
| Context.TransferLoaders | src/utils/buildWorkerLoaderContext.ts:26-30 | the loaders after `loaderIndex`, in order, each mapped to `{loader: path, options, ident}`; empty when the index is the last one or past it; a `loaderIndex` of -1 keeps every loader |
| Context.Resource | src/utils/buildWorkerLoaderContext.ts:31 | `resourcePath` followed by `resourceQuery` when there is one, otherwise `resourcePath` alone |
| Context.Augment | src/utils/buildWorkerLoaderContext.ts:26-31 | adds exactly `loaders` and `resource` with those values and leaves every other key alone |
| ContextBuilder.Partition | src/utils/buildWorkerLoaderContext.ts:17-23 | the data part holds no function, the function part only functions, and together they hold exactly the object's keys |
| ContextBuilder.PartitionSplits | src/utils/buildWorkerLoaderContext.ts:17-23 | with distinct keys, the two parts are disjoint and hold each value unchanged |
| ContextBuilder.BuildWorkerLoaderContext | src/utils/buildWorkerLoaderContext.ts:9-37 | functions only on one side and data only on the other; neither side has an omitted key; the data part's `loaders` and `resource` follow the shared rule |
| ContextBuilder.BuildPartitions | src/utils/buildWorkerLoaderContext.ts:13-31 | apart from `loaders` and `resource`, a key is in the data part iff it is kept and not a function, and in the function part iff it is kept and a function, in both cases with its value unchanged |
| Messages.RunRequest | src/taskQueue.ts:36 | `doWork`'s request is `[RUN_LOADER, false, context]` |
| Queue.TaskOutcome | src/taskQueue.ts:38-44 | the task's promise rejects with the error iff the error is truthy, and otherwise resolves with the result |
| Queue.SkipCount | src/taskQueue.ts:53-55 | the skipped prefix is all processed, and the entry after it, if there is one, is unprocessed |
| Queue.SkipCountUnique | src/taskQueue.ts:53-55 | that prefix is unique: any index before which everything is processed and at which an unprocessed entry sits is the skip count |
| Queue.SkipProcessed | src/taskQueue.ts:50-60 | what is left is a suffix of the list whose head is unprocessed, and every dropped entry was processed |
| Queue.RotationIsBijective | src/taskQueue.ts:107-113 | `(offset + i) % maxWorkers` over `i < maxWorkers` visits every worker exactly once |
| Queue.RotationWraps | src/taskQueue.ts:108-110 | the rotation wraps around at most once |
| Queue.FirstFree | src/taskQueue.ts:108-110 | the first step in rotation order whose worker is unlocked; every earlier step's worker is locked; `n` when every worker is locked |
| Queue.AddTaskKeeps | src/taskQueue.ts:34-48 | adding an unclaimed task preserves the scheduler invariant |
| Queue.SkipKeeps | src/taskQueue.ts:50-60 | advancing a free worker's list preserves the invariant, and restores it in full once the list is empty |
| Queue.ClaimKeeps | src/taskQueue.ts:80-83 | claiming the unprocessed head (marking it processed, locking, executing) restores the full invariant, including each task being dispatched at most once |
| Queue.AppendKeeps | src/taskQueue.ts:95-101 | linking a task onto a list relaxes the invariant for that list only |
| Queue.SettleKeeps | src/taskQueue.ts:73-78 | settling a locked worker's running task records one settlement per task and frees that worker |
| Queue.ProcessKeeps | src/taskQueue.ts:62-86 | `process` turns the relaxed invariant into the full invariant |
| Queue.SkipKeepsUnprocessed | src/taskQueue.ts:53-55 | skipping processed heads never drops an unprocessed task |
| Queue.ProcessWaiting | src/taskQueue.ts:62-86 | after `process`, every unclaimed task is still in every list |
| Queue.PushWaiting | src/taskQueue.ts:107-113 | after a push, the new task is either claimed or linked into every list |
| Queue.AddTaskWaiting | src/taskQueue.ts:34-48 | a fresh task is the only unclaimed task not yet linked anywhere |
| Queue.WorkConserving | src/taskQueue.ts:95-102 | while a task is unclaimed, every worker is locked |
| Queue.EnqueueSteps | src/taskQueue.ts:88-105 | appending an unprocessed task and processing the list: a locked worker holds it at its tail, a free worker claims it at once |
| Queue.PushStep | src/taskQueue.ts:107-113 | step `i` of a push: workers before the first free one queue the task, the first free one claims it, later ones leave a processed task alone |
| Queue.PushFinished | src/taskQueue.ts:107-113 | after all `maxWorkers` steps the push has its closed-form result `Pushed` |
| Queue.AtMostOneInFlight | src/taskQueue.ts:62-86 | two claimed, unsettled tasks of the same worker are the same task |
| Queue.TaskQueue.Request | src/taskQueue.ts:36 | a task's tuple is `RUN_LOADER`, its shared `processed` slot, and its context |
| Queue.TaskQueue.constructor | src/taskQueue.ts:21-32 | `maxWorkers` empty, unlocked lists with offset 0 and no tasks |
| Queue.TaskQueue.DoWork | src/taskQueue.ts:34-48 | a new unclaimed task is pushed from the current offset; the offset advances by one; the invariant holds |
| Queue.TaskQueue.GetNextTask | src/taskQueue.ts:50-60 | only that worker's list advances, past exactly its processed heads; the task returned is unprocessed, or there is none |
| Queue.TaskQueue.Process | src/taskQueue.ts:62-86 | a locked worker does nothing; otherwise it skips processed heads and claims the head that is left; the invariant is restored |
| Queue.TaskQueue.Enqueue | src/taskQueue.ts:88-105 | a processed task is refused; otherwise a locked worker appends it at its tail and a free worker claims it |
| Queue.TaskQueue.Push | src/taskQueue.ts:107-113 | enqueues on every worker exactly once in rotation order from `offset`, then advances `offset` by one; the result is `Pushed` |
| Queue.TaskQueue.Complete | src/taskQueue.ts:73-78 | the running task's callback is settled exactly once with its outcome, the worker is unlocked, and then its list is processed |
| Pool.OrFoldAny | src/workerPool.ts:70-75 | the OR-fold from `false` is true iff some worker was forced |
| Pool.WorkerPool.constructor | src/workerPool.ts:26-29 | exactly `maxWorkers` slots, each holding a fresh, open worker whose id is its slot |
| Pool.WorkerPool.Invalidate | src/workerPool.ts:78-89 | an open worker keeps its slot; an empty or closed slot gets a fresh, open worker with that slot's id |
| Pool.WorkerPool.Send | src/workerPool.ts:39-46 | the task goes to an open worker in slot `w`; if that slot was closed, only closed slots are refilled; other workers are untouched |
| Pool.WorkerPool.RequestExits | src/workerPool.ts:51-52 | every worker is asked to exit: closed, with the exit tuple posted and made its request |
| Pool.WorkerPool.ForceExits | src/workerPool.ts:57-60 | exactly the workers whose timers fired are forced to exit |
| Pool.WorkerPool.End | src/workerPool.ts:48-76 | every worker is asked to exit; the forced ones are force-exited; the result is true iff some exit was forced |
| Threads.ClonableData | src/workerThread.ts:116-122 | the kept keys are exactly the non-omitted, non-function keys of the context, with their values |
| Threads.TransferValueShape | src/workerThread.ts:115-133 | the transfer value holds no function and no omitted key; its `loaders` and `resource` follow the shared rule; every other key is kept iff it holds data, with its value |
| Threads.TransferIsContextObject | src/workerThread.ts:115-133 | the transfer value equals the data part of `buildWorkerLoaderContext` |
| Threads.TaskEvent | src/workerThread.ts:60-88 | only tags 100 and 101 complete the task, and only tags 200..208 reach the loader context |
| Threads.SuccessCompletes | src/workerThread.ts:63-64 | a success message completes with `(null, result)` |
| Threads.ErrorCompletes | src/workerThread.ts:65-66 | an error message completes with `(error, null)` |
| Threads.RequestReachesContext | src/workerThread.ts:67-87 | `loadModule` is ignored; `resolve` asks with its two arguments; every other request calls the method of the same name with that method's arguments |
| Threads.ResolveReply | src/workerThread.ts:73-76 | the reply is `[300, serialised error or undefined, result]` and never carries a raw `Error` |
| Threads.WorkerThread.constructor | src/workerThread.ts:23-25 | a new thread is open, not forced, has no request, and has spawned once |
| Threads.WorkerThread.ForceExit | src/workerThread.ts:39-43 | marks the thread forced and closed, and terminates it |
| Threads.WorkerThread.RequestTask | src/workerThread.ts:45-99 | remembers the request and callback; posts the task with a new port and its transfer value; a request without a context posts nothing (marshalling throws) |
| Threads.WorkerThread.OnPortMessage | src/workerThread.ts:51-88 | a completion clears request and callback, then completes that port's callback; forwarded calls and resolve requests are recorded; nothing else changes |
| Threads.WorkerThread.OnResolved | src/workerThread.ts:73-76 | the answer to a resolve is posted on that task's port as the resolve reply |
| Threads.WorkerThread.RequestExit | src/workerThread.ts:101-113 | the exit tuple becomes the request and is posted; one close handler is added; the thread is closed |
| Threads.WorkerThread.OnThreadMessage | src/workerThread.ts:104-109 | the close acknowledgement clears the request and the handlers if one is registered; any other message changes nothing |
| Threads.WorkerThread.OnWorkerThreadExit | src/workerThread.ts:148-158 | a clean or forced exit resolves the exit promise with nothing re-sent; any other exit respawns and re-submits |
| Threads.WorkerThread.Respawn | src/workerThread.ts:148-158 | one more thread is spawned; a remembered request and callback are re-posted, and re-submitting an exit tuple throws |
| PoolFacade.PoolSize | src/threadPoolRedux.ts:24 | a truthy given count is used as is; otherwise `max(cpus - 1, 1)`, which is at least 1 |
| PoolFacade.PushDispatchesOnce | src/taskQueue.ts:107-113 | a push calls the executor at most once, and only for the pushed task |
| PoolFacade.ProcessDispatchesOnce | src/taskQueue.ts:62-86 | `process` calls the executor at most once |
| PoolFacade.ThreadPool.OneIdleTimer | src/threadPoolRedux.ts:48-57 | at most one idle timer is pending |
| PoolFacade.ThreadPool.constructor | src/threadPoolRedux.ts:23-32 | the worker pool and the queue get the same size, and one idle timer is armed |
| PoolFacade.ThreadPool.ScheduleTimeout | src/threadPoolRedux.ts:48-57 | the previous timer is cleared and a new one armed |
| PoolFacade.ThreadPool.Execute | src/threadPoolRedux.ts:25-29 | the queue's executor is `workerPool.send`: a new dispatch is sent to its worker, which ends up open and holding the task's request and callback |
| PoolFacade.ThreadPool.RunLoaderTask | src/threadPoolRedux.ts:43-46 | re-arms the single idle timer, then pushes the task; at most one worker receives it, and only that task |
| PoolFacade.ThreadPool.Submit | src/threadPoolRedux.ts:45 | the queue's `doWork`: the task is pushed, with at most one dispatch, which is of that task |
| PoolFacade.ThreadPool.OnTaskComplete | src/threadPoolRedux.ts:25-29 | completion settles and unlocks the worker; a follow-up dispatch goes to the same worker |
| PoolFacade.ThreadPool.Close | src/threadPoolRedux.ts:34-41 | only the first call ends the workers; later calls throw and end nothing |
| PoolFacade.ThreadPool.FireIdleTimer | src/threadPoolRedux.ts:54-56 | the idle timer ends every worker without setting `closing` |
| PoolFacade.PoolRegistry.constructor | src/threadPoolRedux.ts:60 | the memo starts empty |
| PoolFacade.PoolRegistry.CreateThreadPool | src/threadPoolRedux.ts:60 | the same options key gives the same pool; a new key gives a fresh, correctly sized pool |
| ComlinkPool.NewArrayLength | src/threadPool.ts:26 | `new Array(len)`: a non-negative number is a length, a negative one throws, and anything else gives one element |
| ComlinkPool.WorkerCount | src/threadPool.ts:16-32 | the default options give 4; `null` throws; any other value gives the array length from its `maxWorkers` |
| ComlinkPool.CountGivesOneWorker | src/threadPool.ts:26 | passing a bare number gives a single worker |
| ComlinkPool.OptionsObjectGivesCount | src/threadPool.ts:16-32 | `{maxWorkers: n}` gives exactly `n` workers |
| ComlinkPool.FnKeys | src/threadPool.ts:89-98 | each listed key belongs to a function-valued entry |
| ComlinkPool.KeyList | src/threadPool.ts:92 | `proxyFnKeys` holds the keys as strings, in order |
| ComlinkPool.SplitPartitions | src/threadPool.ts:89-98 | without a `proxyFnKeys` entry the split succeeds; `proxyFnKeys` lists the function keys in entry order; functions go to the proxy part and everything else to the data part, values unchanged |
| ComlinkPool.FnKeysAreProxyKeys | src/threadPool.ts:89-98 | the keys in `proxyFnKeys` are exactly the keys of the proxy part |
| ComlinkPool.FnKeysHas | src/threadPool.ts:89-92 | every function entry's key is listed |
| ComlinkPool.Delivered | src/threadPool.ts:67-74 | the task is rejected iff the run failed with a truthy error; otherwise it completes with the result (or `null`) |
| ComlinkPool.ThreadPool.constructor | src/threadPool.ts:16-77 | the pool has as many workers as `WorkerCount` gives and no task; the kick-off probe is the only probe so far, and it announces the first available worker, or none iff none is available |
| ComlinkPool.ThreadPool.Pair | src/threadPool.ts:55-58 | `zip` runs the head task on the head announced worker, only when both queues have a head |
| ComlinkPool.ThreadPool.FirstAvailable | src/threadPool.ts:37-45 | the first worker whose answer is available, with every earlier one unavailable, or none iff no worker is available |
| ComlinkPool.ThreadPool.PushAvailableWorker | src/threadPool.ts:34-46 | announces the first available worker in order, or none iff none is available; one probe per call, called only by the kick-off and by `RunSettled` |
| ComlinkPool.ThreadPool.Next | src/threadPool.ts:55-58 | `taskQueue.next` (line 107): the task is recorded and runs on the head waiting worker iff one is waiting |
| ComlinkPool.ThreadPool.RunTask | src/threadPool.ts:85-109 | a failed split queues nothing; otherwise the task is queued and runs at once iff a worker is waiting |
| ComlinkPool.ThreadPool.RunSettled | src/threadPool.ts:63-74 | one availability probe, then exactly one delivery of the routed outcome; the probes stay one more than the deliveries |
| ComlinkPool.ThreadPool.OneRunInFlight | src/threadPool.ts:55-77 | since runs start only on announcements, and only the kick-off and each settlement probe, at most one started run is undelivered, whatever the number of workers |
| ComlinkPool.ThreadPool.Complete | src/threadPool.ts:80-84 | every worker is terminated, in order |
| ComlinkWorker.BaseContext | src/workerFunction.ts:26-33 | the run context has exactly the keys `options`, `fs`, `webpack` and `parallelLoader`, with `options.context = optionsContext`, the worker's `fs` module, `webpack = true` and `parallelLoader = true` |
| ComlinkWorker.KeyStrings | src/workerFunction.ts:36 | a key is bound iff the array holds it as a string |
| ComlinkWorker.BindProxyKeys | src/workerFunction.ts:36-38 | each listed key gets the proxy's entry, and every other key keeps its value |
| ComlinkWorker.FunctionsRebound | src/workerFunction.ts:36-38 | round trip with the split: every function of the original context is back under its own key |
| ComlinkWorker.TaskRunner.constructor | src/workerFunction.ts:15-19 | a new runner is available |
| ComlinkWorker.TaskRunner.Run | src/workerFunction.ts:20-44 | the runner becomes busy; non-array `proxyFnKeys` throws; otherwise the spread context, the bound run context and the `resolve` override |
| ComlinkWorker.TaskRunner.RunnerSettled | src/workerFunction.ts:46-51 | returns the runner's result; only a resolved run frees the runner, a rejected one leaves it busy |
| ComlinkWorker.ResolveCall | src/workerFunction.ts:42-44 | the `resolve` wrapper passes context, request and callback on to the main thread's `resolve` |
| LoaderWorker.CompilerDoneRegistry.constructor | src/webpackLoaderWorker.ts:16-19 | no compilers and a count of zero |
| LoaderWorker.CompilerDoneRegistry.Register | src/webpackLoaderWorker.ts:21-25 | a known compiler is a no-op; a new one joins the set with one done hook |
| LoaderWorker.CompilerDoneRegistry.OnDone | src/webpackLoaderWorker.ts:26-33 | the count grows by one; teardown runs iff the count equals the number of compilers, with the hook's pool |
| LoaderWorker.Assign | src/webpackLoaderWorker.ts:47-52 | assignment writes in place or appends, and keeps own keys distinct |
| LoaderWorker.AssignMap | src/webpackLoaderWorker.ts:47-52 | assigning a key changes that key only |
| LoaderWorker.BuildLoaderContextMap | src/webpackLoaderWorker.ts:37-54 | the local builder keeps everything but the six keys, functions included, with the shared `loaders`/`resource` rule |
| LoaderWorker.BuildLoaderContextKeys | src/webpackLoaderWorker.ts:44-52 | the result's keys are distinct, and no `proxyFnKeys` key appears |
| LoaderWorker.WorkerSeesLoaderFunctions | src/webpackLoaderWorker.ts:80-84 | end to end on the comlink path, a loader-context function reaches the worker's context under its key |
| LoaderWorker.LoaderContextSplits | src/webpackLoaderWorker.ts:80-84 | splitting the loader's context never throws |
| LoaderWorker.MaxWorkersOption | src/webpackLoaderWorker.ts:62 | missing options give `undefined`; otherwise their `maxWorkers` |
| LoaderWorker.ConfiguredCountIgnored | src/webpackLoaderWorker.ts:72 | as written, a configured count of 8 starts one worker |
| LoaderWorker.PoolArgument | src/webpackLoaderWorker.ts:72 | the intended argument: `{maxWorkers}` when configured, the default otherwise |
| LoaderWorker.ConfiguredCountHonoured | src/webpackLoaderWorker.ts:72 | with it, `n` gives `n` workers, and no option gives 4 |
| LoaderWorker.StartLoader | src/webpackLoaderWorker.ts:68-80 | disabled workers throw before any pool exists; otherwise the local context is queued, and with the corrected `PoolArgument` the pool size follows the option (as written it is one worker, see `ConfiguredCountIgnored`) |
| LoaderWorker.CallPoolMember | src/webpackLoaderWorker.ts:73 | only `complete` and `runTask` exist on the pool |
| LoaderWorker.TeardownThrows | src/webpackLoaderWorker.ts:73 | as written, `pool.dispose()` throws |
| LoaderWorker.Teardown | src/webpackLoaderWorker.ts:73 | the intended teardown calls `complete` |
| LoaderWorker.RunTeardown | src/webpackLoaderWorker.ts:73 | the corrected teardown, run on the captured pool through `complete` (src/threadPool.ts:80-84), terminates every one of its workers |
| LoaderWorker.DependencyList | src/webpackLoaderWorker.ts:96-97 | a missing list is empty, an array's elements are visited in order, and any other value that is not an ArrayBuffer view throws |
| LoaderWorker.SpreadArgs | src/webpackLoaderWorker.ts:102 | spreading an array gives its elements, a string its characters; anything else throws |
| LoaderWorker.ResultReachesWebpack | src/webpackLoaderWorker.ts:94-102 | every dependency is added in order, and the callback gets `(null, ...result)` |
| LoaderWorker.MissingPartsDefault | src/webpackLoaderWorker.ts:94-104 | missing lists count as empty, and a missing result gives `(null, undefined)` |
| LoaderWorker.FailuresAndStalls | src/webpackLoaderWorker.ts:87-109 | a rejected task gives `(err)`; a falsy result never calls the callback |
| LoaderWorker.CallbackShape | src/webpackLoaderWorker.ts:101-109 | the callback gets `null` first, unless it gets a single error |
| WorkerScript.InstalledNamesAreMethods | src/workerScript.ts:59-102 | a name has an installed method iff it is one of the eleven the worker writes |
| WorkerScript.SplitCallback | src/workerScript.ts:68-69 | every argument but the last is sent, and the last is the callback |
| WorkerScript.PostedMessage | src/workerScript.ts:52-102 | every call posts a message that starts with a numeric tag |
| WorkerScript.InstalledTags | src/workerScript.ts:85-101 | each forwarding method posts the tag of the main-thread method of the same name; `resolve` posts the resolve request |
| WorkerScript.CallReachesMainThread | src/workerScript.ts:52-102 | round trip with the main thread's dispatch: forwarded calls arrive unchanged, `emitError`/`emitWarning` carry the serialised message, `resolve` arrives as a resolve request, and unsupported methods arrive as `emitError` |
| WorkerScript.Remaining | src/workerScript.ts:71-79 | the handlers left listening are exactly those that did not match: none that matched, and every one that did not |
| WorkerScript.Fired | src/workerScript.ts:71-79 | every fired callback is called with `response[1]` and `response[2]` |
| WorkerScript.FiredOrRemaining | src/workerScript.ts:71-81 | each handler either fires or stays: it stays iff it does not match, every matching one fires, every fired callback belongs to a matching handler, and the fired and remaining counts add up to the handlers |
| WorkerScript.NoneFire | src/workerScript.ts:71-74 | a reply no handler matches fires nothing |
| WorkerScript.FiresAtMostOnce | src/workerScript.ts:71-79 | a second reply with the same tag fires no handler already fired, so each callback fires at most once |
| WorkerScript.ResolveRepliesFanOut | src/workerScript.ts:71-79 | two resolves in flight on one port both fire on the first reply |
| WorkerScript.TransferBuffers | src/workerScript.ts:154-156 | the transfer list is exactly the buffers of the result's ArrayBuffer views; a missing result throws |
| WorkerScript.AugmentLoaderOptions | src/workerScript.ts:35-105 | `options.context` is the root context; installed methods and `fs` replace the clone's values; every other key is kept |
| WorkerScript.WorkerFunctionRunner.constructor | src/workerScript.ts:24-25 | no tasks in progress and nothing posted |
| WorkerScript.WorkerFunctionRunner.ClosePort | src/workerScript.ts:107-114 | posts the close acknowledgement and closes iff no task is in progress; otherwise posts nothing |
| WorkerScript.WorkerFunctionRunner.ArmRetry | src/workerScript.ts:126-138 | arms one new 1000 ms retry timer |
| WorkerScript.WorkerFunctionRunner.OnParentMessage | src/workerScript.ts:123-167 | on an open parent port, an exit request closes the port or arms a retry; a run request adds its port and runs on the augmented context |
| WorkerScript.WorkerFunctionRunner.FireExitRetry | src/workerScript.ts:127-138 | a retry closes the port once no task is left, otherwise re-arms; a retry stays pending until the port closes |
| WorkerScript.WorkerFunctionRunner.CallContext | src/workerScript.ts:63-83 | posts the method's message; only `resolve` keeps its callback |
| WorkerScript.WorkerFunctionRunner.OnPortReply | src/workerScript.ts:71-79 | the matching handlers fire in order and are removed; the others stay |
| WorkerScript.WorkerFunctionRunner.OnLoaderDone | src/workerScript.ts:150-165 | exactly one completion message (error if truthy, otherwise success with its buffers); the port is closed and leaves the working set |
| WorkerScript.CompletionReachesCallback | src/workerScript.ts:150-158 | the completion message a run posts is what the main thread turns into the task's callback |

## Left out

- Threads, `MessageChannel`, `postMessage`/`on`/`off`, `parentPort` and `terminate` are transport. Messages are outbox sequences and thread exits are method calls.
- Real parallelism, async ordering between threads, and `Promise.all` in `end`: each asynchronous completion is a separate method applied in sequence, and the model does not wait for exits.
- Timers have no clock: the 2000 ms idle timer, the 5000 ms force-exit timer and the 1000 ms exit retry are explicit fire events, and which force-exit timer wins is the input `forced`.
- comlink (`wrap`, `expose`, `proxy`, its transfer handlers and the `proxiesSet` release) is a foreign library: a proxied function is the function it proxies.
- rxjs streams are foreign: only the in-order pairing and the settlement routing are modelled, not the concurrency bound of 4 on `mergeMap` (src/threadPool.ts:21, src/threadPool.ts:62), which `ComlinkPool.ThreadPool.OneRunInFlight` shows is never reached.
- loader-runner, `fs` and `readResource` are foreign calls: a run's settlement is an input, and the worker's `fs` module is the opaque input value `fs`.
- What a remote worker answers to `isAvailable` is the input `available`; whether `worker_threads` is enabled (src/utils/isWorkerEnabled.ts) is the input `enabled`.
- The re-wrapping of the loader's `resolve` callback through comlink's transitive proxying is not modelled beyond the override in src/workerFunction.ts:42-44.
- Numbers are integers, so NaN and floating point are not modelled, and truthiness follows from that.
- The linked lists of the scheduler are per-worker sequences of task ids from head to tail: `next` pointers and the sharing of `QueuedTask` objects are not modelled; one shared `processed` slot per task stands for the shared tuple.
- The identities of the options object (the key of `createThreadPool`'s memo), of compilers and of functions are ids.
- src/loaderWorkerFunction.ts, the src/adapters files, src/parallelLoader.ts, src/utils/logger.ts, the transfer-handler files and the test and build configuration are not part of this model.
- PoolFacade.ThreadPool.constructor: requires a non-negative given count; a negative one would make `new Array` throw, and that path is not modelled.
- PoolFacade.PoolRegistry.CreateThreadPool: the same requirement on the given count.
- LoaderWorker.SpreadArgs: requires a non-`Buffer` value, because iterating a typed array's bytes is not modelled; LoaderWorker.ForwardResult has the same requirement on `result`.
- LoaderWorker.DependencyList: requires a non-`Buffer` value. A typed-array dependency list would be iterated and a `DataView` one would throw, and `Buffer` does not distinguish them. LoaderWorker.ForwardResult and LoaderWorker.CallbackShape have the same requirement on `fileDependencies` and `contextDependencies`.
- ComlinkWorker.TaskRunner.Run: requires the items of an array `proxyFnKeys` to be strings, as `runTask` always produces; JavaScript's coercion of other keys is not modelled.
- ComlinkPool.ThreadPool.RunSettled: requires that the run has not been delivered yet, as a comlink call settles once.
- WorkerScript.WorkerFunctionRunner.FireExitRetry: two exit requests that arrive while tasks run start two retry chains; once the first closes the parent port, the second still records a `COMPLETE_CLOSE_PARENT_PORT` post, which Node.js drops on a closed port.
- ComlinkPool.ThreadPool.Complete: terminates the workers in order, without modelling the wait for each `terminate` promise.
- WorkerScript.TransferBuffers: of an `Error` result only its extra properties are inspected.
- WorkerScript.AugmentLoaderOptions: states the data the options hold; what the installed methods do is stated by WorkerScript.PostedMessage and WorkerScript.CallReachesMainThread.
- Threads.WorkerThread.Respawn: does not state the port opened by the re-submission, and keeps counting the exit handlers registered on the old thread.
- Threads.WorkerThread.OnPortMessage: the calls on the loader context are recorded, not performed.

## Findings

| source | as written | input that shows it | evidently intended | confidence | as-written member | corrected member |
|---|---|---|---|---|---|---|
| src/webpackLoaderWorker.ts:72 | `createPool(maxWorkers)` passes the configured number, but `createPool` reads `options.maxWorkers`; a number has no such property, so `new Array(undefined)` has length 1 | loader options `{maxWorkers: 8}` start one worker | pass `{ maxWorkers }`, so the configured count is honoured and the default 4 applies when none is given | high; not executed | LoaderWorker.ConfiguredCountIgnored | LoaderWorker.ConfiguredCountHonoured |
| src/webpackLoaderWorker.ts:73 | the all-compilers-done hook calls `pool.dispose()`, but the pool returned by `createPool` only has `complete` and `runTask` | any build whose compilers all finish: the teardown throws and no worker is terminated | call `pool.complete()`, which terminates every worker | high; not executed | LoaderWorker.TeardownThrows | LoaderWorker.Teardown |
