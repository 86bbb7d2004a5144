/**
 * The request tuple `[tag, processed, context]` (src/TaskMessage.ts). The
 * exit request a worker thread sends itself is the same tuple without a
 * context, so the context is optional here.
 */
module Messages {
  import opened Values
  import opened Channel

  datatype TaskMessage = TaskMessage(tag: RequestToWorker, processed: bool, context: Option<Entries>)

  /** `[RequestToWorker.EXIT_THREAD, false]` */
  const ExitRequest: TaskMessage := TaskMessage(EXIT_THREAD, false, None)

  /** `[RequestToWorker.RUN_LOADER, false, context]` as `doWork` builds it. */
  function RunRequest(ctx: Entries): (m: TaskMessage)
    ensures m.tag == RUN_LOADER && !m.processed && m.context == Some(ctx)
  {
    TaskMessage(RUN_LOADER, false, Some(ctx))
  }
}
