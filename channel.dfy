/**
 * The numeric tags of the message protocol between the main thread and a
 * worker thread (src/WorkerChannelMessage.ts). Every message on a port is an
 * array whose first element is one of these codes.
 */
module Channel {
  import opened Values

  /** Requests from the main thread to a worker thread. */
  datatype RequestToWorker = EXIT_THREAD | RUN_LOADER

  /** Replies from a worker thread to a `RequestToWorker`. */
  datatype ResponseFromWorker = COMPLETE_LOADER_SUCCESS | COMPLETE_LOADER_ERROR | COMPLETE_CLOSE_PARENT_PORT

  /** Calls a worker thread makes on the main thread's loader context. */
  datatype RequestToMain =
    | LOADER_CONTEXT_EMIT_WARNING
    | LOADER_CONTEXT_EMIT_ERROR
    | LOADER_CONTEXT_LOAD_MODULE
    | LOADER_CONTEXT_RESOLVE
    | LOADER_CONTEXT_ADDDEPENDENCY
    | LOADER_CONTEXT_DEPENDENCY
    | LOADER_CONTEXT_ADD_CONTEXT_DEPENDENCY
    | LOADER_CONTEXT_CLEAR_DEPENDENCIES
    | LOADER_CONTEXT_EMIT_FILE

  /** Replies from the main thread to a worker's callback-taking request. */
  datatype ResponseFromMain = LOADER_CONTEXT_RESOLVE

  /** Any tag of the four families. */
  datatype Tag =
    | ToWorker(rw: RequestToWorker)
    | FromWorker(fw: ResponseFromWorker)
    | ToMain(rm: RequestToMain)
    | FromMain(fm: ResponseFromMain)

  function RequestToWorkerCode(t: RequestToWorker): int {
    match t
    case EXIT_THREAD => 0
    case RUN_LOADER => 1
  }

  function ResponseFromWorkerCode(t: ResponseFromWorker): int {
    match t
    case COMPLETE_LOADER_SUCCESS => 100
    case COMPLETE_LOADER_ERROR => 101
    case COMPLETE_CLOSE_PARENT_PORT => 102
  }

  /** The position of a request-to-main tag in its declaration (codes count up from 200). */
  function RequestToMainOrdinal(t: RequestToMain): nat {
    match t
    case LOADER_CONTEXT_EMIT_WARNING => 0
    case LOADER_CONTEXT_EMIT_ERROR => 1
    case LOADER_CONTEXT_LOAD_MODULE => 2
    case LOADER_CONTEXT_RESOLVE => 3
    case LOADER_CONTEXT_ADDDEPENDENCY => 4
    case LOADER_CONTEXT_DEPENDENCY => 5
    case LOADER_CONTEXT_ADD_CONTEXT_DEPENDENCY => 6
    case LOADER_CONTEXT_CLEAR_DEPENDENCIES => 7
    case LOADER_CONTEXT_EMIT_FILE => 8
  }

  function RequestToMainCode(t: RequestToMain): int {
    200 + RequestToMainOrdinal(t)
  }

  function ResponseFromMainCode(t: ResponseFromMain): int {
    300
  }

  function Code(t: Tag): int {
    match t
    case ToWorker(x) => RequestToWorkerCode(x)
    case FromWorker(x) => ResponseFromWorkerCode(x)
    case ToMain(x) => RequestToMainCode(x)
    case FromMain(x) => ResponseFromMainCode(x)
  }

  /** The tag a received code stands for, if any. */
  function Decode(c: int): (r: Option<Tag>)
    ensures r.Some? ==> Code(r.value) == c
  {
    if c == 0 then Some(ToWorker(EXIT_THREAD))
    else if c == 1 then Some(ToWorker(RUN_LOADER))
    else if c == 100 then Some(FromWorker(COMPLETE_LOADER_SUCCESS))
    else if c == 101 then Some(FromWorker(COMPLETE_LOADER_ERROR))
    else if c == 102 then Some(FromWorker(COMPLETE_CLOSE_PARENT_PORT))
    else if c == 200 then Some(ToMain(LOADER_CONTEXT_EMIT_WARNING))
    else if c == 201 then Some(ToMain(LOADER_CONTEXT_EMIT_ERROR))
    else if c == 202 then Some(ToMain(LOADER_CONTEXT_LOAD_MODULE))
    else if c == 203 then Some(ToMain(RequestToMain.LOADER_CONTEXT_RESOLVE))
    else if c == 204 then Some(ToMain(LOADER_CONTEXT_ADDDEPENDENCY))
    else if c == 205 then Some(ToMain(LOADER_CONTEXT_DEPENDENCY))
    else if c == 206 then Some(ToMain(LOADER_CONTEXT_ADD_CONTEXT_DEPENDENCY))
    else if c == 207 then Some(ToMain(LOADER_CONTEXT_CLEAR_DEPENDENCIES))
    else if c == 208 then Some(ToMain(LOADER_CONTEXT_EMIT_FILE))
    else if c == 300 then Some(FromMain(ResponseFromMain.LOADER_CONTEXT_RESOLVE))
    else None
  }

  /** Every tag's code decodes back to that tag: the wire format is unambiguous. */
  lemma DecodeCode(t: Tag)
    ensures Decode(Code(t)) == Some(t)
  {
    match t
    case ToWorker(x) =>
    case FromWorker(x) =>
    case ToMain(x) =>
    case FromMain(x) => assert x == ResponseFromMain.LOADER_CONTEXT_RESOLVE;
  }

  /** Distinct tags have distinct codes. */
  lemma CodeInjective(a: Tag, b: Tag)
    requires Code(a) == Code(b)
    ensures a == b
  {
    DecodeCode(a);
    DecodeCode(b);
  }

  /**
   * The families occupy disjoint ranges (0..1, 100..102, 200..208, 300), so one
   * port handler can tell a worker's response from a worker's request by the
   * code alone.
   */
  lemma FamilyRanges(t: Tag)
    ensures t.ToWorker? <==> 0 <= Code(t) <= 1
    ensures t.FromWorker? <==> 100 <= Code(t) <= 102
    ensures t.ToMain? <==> 200 <= Code(t) <= 208
    ensures t.FromMain? <==> Code(t) == 300
  {
  }

  /** Request-to-main codes are consecutive in declaration order. */
  lemma RequestToMainConsecutive(a: RequestToMain, b: RequestToMain)
    ensures RequestToMainCode(a) - RequestToMainCode(b) == RequestToMainOrdinal(a) - RequestToMainOrdinal(b)
    ensures RequestToMainOrdinal(a) <= 8
  {
  }
}
