/**
 * Naive error serialisation (src/utils/serializeError.ts): an `Error` becomes
 * a plain record of its message, name and stack; anything else passes
 * through unchanged.
 */
module Errors {
  import opened Values

  /** The record an `Error` is turned into. */
  function ErrorRecord(message: string, name: string, stack: Value): Value {
    Obj(map["message" := Str(message), "name" := Str(name), "stack" := stack])
  }

  function SerializeError(err: Value): (r: Value)
    ensures err.Err? ==> r.Obj? && r.fields.Keys == {"message", "name", "stack"}
    ensures err.Err? ==>
      r.fields["message"] == Str(err.message) && r.fields["name"] == Str(err.name) && r.fields["stack"] == err.stack
    ensures !err.Err? ==> r == err
    ensures !r.Err?
  {
    if err.Err? then ErrorRecord(err.message, err.name, err.stack) else err
  }

  /** A string message is forwarded unchanged. */
  lemma SerializeString(s: string)
    ensures SerializeError(Str(s)) == Str(s)
  {
  }

  /** Serialising twice is serialising once: a record is not an `Error`. */
  lemma SerializeIdempotent(err: Value)
    ensures SerializeError(SerializeError(err)) == SerializeError(err)
  {
  }

  /** Extra properties of an `Error` are dropped: only the three fields survive. */
  lemma SerializeDropsProps(message: string, name: string, stack: Value, p: map<string, Value>, q: map<string, Value>)
    ensures SerializeError(Err(message, name, stack, p)) == SerializeError(Err(message, name, stack, q))
  {
  }
}
