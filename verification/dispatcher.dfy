/**
 * The dispatcher, `message_handler`: parses one message, routes the two block
 * events to `process_block` with the matching `should_fail` flag, and ignores
 * every other event. Its lookups of "event", "data" and "block" are not
 * guarded, so a missing key raises `KeyError`.
 */
module Dispatcher {
  import opened Wrappers
  import opened Verifier

  const Imported: string := "beacon_block_imported"
  const Rejected: string := "beacon_block_rejected"

  /**
   * A message after `json.loads`: its "event" value, if the key is present,
   * and its "data" object, if present.
   */
  datatype Envelope = Envelope(event: Option<string>, data: Option<map<string, Json>>)

  /** `json.loads` on a message: the envelope, or the exception it raised. */
  type Parser = string -> Result<Envelope, Fault>

  /** What handling one message came to. */
  datatype Dispatch =
    | Ignored                                // an event other than the two block events
    | Processed(shouldFail: bool, run: Run)  // `process_block` was called
    | Threw(fault: Fault)                    // an exception before `process_block` was reached

  /** The `should_fail` flag an event implies, or None for an event that is ignored. */
  function Route(event: string): (shouldFail: Option<bool>)
    ensures shouldFail == Some(false) <==> event == Imported
    ensures shouldFail == Some(true) <==> event == Rejected
    ensures shouldFail == None <==> event != Imported && event != Rejected
  {
    assert Imported[13] != Rejected[13];
    if event == Imported then Some(false)
    else if event == Rejected then Some(true)
    else None
  }

  /** `message_handler(msg)`. */
  function MessageHandler(s: Services, parse: Parser, msg: string): (d: Dispatch)
    // malformed JSON, or no "event" key, raises
    ensures parse(msg).Err? ==> d == Threw(parse(msg).error)
    ensures parse(msg).Ok? && parse(msg).value.event.None? ==> d == Threw(KeyError("event"))
    ensures parse(msg).Ok? && parse(msg).value.event.Some? ==>
      var env := parse(msg).value;
      var event := env.event.value;
      // any other event makes no call, whatever else the message holds
      && (d == Ignored <==> event != Imported && event != Rejected)
      // the two block events reach `process_block`, if "data" and "block" are there
      && (event == Imported || event == Rejected ==>
            if env.data.None? then d == Threw(KeyError("data"))
            else if "block" !in env.data.value then d == Threw(KeyError("block"))
            else d == Processed(event == Rejected, ProcessBlock(s, env.data.value["block"], event == Rejected)))
  {
    match parse(msg)
    case Err(e) => Threw(e)
    case Ok(env) =>
      match env.event
      case None => Threw(KeyError("event"))
      case Some(event) =>
        match Route(event)
        case None => Ignored
        case Some(shouldFail) =>
          match env.data
          case None => Threw(KeyError("data"))
          case Some(data) =>
            if "block" in data then Processed(shouldFail, ProcessBlock(s, data["block"], shouldFail))
            else Threw(KeyError("block"))
  }

  /** The exception that leaves `message_handler`, if any. */
  function Escape(d: Dispatch): (e: Option<Fault>)
    ensures e.Some? <==> d.Threw? || (d.Processed? && d.run.verdict.Aborted?)
  {
    match d
    case Ignored => None
    case Threw(fault) => Some(fault)
    case Processed(_, run) => if run.verdict.Aborted? then Some(run.verdict.fault) else None
  }

  /** An ignored event never raises: unknown events cannot stop the dispatcher. */
  lemma UnknownEventIsQuiet(s: Services, parse: Parser, msg: string)
    requires parse(msg).Ok? && parse(msg).value.event.Some?
    requires Route(parse(msg).value.event.value).None?
    ensures MessageHandler(s, parse, msg) == Ignored && Escape(MessageHandler(s, parse, msg)).None?
  {
  }
}
