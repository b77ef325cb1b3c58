/**
 * The verifier: `get_block`, `get_state` and `process_block`. A candidate block
 * is decoded, its parent is fetched by the candidate's parent root, the parent's
 * post-state is fetched by the parent's state root, the reference state
 * transition is run on that pre-state, and its success or failure is compared
 * with what the node decided.
 *
 * Everything `websocket.py` calls but does not define (the HTTP client, JSON
 * parsing, the SSZ/JSON `decode`, `spec.state_transition`) is a field of
 * `Services`, so each property holds for every behaviour of those collaborators.
 */
module Verifier {
  import opened Wrappers
  import opened QueryKey

  /** JSON text, opaque to the model. */
  type Json = string

  /** A beacon block; only its two roots matter to the pipeline. */
  datatype Block = Block(parentRoot: Root, stateRoot: Root, body: Json)

  /** A beacon state, used only as the transition's pre-state. */
  datatype State = State(snapshot: Json)

  /** A Python exception: a missing dictionary key, or any other exception with its text. */
  datatype Fault = KeyError(key: string) | Raised(detail: string)

  /** What `requests.get` gives: an exception from the transport, or a status and a body. */
  datatype Exchange = TransportError(fault: Fault) | Reply(status: int, text: string)

  datatype Services = Services(
    /** `requests.get(url)` against the beacon node */
    http: string -> Exchange,
    /** `decode(json_block, spec.BeaconBlock)` on the announced block */
    decodeBlock: Json -> Result<Block, Fault>,
    /** `decode(json.loads(text)["beacon_block"], spec.BeaconBlock)` on a 200 reply */
    blockReply: string -> Result<Block, Fault>,
    /** `decode(json.loads(text)["beacon_state"], spec.BeaconState)` on a 200 reply */
    stateReply: string -> Result<State, Fault>,
    /** `spec.state_transition(pre_state, block)`: the post-state, or the exception it raised */
    transition: (State, Block) -> Result<State, Fault>)

  /** What a fetch function does: return an object, return None, or raise. */
  datatype Fetch<T> = Found(value: T) | Missing | Failed(fault: Fault)

  /** The outcome of one `process_block` call, as `websocket.py` prints it. */
  datatype Verdict =
    | Confirmed                    // "Confirmed block"
    | FalseAccept(detail: Fault)   // the reference failed a block the node accepted
    | FalseReject                  // the reference did not fail a block the node rejected
    | BlockNotLoaded               // "Failed to load block"
    | StateNotLoaded               // "Failed to load state"
    | Aborted(fault: Fault)        // an exception escaped `process_block`
  {
    /** A verdict that compares the node's decision with the reference's. */
    predicate Conclusive() {
      Confirmed? || FalseAccept? || FalseReject?
    }
  }

  /** A call on a collaborator, in the order `process_block` makes it. */
  datatype Call = HttpGet(url: string) | StateTransition(pre: State, block: Block)

  datatype Run = Run(verdict: Verdict, calls: seq<Call>)

  /**
   * The common shape of `get_block` and `get_state`: a decoded object only on
   * status 200, None on any other status; the transport's exception and the
   * decoder's exception are not caught.
   */
  function FetchReply<T>(ex: Exchange, decode: string -> Result<T, Fault>): (r: Fetch<T>)
    ensures r.Found? <==> ex.Reply? && ex.status == 200 && decode(ex.text).Ok?
    ensures r.Found? ==> decode(ex.text) == Ok(r.value)
    ensures r.Missing? <==> ex.Reply? && ex.status != 200
    ensures ex.TransportError? ==> r == Failed(ex.fault)
    ensures ex.Reply? && ex.status == 200 && decode(ex.text).Err? ==> r == Failed(decode(ex.text).error)
  {
    match ex
    case TransportError(e) => Failed(e)
    case Reply(status, text) =>
      if status == 200 then
        match decode(text)
        case Ok(v) => Found(v)
        case Err(e) => Failed(e)
      else Missing
  }

  /** `get_block(root)`: one request to the block URL of `root`. */
  function GetBlock(s: Services, root: Root): (r: Fetch<Block>)
    ensures r.Found? ==> s.http(BlockUrl(root)).Reply? && s.http(BlockUrl(root)).status == 200
    ensures r.Missing? <==> s.http(BlockUrl(root)).Reply? && s.http(BlockUrl(root)).status != 200
    // a 200 reply that decodes gives exactly the decoded object
    ensures s.http(BlockUrl(root)).Reply? && s.http(BlockUrl(root)).status == 200 && s.blockReply(s.http(BlockUrl(root)).text).Ok? ==>
      r == Found(s.blockReply(s.http(BlockUrl(root)).text).value)
    // a 200 reply that does not decode raises the decoder's exception
    ensures s.http(BlockUrl(root)).Reply? && s.http(BlockUrl(root)).status == 200 && s.blockReply(s.http(BlockUrl(root)).text).Err? ==>
      r == Failed(s.blockReply(s.http(BlockUrl(root)).text).error)
    // the transport's exception is not caught
    ensures s.http(BlockUrl(root)).TransportError? ==> r == Failed(s.http(BlockUrl(root)).fault)
  {
    FetchReply(s.http(BlockUrl(root)), s.blockReply)
  }

  /** `get_state(root)`: one request to the (doubly prefixed) state URL of `root`. */
  function GetState(s: Services, root: Root): (r: Fetch<State>)
    ensures r.Found? ==> s.http(StateUrl(root)).Reply? && s.http(StateUrl(root)).status == 200
    ensures r.Missing? <==> s.http(StateUrl(root)).Reply? && s.http(StateUrl(root)).status != 200
    // a 200 reply that decodes gives exactly the decoded object
    ensures s.http(StateUrl(root)).Reply? && s.http(StateUrl(root)).status == 200 && s.stateReply(s.http(StateUrl(root)).text).Ok? ==>
      r == Found(s.stateReply(s.http(StateUrl(root)).text).value)
    // a 200 reply that does not decode raises the decoder's exception
    ensures s.http(StateUrl(root)).Reply? && s.http(StateUrl(root)).status == 200 && s.stateReply(s.http(StateUrl(root)).text).Err? ==>
      r == Failed(s.stateReply(s.http(StateUrl(root)).text).error)
    // the transport's exception is not caught
    ensures s.http(StateUrl(root)).TransportError? ==> r == Failed(s.http(StateUrl(root)).fault)
  {
    FetchReply(s.http(StateUrl(root)), s.stateReply)
  }

  /**
   * The decision table: the node and the reference agree exactly when the
   * transition succeeded and the node did not expect failure, or it raised and
   * the node did expect failure.
   */
  function Reconcile(outcome: Result<State, Fault>, shouldFail: bool): (v: Verdict)
    ensures v.Conclusive()
    ensures v == Confirmed <==> outcome.Ok? == !shouldFail
    ensures v.FalseAccept? <==> outcome.Err? && !shouldFail
    ensures v.FalseAccept? ==> v.detail == outcome.error
    ensures v == FalseReject <==> outcome.Ok? && shouldFail
  {
    match outcome
    case Err(e) => if !shouldFail then FalseAccept(e) else Confirmed
    case Ok(_) => if shouldFail then FalseReject else Confirmed
  }

  /** `process_block(json_block, should_fail)` with the calls it makes. */
  function ProcessBlock(s: Services, json: Json, shouldFail: bool): (r: Run)
    // an undecodable candidate raises before anything is fetched
    ensures s.decodeBlock(json).Err? ==> r == Run(Aborted(s.decodeBlock(json).error), [])
    // otherwise the first request is for the candidate's parent, by the candidate's parent root
    ensures s.decodeBlock(json).Ok? ==>
      var block := s.decodeBlock(json).value;
      var parent := GetBlock(s, block.parentRoot);
      && 1 <= |r.calls| <= 3
      && r.calls[0] == HttpGet(BlockUrl(block.parentRoot))
      // no parent: nothing else is called, whatever the node decided
      && (!parent.Found? <==> |r.calls| == 1)
      && (parent.Missing? ==> r.verdict == BlockNotLoaded)
      && (parent.Failed? ==> r.verdict == Aborted(parent.fault))
      // the pre-state is fetched by the parent's state root
      && (parent.Found? ==>
            var pre := GetState(s, parent.value.stateRoot);
            && r.calls[1] == HttpGet(StateUrl(parent.value.stateRoot))
            // no pre-state: the transition is never run
            && (!pre.Found? <==> |r.calls| == 2)
            && (pre.Missing? ==> r.verdict == StateNotLoaded)
            && (pre.Failed? ==> r.verdict == Aborted(pre.fault))
            // both loaded: the transition runs on the parent's state and the candidate
            && (pre.Found? ==>
                  && r.calls[2] == StateTransition(pre.value, block)
                  && r.verdict == Reconcile(s.transition(pre.value, block), shouldFail)))
    // only the last call can be the transition, and a verdict compares decisions exactly when it ran
    ensures forall i :: 0 <= i < |r.calls| - 1 ==> r.calls[i].HttpGet?
    ensures r.verdict.Conclusive() <==> |r.calls| == 3
    ensures |r.calls| == 3 ==> r.calls[2].StateTransition?
  {
    match s.decodeBlock(json)
    case Err(e) => Run(Aborted(e), [])
    case Ok(block) =>
      var blockCall := HttpGet(BlockUrl(block.parentRoot));
      match GetBlock(s, block.parentRoot)
      case Failed(e) => Run(Aborted(e), [blockCall])
      case Missing => Run(BlockNotLoaded, [blockCall])
      case Found(parent) =>
        var stateCall := HttpGet(StateUrl(parent.stateRoot));
        match GetState(s, parent.stateRoot)
        case Failed(e) => Run(Aborted(e), [blockCall, stateCall])
        case Missing => Run(StateNotLoaded, [blockCall, stateCall])
        case Found(pre) =>
          var outcome := s.transition(pre, block);
          Run(Reconcile(outcome, shouldFail), [blockCall, stateCall, StateTransition(pre, block)])
  }

  /** The requests and the transition call do not depend on what the node decided. */
  lemma CallsIgnoreFlag(s: Services, json: Json)
    ensures ProcessBlock(s, json, false).calls == ProcessBlock(s, json, true).calls
  {
  }

  /** A verdict that compares no decisions is the same whatever the node decided. */
  lemma InconclusiveIgnoresFlag(s: Services, json: Json, shouldFail: bool)
    requires !ProcessBlock(s, json, shouldFail).verdict.Conclusive()
    ensures ProcessBlock(s, json, !shouldFail) == ProcessBlock(s, json, shouldFail)
  {
  }

  /** Where the reference gave a result, reversing the node's decision reverses agreement. */
  lemma FlagDecidesAgreement(s: Services, json: Json, shouldFail: bool)
    requires ProcessBlock(s, json, shouldFail).verdict.Conclusive()
    ensures ProcessBlock(s, json, !shouldFail).verdict.Conclusive()
    ensures ProcessBlock(s, json, shouldFail).verdict == Confirmed
        <==> ProcessBlock(s, json, !shouldFail).verdict != Confirmed
  {
  }

  /**
   * The parent is requested by the candidate's parent root and never by its
   * state root (unless the two roots coincide).
   */
  lemma ParentFetchedByParentRoot(s: Services, json: Json, shouldFail: bool)
    requires s.decodeBlock(json).Ok?
    ensures ProcessBlock(s, json, shouldFail).calls[0] == HttpGet(BlockUrl(s.decodeBlock(json).value.parentRoot))
    ensures var b := s.decodeBlock(json).value;
      b.parentRoot != b.stateRoot ==> ProcessBlock(s, json, shouldFail).calls[0] != HttpGet(BlockUrl(b.stateRoot))
  {
  }

  /**
   * The pre-state is requested by the parent's state root, not by the
   * candidate's own state root (unless the two roots coincide).
   */
  lemma PreStateFetchedByParentStateRoot(s: Services, json: Json, shouldFail: bool)
    requires s.decodeBlock(json).Ok?
    requires GetBlock(s, s.decodeBlock(json).value.parentRoot).Found?
    ensures var b := s.decodeBlock(json).value;
      var parent := GetBlock(s, b.parentRoot).value;
      && ProcessBlock(s, json, shouldFail).calls[1] == HttpGet(StateUrl(parent.stateRoot))
      && (parent.stateRoot != b.stateRoot ==>
            ProcessBlock(s, json, shouldFail).calls[1] != HttpGet(StateUrl(b.stateRoot)))
  {
  }
}
