# Block-verification oracle: a Dafny model

This project models the block-verification pipeline of `websocket.py`, a
conformance oracle for an Ethereum beacon node. The node announces each block
it imported or rejected on a websocket. For each announcement the oracle does
four things:

1. It decodes the block.
2. It fetches the parent block by the block's `parent_root`.
3. It fetches the parent's post-state by the parent's `state_root`.
4. It runs the reference `state_transition` on that state and compares the
   result with the node's decision.

The outcome is "Confirmed", one of two warnings, or "Failed to load block/state".

The collaborators `websocket.py` calls but does not define are parameters,
so every property holds for all of their behaviours:

- the HTTP client, the eth2spec `decode` and the reference `state_transition`
  are the fields of a `Verifier.Services` value;
- `json.loads` on a message is the `Dispatcher.Parser` argument.

In the receive loop, each received message comes with its own `Services`
value (`Listener.Arrival`). The beacon node keeps importing blocks, so a parent
that is missing while one message is handled may be found for a later one.

`process_block` is a function that returns the verdict together with the
trace of the calls it made. That trace is what lets the model state "the state
fetch is never made" and "the transition is never run".

Files:

- `wrappers.dfy`: `Option` and `Result`.
- `query_key.dfy`: hex query keys and request URLs, with the hex round trip.
- `verifier.dfy`: `get_block`, `get_state` and `process_block` with its decision table.
- `dispatcher.dfy`: `message_handler`, which routes events.
- `listener.dfy`: the receive loop of `websocket_handler`, as a function and as a `while` loop proved equal to it.

Behaviour of `websocket.py` that the model keeps:

- These exceptions are not caught and end the receive loop: a candidate block
  that does not decode, a 200 reply that does not decode, a transport error,
  malformed JSON, and a missing `"event"`, `"data"` or `"block"` key. In the
  model they are `Verdict.Aborted` or `Dispatch.Threw`, and the loop stops
  with `Stop.HandlerRaised`.
- The state request is `root=0x0x<hex>` (websocket.py:35). The format string
  adds a second "0x" in front of a key that already has one.
  `QueryKey.StateUrl` states that this query value is not a well-formed key,
  and that the root is only recovered after one more "0x" is dropped.
- Each `message_handler` call is awaited before the next `recv()`, so
  messages are handled one after the other.
- The stream ends with a `recv()` that raises (the websockets client raises
  once the connection is closed). This ends the loop; the model records it
  as `Stop.StreamClosed`.

## Model

| member | source | states |
|---|---|---|
| QueryKey.Hex | websocket.py:19 | `root.hex()` has two characters per byte, and each is a lower-case hex digit |
| QueryKey.UnhexHex | websocket.py:19 | decoding the hex of any root gives that root back |
| QueryKey.HexUnhex | websocket.py:19 | every text that decodes as hex is the hex of what it decodes to |
| QueryKey.Key | websocket.py:19 | the query key starts with "0x", is followed by hex digits only, and has length 2 + 2·len(root) |
| QueryKey.KeyRoundTrip | websocket.py:19 | reading the root back from a key gives the root |
| QueryKey.KeyInjective | websocket.py:19 | two roots have the same key exactly when they are equal |
| QueryKey.DoubledPrefixIsNoKey | websocket.py:35 | "0x" put in front of a key gives a text that is not the key of any root |
| QueryKey.BlockUrl | websocket.py:14-21 | the block request is the fixed block path on localhost:5052 followed by the key, and its query value names exactly the requested root |
| QueryKey.StateUrl | websocket.py:33-35 | the state request's query value starts with an extra "0x"; it is not a key of any root; after dropping that "0x" it names exactly the requested root |
| QueryKey.BlockUrlInjective | websocket.py:21 | block requests for different roots go to different URLs |
| QueryKey.StateUrlInjective | websocket.py:35 | state requests for different roots go to different URLs |
| QueryKey.BlockAndStateUrlsDiffer | websocket.py:21-35 | a block request is never the same URL as a state request |
| Verifier.FetchReply | websocket.py:24-28 | a fetch returns a decoded object only on status 200 and returns nothing on any other status; a transport or decode exception is not caught |
| Verifier.GetBlock | websocket.py:18-28 | `get_block` requests the block URL of the root once. It returns the decoded block exactly when that URL answered 200 and the reply decodes. It returns None exactly when the URL answered another status. A reply that answered 200 but does not decode raises the decoder's exception, and a transport exception is not caught |
| Verifier.GetState | websocket.py:32-42 | `get_state` requests the (doubly prefixed) state URL of the root once. It returns the decoded state exactly when that URL answered 200 and the reply decodes. It returns None exactly when the URL answered another status. A reply that answered 200 but does not decode raises the decoder's exception, and a transport exception is not caught |
| Verifier.Reconcile | websocket.py:59-71 | the verdict is Confirmed exactly when (transition succeeded) == (not should_fail); a false accept, carrying the exception, exactly when it raised and should_fail is false; a false reject exactly when it succeeded and should_fail is true |
| Verifier.ProcessBlock | websocket.py:49-75 | an undecodable candidate raises before any call. Otherwise the parent is requested first, by the candidate's parent root. If it is missing, nothing else is called and the verdict is "failed to load block". The state is then requested by the parent's state root. If it is missing, the transition is never run and the verdict is "failed to load state". Uncaught exceptions abort. The verdict compares decisions exactly when the transition ran on (parent's state, candidate), and then it is the decision table's |
| Verifier.CallsIgnoreFlag | websocket.py:53-60 | the requests and the transition call are the same whichever decision the node announced |
| Verifier.InconclusiveIgnoresFlag | websocket.py:53-58 | when a dependency could not be loaded or an exception aborted, the outcome does not depend on should_fail |
| Verifier.FlagDecidesAgreement | websocket.py:59-71 | when the transition ran, reversing should_fail turns Confirmed into a warning and a warning into Confirmed |
| Verifier.ParentFetchedByParentRoot | websocket.py:53 | the first request is for the candidate's parent root, and not for the candidate's state root when the two differ |
| Verifier.PreStateFetchedByParentStateRoot | websocket.py:56 | the state request is for the parent's state root, and not for the candidate's own state root when the two differ |
| Dispatcher.Route | websocket.py:82-85 | "beacon_block_imported" gives should_fail = false, "beacon_block_rejected" gives should_fail = true, and every other event is ignored |
| Dispatcher.MessageHandler | websocket.py:79-85 | malformed JSON or a missing "event" raises. Any other event makes no call. The two block events call `process_block` on the message's block with the flag of `Route`, or raise KeyError when "data" or "block" is missing |
| Dispatcher.Escape | websocket.py:51-85 | an exception leaves `message_handler` exactly when the handler raised before reaching `process_block` (malformed JSON or a missing key), or when `process_block` aborted on an exception it does not catch (candidate decode, fetch transport or reply decode) |
| Dispatcher.UnknownEventIsQuiet | websocket.py:82-85 | a message with an unknown event is ignored and raises nothing |
| Listener.Listen | websocket.py:93-96 | the `while msg:` loop over the received messages dispatches at most one entry per message received. What each entry is, and why the loop stops, is stated by `Listener.ListenDispatchesInOrder` and `Listener.ListenStopsRightly` |
| Listener.ListenDispatchesInOrder | websocket.py:93-96 | messages are dispatched one at a time in receipt order: the i-th dispatch is `message_handler` on the i-th message received, and that message is non-empty |
| Listener.ListenStopsRightly | websocket.py:93-96 | the loop stops right after a message whose handling raised, carrying that exception. Otherwise it stops at the first empty message without dispatching it, or when the stream has no message left. Nothing after a raising message is dispatched |
| Listener.QuietPrefixDoesNotHalt | websocket.py:94-96 | messages that are non-empty and do not raise (ignored events among them) never halt the loop: what follows is handled as if they had not come |
| Listener.ReceiveLoop | websocket.py:90-96 | the `while msg:` loop produces exactly the dispatch log and the stop reason of `Listener.Listen` |

## Left out

- HTTP and WebSocket transport (`requests_async`, `websockets.connect`). A request is the `Services.http` field, which maps a URL to a reply or a transport exception. The messages the socket delivers are the `inbox` sequence of `Listener.Arrival` values. A failure to connect (websocket.py:92) is not modelled.
- `spec.state_transition`, `decode` and the eth2spec types are external code. They are the `Services` fields `transition`, `decodeBlock`, `blockReply` and `stateReply`. A block keeps only its two roots and an opaque body; a state is opaque.
- `json.loads` is the `Parser` argument. A non-string "event" value and a "data" value that is not a dictionary (Python raises TypeError on the lookup) are left to the parser's result: it reports them as an exception, or as an event that matches neither block event.
- Preset loading at import time (websocket.py:11-12) is one-time configuration and is not modelled.
- `asyncio` scheduling is not modelled. Each `await` finishes before the next statement, so the pipeline is sequential.
- The printed text is not modelled. Outcomes are `Verdict` constructors; the exception text kept for a false accept is `FalseAccept.detail`.
- `except Exception` catches every exception except `BaseException` subclasses such as `KeyboardInterrupt`. The model treats every failure of the transition as caught.
- Listener.ReceiveLoop: an endless stream is not modelled. The model covers any finite run of messages followed by the closing of the stream.
- The websocket URI "ws://localhost:5053" (websocket.py:91) is used only for connecting, so it is not modelled.
