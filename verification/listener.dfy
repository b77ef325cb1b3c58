/**
 * The stream listener, `websocket_handler`: receives one message at a time and
 * hands each to `message_handler` in receipt order, stopping at the first empty
 * message. The messages the socket delivers are a sequence; a `recv()` after
 * the last of them raises, as the websockets client does once the connection
 * is closed.
 */
module Listener {
  import opened Wrappers
  import opened Verifier
  import opened Dispatcher

  /**
   * One message as `recv()` returned it, together with how the beacon node and
   * the other collaborators answer while that message is handled: the node
   * keeps importing blocks, so a parent missing for one message may be found
   * for a later one.
   */
  datatype Arrival = Arrival(msg: string, node: Services)

  /** Why the receive loop ended. */
  datatype Stop =
    | EmptyMessage                 // `while msg:` saw an empty message
    | HandlerRaised(fault: Fault)  // an exception left `message_handler`
    | StreamClosed                 // `recv()` raised because no message was left

  /** The messages dispatched, in receipt order, and why the loop ended. */
  datatype Session = Session(log: seq<Dispatch>, stop: Stop)

  function Prepend(handled: seq<Dispatch>, rest: Session): Session {
    Session(handled + rest.log, rest.stop)
  }

  /** `message_handler` on one arrival, against the node as it was then. */
  function Handle(parse: Parser, a: Arrival): Dispatch {
    MessageHandler(a.node, parse, a.msg)
  }

  /** The receive loop over the messages the socket will deliver. */
  function Listen(parse: Parser, inbox: seq<Arrival>): (r: Session)
    ensures |r.log| <= |inbox|
    decreases |inbox|
  {
    if inbox == [] then Session([], StreamClosed)
    else if inbox[0].msg == "" then Session([], EmptyMessage)
    else
      var d := Handle(parse, inbox[0]);
      match Escape(d)
      case Some(e) => Session([d], HandlerRaised(e))
      case None => Prepend([d], Listen(parse, inbox[1..]))
  }

  /** Every entry of the log is `message_handler` on the non-empty message received at that position. */
  predicate InReceiptOrder(parse: Parser, inbox: seq<Arrival>, r: Session) {
    && |r.log| <= |inbox|
    && forall i :: 0 <= i < |r.log| ==> inbox[i].msg != "" && r.log[i] == Handle(parse, inbox[i])
  }

  /**
   * The loop dispatches messages one at a time in receipt order: every message
   * it dispatched is non-empty, and is the message received at that position.
   */
  lemma {:induction false} ListenDispatchesInOrder(parse: Parser, inbox: seq<Arrival>)
    ensures InReceiptOrder(parse, inbox, Listen(parse, inbox))
    decreases |inbox|
  {
    if inbox != [] && inbox[0].msg != "" && Escape(Handle(parse, inbox[0])).None? {
      ListenDispatchesInOrder(parse, inbox[1..]);
      var rest := Listen(parse, inbox[1..]);
      var r := Listen(parse, inbox);
      assert r.log == [Handle(parse, inbox[0])] + rest.log;
      forall i | 1 <= i < |r.log|
        ensures inbox[i] == inbox[1..][i - 1] && r.log[i] == rest.log[i - 1]
      {
      }
    }
  }

  /** Why the loop stopped: a dispatched message raised, an empty message came, or the stream ran out. */
  predicate StoppedRightly(inbox: seq<Arrival>, r: Session) {
    && |r.log| <= |inbox|
    // only the last dispatched message can have raised, and then it ended the loop
    && (forall i :: 0 <= i < |r.log| - 1 ==> Escape(r.log[i]).None?)
    && (r.stop.HandlerRaised? <==> |r.log| > 0 && Escape(r.log[|r.log| - 1]).Some?)
    && (r.stop.HandlerRaised? ==> Escape(r.log[|r.log| - 1]) == Some(r.stop.fault))
    // the first empty message ends the loop and is not dispatched
    && (r.stop == EmptyMessage ==> |r.log| < |inbox| && inbox[|r.log|].msg == "")
    // the stream ran out only after every message was dispatched
    && (r.stop == StreamClosed ==> |r.log| == |inbox|)
  }

  /**
   * The loop stops right after a message whose handling raised, at the first
   * empty message without dispatching it, or when no message is left.
   */
  lemma {:induction false} ListenStopsRightly(parse: Parser, inbox: seq<Arrival>)
    ensures StoppedRightly(inbox, Listen(parse, inbox))
    decreases |inbox|
  {
    if inbox != [] && inbox[0].msg != "" && Escape(Handle(parse, inbox[0])).None? {
      ListenStopsRightly(parse, inbox[1..]);
      var rest := Listen(parse, inbox[1..]);
      var r := Listen(parse, inbox);
      assert r.log == [Handle(parse, inbox[0])] + rest.log;
      forall i | 1 <= i < |r.log|
        ensures r.log[i] == rest.log[i - 1]
      {
      }
      if r.stop == EmptyMessage {
        assert inbox[|r.log|] == inbox[1..][|rest.log|];
      }
    }
  }

  /**
   * Messages that are non-empty and do not raise (ignored events among them)
   * never halt the loop: what follows them is handled as if they had not come.
   */
  lemma {:induction false} QuietPrefixDoesNotHalt(parse: Parser, inbox: seq<Arrival>, n: nat)
    requires n <= |inbox|
    requires forall i :: 0 <= i < n ==> inbox[i].msg != "" && Escape(Handle(parse, inbox[i])).None?
    ensures n <= |Listen(parse, inbox).log|
    ensures Listen(parse, inbox).log[n..] == Listen(parse, inbox[n..]).log
    ensures Listen(parse, inbox).stop == Listen(parse, inbox[n..]).stop
    decreases n
  {
    if n > 0 {
      QuietPrefixDoesNotHalt(parse, inbox[1..], n - 1);
      assert inbox[1..][n - 1..] == inbox[n..];
    }
  }

  /** One turn of the loop: a non-empty message is dispatched, and the loop stops if it raised. */
  lemma ListenStep(parse: Parser, pending: seq<Arrival>)
    requires pending != [] && pending[0].msg != ""
    ensures var d := Handle(parse, pending[0]);
      Listen(parse, pending) ==
        if Escape(d).Some? then Session([d], HandlerRaised(Escape(d).value))
        else Prepend([d], Listen(parse, pending[1..]))
  {
  }

  /** `websocket_handler`'s loop: `msg = recv()`, then `while msg:` handle it and receive again. */
  method ReceiveLoop(parse: Parser, inbox: seq<Arrival>) returns (log: seq<Dispatch>, stop: Stop)
    ensures Session(log, stop) == Listen(parse, inbox)
  {
    log := [];
    if inbox == [] {
      return log, StreamClosed;
    }
    var arrival := inbox[0];
    var received := 1;
    while arrival.msg != ""
      invariant 1 <= received <= |inbox| && arrival == inbox[received - 1]
      invariant Listen(parse, inbox).log == log + Listen(parse, inbox[received - 1..]).log
      invariant Listen(parse, inbox).stop == Listen(parse, inbox[received - 1..]).stop
      decreases |inbox| - received
    {
      ghost var pending := inbox[received - 1..];
      var d := MessageHandler(arrival.node, parse, arrival.msg);
      ListenStep(parse, pending);
      var escaped := Escape(d);
      if escaped.Some? {
        log := log + [d];
        return log, HandlerRaised(escaped.value);
      }
      assert pending[1..] == inbox[received..];
      assert Listen(parse, pending).log == [d] + Listen(parse, inbox[received..]).log;
      log := log + [d];
      if received == |inbox| {
        return log, StreamClosed;
      }
      arrival := inbox[received];
      received := received + 1;
    }
    stop := EmptyMessage;
  }
}
