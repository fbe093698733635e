/**
 * The SIGINT handler of the speech-to-speech client driver
 * (riva_nmt_streaming_s2s_client.cc, `signal_handler`).
 *
 * The handler's state is its function-local static counter and the global
 * g_request_exit flag that microphone streaming polls. The first interrupt
 * asks for a graceful stop; any later one ends the process with status 1.
 * Each delivery is one sequential call; ending the process is reported as a
 * returned flag.
 */
module SignalHandling {

  /** The static `count` and the global `g_request_exit`. */
  datatype HandlerState = HandlerState(count: int, requestExit: bool)

  /** Both start zeroed: a static int is zero-initialised, g_request_exit is declared false. */
  const Initial := HandlerState(0, false)

  /** The state after one delivery, and whether that delivery ended the process. */
  datatype Delivery = Delivery(next: HandlerState, forceExit: bool)

  /** One call of the handler. */
  function OnSignal(s: HandlerState): (d: Delivery)
    ensures d.forceExit <==> s.count > 0
    ensures d.forceExit ==> d.next == s
    ensures !d.forceExit ==> d.next == HandlerState(s.count + 1, true)
  {
    if s.count > 0 then Delivery(s, true)
    else Delivery(HandlerState(s.count + 1, true), false)
  }

  /** The states the handler can be in between deliveries: the counter records whether a stop was requested. */
  predicate Consistent(s: HandlerState) {
    s.count == (if s.requestExit then 1 else 0)
  }

  /** What a run of interrupts leaves behind. */
  datatype Run = Run(final: HandlerState, delivered: nat, exited: bool)

  /**
   * Delivers `n` interrupts one after another starting in `s`. Once one of them
   * forces the exit the process is gone, so the rest are never delivered.
   */
  function Deliver(s: HandlerState, n: nat): (r: Run)
    ensures r.delivered <= n
    ensures !r.exited ==> r.delivered == n
    ensures r.exited ==> 1 <= r.delivered
    decreases n
  {
    if n == 0 then Run(s, 0, false)
    else
      var d := OnSignal(s);
      if d.forceExit then Run(d.next, 1, true)
      else
        var rest := Deliver(d.next, n - 1);
        Run(rest.final, rest.delivered + 1, rest.exited)
  }

  /** One delivery keeps the handler's state consistent. */
  lemma OnSignalConsistent(s: HandlerState)
    requires Consistent(s)
    ensures Consistent(OnSignal(s).next)
    ensures OnSignal(s).forceExit <==> s.requestExit
  {
  }

  /** Any run of interrupts keeps the handler's state consistent. */
  lemma {:induction false} DeliverConsistent(s: HandlerState, n: nat)
    requires Consistent(s)
    ensures Consistent(Deliver(s, n).final)
    decreases n
  {
    if n > 0 && !OnSignal(s).forceExit {
      DeliverConsistent(OnSignal(s).next, n - 1);
    }
  }

  /** g_request_exit never goes back to false. */
  lemma {:induction false} RequestExitSticky(s: HandlerState, n: nat)
    requires s.requestExit
    ensures Deliver(s, n).final.requestExit
    decreases n
  {
    if n > 0 && !OnSignal(s).forceExit {
      RequestExitSticky(OnSignal(s).next, n - 1);
    }
  }

  /**
   * From a consistent state, at most one interrupt is handled gracefully: a run
   * of `n` interrupts exits exactly when more of them arrive than the one
   * graceful stop still available.
   */
  lemma {:induction false} AtMostOneGraceful(s: HandlerState, n: nat)
    requires Consistent(s)
    ensures var r := Deliver(s, n);
            r.exited <==> n >= (if s.requestExit then 1 else 2)
    ensures var r := Deliver(s, n);
            r.exited ==> r.delivered == (if s.requestExit then 1 else 2)
    ensures n >= 1 ==> Deliver(s, n).final == HandlerState(1, true)
    decreases n
  {
    if n > 0 && !OnSignal(s).forceExit {
      AtMostOneGraceful(OnSignal(s).next, n - 1);
    }
  }

  /**
   * From the start of the program: no interrupt changes nothing, the first
   * requests a stop without exiting, and the second forces the exit.
   */
  lemma ProgramRun(n: nat)
    ensures Deliver(Initial, n) ==
            if n == 0 then Run(Initial, 0, false)
            else if n == 1 then Run(HandlerState(1, true), 1, false)
            else Run(HandlerState(1, true), 2, true)
  {
    AtMostOneGraceful(Initial, n);
  }

  /** The handler with its two pieces of state as fields. */
  class SignalHandler {
    var count: int
    var requestExit: bool

    function State(): HandlerState
      reads this
    {
      HandlerState(count, requestExit)
    }

    ghost predicate Valid()
      reads this
    {
      Consistent(State())
    }

    constructor ()
      ensures Valid() && State() == Initial
    {
      count := 0;
      requestExit := false;
    }

    /** Handles one interrupt; `forceExit` means the handler called exit(1). */
    method Signal() returns (forceExit: bool)
      modifies this
      ensures old(Valid()) ==> Valid()
      ensures Delivery(State(), forceExit) == OnSignal(old(State()))
      ensures forceExit <==> old(count) > 0
      ensures old(Valid()) ==> (forceExit <==> old(requestExit))
      ensures forceExit ==> count == old(count) && requestExit == old(requestExit)
      ensures !forceExit ==> requestExit && count == old(count) + 1
      ensures old(requestExit) ==> requestExit
    {
      if count > 0 {
        return true;
      }
      requestExit := true;
      count := count + 1;
      forceExit := false;
    }
  }

  /** Two interrupts on a fresh handler: the first stops gracefully, the second forces the exit. */
  method TwoInterrupts() returns (first: bool, second: bool)
    ensures !first && second
  {
    var h := new SignalHandler();
    first := h.Signal();
    second := h.Signal();
  }
}
