/** One asynchronous call of a one-way stream: the shared base class (src/rpcClientCallData.cpp) and the
    machine that the six one-way streams have in common
    (src/rpcOpenTrackingDeviceDataStreamClientCallData.cpp and its siblings). */
module ClientCallData {
  import opened SdkTypes

  /** A call between two completions. read collects the messages of successful reads, handled those
      passed to the handler, and cancelledAt how many had been read when CancelCall first came. */
  datatype Call<M> = Call(status: ClientCallState, listenerActive: bool, hasHandler: bool,
                          read: seq<M>, handled: seq<M>, cancelledAt: Option<nat>)

  /** The constructor starts the call with one READ-tagged operation. */
  function Opened<M>(hasHandler: bool): Call<M> {
    Call(Connecting, hasHandler, hasHandler, [], [], None)
  }

  function Stopped<M>(c: Call<M>): Call<M> {
    c.(status := Finish)
  }

  function Cancelled<M>(c: Call<M>): Call<M> {
    c.(listenerActive := false, cancelledAt := if c.cancelledAt.None? then Some(|c.read|) else c.cancelledAt)
  }

  /** Proceed keeps the call, and then starts exactly one read, unless it is finished. */
  predicate Keeps<M>(c: Call<M>) {
    c.status.Connecting? || c.status.Processing?
  }

  function Proceeded<M>(c: Call<M>, response: M): Call<M> {
    match c.status
    case Connecting => c.(status := Processing)
    case Processing =>
      c.(read := c.read + [response],
         handled := if c.listenerActive && c.hasHandler then c.handled + [response] else c.handled)
    case _ => c
  }

  /** What holds of every call that is alive between completions. */
  ghost predicate CallOk<M>(c: Call<M>) {
    && Keeps(c)
    && (c.status.Connecting? ==> c.read == [])
    && HandledPrefix(c)
  }

  /** The handler has seen exactly the messages read before the cancellation, in order and without repeats. */
  ghost predicate HandledPrefix<M>(c: Call<M>) {
    && (c.listenerActive <==> c.hasHandler && c.cancelledAt.None?)
    && (c.cancelledAt.Some? ==> c.cancelledAt.value <= |c.read|)
    && c.handled ==
         if !c.hasHandler then []
         else if c.cancelledAt.Some? && c.cancelledAt.value <= |c.read| then c.read[..c.cancelledAt.value]
         else c.read
  }

  lemma OpenedOk<M>(hasHandler: bool)
    ensures CallOk(Opened<M>(hasHandler))
  {}

  lemma CancelledOk<M>(c: Call<M>)
    requires CallOk(c)
    ensures CallOk(Cancelled(c))
  {
    assert c.read[..|c.read|] == c.read;
  }

  lemma ProceededOk<M>(c: Call<M>, response: M)
    requires CallOk(c)
    ensures CallOk(Proceeded(c, response))
  {
    if c.cancelledAt.Some? {
      assert (c.read + [response])[..c.cancelledAt.value] == c.read[..c.cancelledAt.value];
    }
  }

  /** The call object itself. The operations it starts on the completion queue are listed in started. */
  class OneWayCallData<M(0)> {
    var status: ClientCallState
    var listenerActive: bool
    const hasHandler: bool
    /** Where the object lives; the tags of its operations carry this address. */
    const address: nat
    /** Tells apart objects that live at one address one after another. */
    ghost const serial: nat
    var response: M

    ghost var read: seq<M>
    ghost var handled: seq<M>
    ghost var cancelledAt: Option<nat>
    ghost var started: seq<OperationType>

    ghost function State(): Call<M>
      reads this
    {
      Call(status, listenerActive, hasHandler, read, handled, cancelledAt)
    }

    constructor (address: nat, ghost serial: nat, hasHandler: bool)
      ensures State() == Opened(hasHandler) && this.address == address && this.serial == serial
      ensures started == [ReadOp]
    {
      status := Connecting;
      this.address := address;
      this.serial := serial;
      this.hasHandler := hasHandler;
      listenerActive := false;
      read, handled, cancelledAt := [], [], None;
      started := [ReadOp];
      new;
      if hasHandler {
        listenerActive := true;
      }
    }

    method Stop()
      modifies this`status
      ensures State() == Stopped(old(State()))
    {
      status := Finish;
    }

    method CancelCall()
      modifies this`listenerActive, this`cancelledAt
      ensures State() == Cancelled(old(State()))
    {
      listenerActive := false;
      if cancelledAt.None? {
        cancelledAt := Some(|read|);
      }
    }

    /** The queue has put the completed read's message into response before it calls this. */
    method Proceed() returns (keep: bool)
      requires !status.Waiting?
      modifies this`status, this`read, this`handled, this`started
      ensures keep == Keeps(old(State()))
      ensures State() == Proceeded(old(State()), response)
      ensures started == if keep then old(started) + [ReadOp] else old(started)
    {
      if status.Connecting? {
        started := started + [ReadOp];
        status := Processing;
        return true;
      } else if status.Processing? {
        read := read + [response];
        if listenerActive && hasHandler {
          handled := handled + [response];
        }
        started := started + [ReadOp];
        return true;
      } else {
        assert status.Finish?;
        return false;
      }
    }

    /** What one iteration of the queue loop does with the call. */
    method Deliver(ok: bool, message: M) returns (keep: bool)
      requires !status.Waiting?
      modifies this
      ensures var call := if ok then old(State()) else Stopped(old(State()));
              keep == Keeps(call) && State() == Proceeded(call, message)
    {
      if ok {
        response := message;
      } else {
        Stop();
      }
      keep := Proceed();
    }
  }
}
