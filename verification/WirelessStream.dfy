/** The bidirectional wireless management stream (src/rpc_wireless_management_stream_client_call_data.cpp): reads and
    writes are outstanding side by side, and both carry the one call object. */
module WirelessStream {
  import opened SdkTypes

  /** readsOut and writesOut count the outstanding operations per tag. connecting says that the outstanding READ tag is
      the one that StartCall was given. response is None until a read has filled it; handled lists what the handler was
      given. cutAt is how many messages had been read when the listener was first switched off or the object deleted. */
  datatype Stream<M> = Stream(
    status: ClientCallState, listenerActive: bool, hasHandler: bool, response: Option<M>, handled: seq<Option<M>>,
    readsOut: nat, writesOut: nat, connecting: bool, received: seq<M>, cutAt: Option<nat>, alive: bool, fault: bool)

  datatype Action<M> =
    | Send
    | Cancel
    | CompleteRead(ok: bool, message: M)
    | CompleteWrite(ok: bool)

  function Opened<M>(hasHandler: bool): Stream<M> {
    Stream(Connecting, hasHandler, hasHandler, None, [], 1, 0, true, [], None, true, false)
  }

  /** SendWirelessManagementRequest accepts a request unless a write is already out or the stream is finished. */
  predicate Accepts<M>(s: Stream<M>) {
    s.status.Connecting? || s.status.Waiting?
  }

  function Sent<M>(s: Stream<M>): Stream<M> {
    if Accepts(s) then s.(status := Processing, writesOut := s.writesOut + 1) else s
  }

  function Notified<M>(s: Stream<M>): seq<Option<M>> {
    if s.hasHandler && s.listenerActive then s.handled + [s.response] else s.handled
  }

  function Cut<M>(s: Stream<M>): Stream<M> {
    if s.cutAt.Some? then s else s.(cutAt := Some(|s.received|))
  }

  /** CancelCall. */
  function Silenced<M>(s: Stream<M>): Stream<M> {
    Cut(s).(listenerActive := false)
  }

  predicate Keeps<M>(s: Stream<M>) {
    !s.status.Finish?
  }

  /** Proceed, by status and operation. */
  function Proceeded<M>(s: Stream<M>, op: OperationType): Stream<M> {
    match s.status
    case Connecting => s.(status := Waiting, readsOut := s.readsOut + 1)
    case Waiting => if op.ReadOp? then s.(handled := Notified(s), readsOut := s.readsOut + 1) else s
    case Processing =>
      if op.ReadOp? then s.(handled := Notified(s), readsOut := s.readsOut + 1)
      else if op.WriteOp? then s.(status := Waiting)
      else s
    case Finish => s
  }

  /** One turn of the queue loop for this object. */
  function Delivered<M>(s: Stream<M>, op: OperationType, ok: bool): Stream<M> {
    if !s.alive then s.(fault := true) else
    var t := if ok then s else s.(status := Finish);
    if Keeps(t) then Proceeded(t, op) else Cut(t).(alive := false)
  }

  /** gRPC takes the operation off its books and, for a read, stores the message. */
  function TakenRead<M>(s: Stream<M>, ok: bool, message: M): Stream<M>
    requires s.readsOut > 0
  {
    if s.connecting then s.(readsOut := s.readsOut - 1, connecting := false)
    else if ok then s.(readsOut := s.readsOut - 1, response := Some(message), received := s.received + [message])
    else s.(readsOut := s.readsOut - 1)
  }

  /** Actions that cannot happen in a state change nothing: requests and cancels go to live objects only, and
      only outstanding operations complete. */
  function Step<M>(s: Stream<M>, a: Action<M>): Stream<M> {
    match a
    case Send => if s.alive then Sent(s) else s
    case Cancel => if s.alive then Silenced(s) else s
    case CompleteRead(ok, message) => if s.readsOut > 0 then Delivered(TakenRead(s, ok, message), ReadOp, ok) else s
    case CompleteWrite(ok) => if s.writesOut > 0 then Delivered(s.(writesOut := s.writesOut - 1), WriteOp, ok) else s
  }

  function Run<M>(s: Stream<M>, actions: seq<Action<M>>): Stream<M>
    decreases |actions|
  {
    if actions == [] then s else Run(Step(s, actions[0]), actions[1..])
  }

  /** While the object lives exactly one READ tag is out, and a write is out exactly while the status is PROCESSING. */
  ghost predicate Inv<M>(s: Stream<M>) {
    && (s.alive ==>
          && !s.status.Finish? && s.readsOut == 1 && !s.fault
          && s.writesOut == (if s.status.Processing? then 1 else 0))
    && (s.alive && s.status.Connecting? ==> s.connecting)
    && (!s.alive ==> s.readsOut + s.writesOut <= 1)
    && (s.connecting ==> s.response.None? && s.received == [])
    && (s.fault ==> !s.alive)
  }

  lemma ReadKeepsInv<M>(s: Stream<M>, ok: bool, message: M)
    requires Inv(s) && s.readsOut > 0
    ensures Inv(Delivered(TakenRead(s, ok, message), ReadOp, ok))
  {}

  lemma WriteKeepsInv<M>(s: Stream<M>, ok: bool)
    requires Inv(s) && s.writesOut > 0
    ensures Inv(Delivered(s.(writesOut := s.writesOut - 1), WriteOp, ok))
  {}

  lemma StepKeepsInv<M>(s: Stream<M>, a: Action<M>)
    requires Inv(s)
    ensures Inv(Step(s, a))
  {
    match a
    case Send =>
    case Cancel =>
    case CompleteRead(ok, message) =>
      if s.readsOut > 0 {
        ReadKeepsInv(s, ok, message);
      }
    case CompleteWrite(ok) =>
      if s.writesOut > 0 {
        WriteKeepsInv(s, ok);
      }
  }

  lemma {:induction false} RunKeepsInv<M>(s: Stream<M>, actions: seq<Action<M>>)
    requires Inv(s)
    ensures Inv(Run(s, actions))
    decreases |actions|
  {
    if actions != [] {
      StepKeepsInv(s, actions[0]);
      RunKeepsInv(Step(s, actions[0]), actions[1..]);
    }
  }

  /** Deletion comes only with a failed completion, and leaves nothing outstanding exactly when the failure
      arrived in CONNECTING or WAITING; in PROCESSING one operation of the deleted object stays out. */
  lemma DeletionLeaves<M>(s: Stream<M>, a: Action<M>)
    requires Inv(s) && s.alive && !Step(s, a).alive
    ensures (a.CompleteRead? && !a.ok) || (a.CompleteWrite? && !a.ok)
    ensures Step(s, a).readsOut + Step(s, a).writesOut == if s.status.Processing? then 1 else 0
    ensures a.CompleteRead? ==> Step(s, a).writesOut == if s.status.Processing? then 1 else 0
    ensures a.CompleteWrite? ==> Step(s, a).readsOut == 1
  {}

  /** No failed completion arrives while a write is out. */
  predicate NoFailureWhileWriting<M>(s: Stream<M>, actions: seq<Action<M>>)
    decreases |actions|
  {
    actions == [] ||
    (var a := actions[0];
     && (s.alive && s.status.Processing? ==> !(a.CompleteRead? && !a.ok) && !(a.CompleteWrite? && !a.ok))
     && NoFailureWhileWriting(Step(s, a), actions[1..]))
  }

  /** Every tag that is still out can complete after the run. */
  function Drained<M>(s: Stream<M>, message: M): Stream<M> {
    Step(Step(s, CompleteRead(false, message)), CompleteWrite(false))
  }

  /** A tag has met the deleted object, or is still out and can. */
  predicate Dangling<M>(s: Stream<M>) {
    s.fault || (!s.alive && s.readsOut + s.writesOut > 0)
  }

  lemma DeadStays<M>(s: Stream<M>, a: Action<M>)
    requires Inv(s) && !s.alive
    ensures !Step(s, a).alive && (Dangling(Step(s, a)) <==> Dangling(s))
  {}

  lemma {:induction false} DeadRun<M>(s: Stream<M>, actions: seq<Action<M>>)
    requires Inv(s) && !s.alive
    ensures NoFailureWhileWriting(s, actions) && (Dangling(Run(s, actions)) <==> Dangling(s))
    decreases |actions|
  {
    if actions != [] {
      StepKeepsInv(s, actions[0]);
      DeadStays(s, actions[0]);
      DeadRun(Step(s, actions[0]), actions[1..]);
    }
  }

  /** One step of a live object leaves a tag behind exactly when it is a failure while a write is out. */
  lemma DanglingStep<M>(s: Stream<M>, a: Action<M>)
    requires Inv(s) && s.alive
    ensures Dangling(Step(s, a)) <==> s.status.Processing? && (a.CompleteRead? || a.CompleteWrite?) && !a.ok
    ensures Dangling(Step(s, a)) ==> !Step(s, a).alive
  {}

  /** Main result on deletion: over any run of an object without such a tag, one is left, or has met the deleted object,
      exactly when a failure arrived while a write was out. */
  lemma {:induction false} DanglingIffFailureWhileWriting<M>(s: Stream<M>, actions: seq<Action<M>>)
    requires Inv(s) && !Dangling(s)
    ensures Dangling(Run(s, actions)) <==> !NoFailureWhileWriting(s, actions)
    decreases |actions|
  {
    if !s.alive {
      DeadRun(s, actions);
    } else if actions != [] {
      var a := actions[0];
      StepKeepsInv(s, a);
      DanglingStep(s, a);
      if Dangling(Step(s, a)) {
        DeadRun(Step(s, a), actions[1..]);
      } else {
        DanglingIffFailureWhileWriting(Step(s, a), actions[1..]);
      }
    }
  }

  /** The tag that such a failure leaves behind meets the deleted object when it completes. */
  lemma FailureWhileWritingFaults<M>(s: Stream<M>, a: Action<M>, message: M)
    requires Inv(s) && s.alive && s.status.Processing?
    requires (a.CompleteRead? && !a.ok) || (a.CompleteWrite? && !a.ok)
    ensures !Step(s, a).alive && !Step(s, a).fault
    ensures Drained(Step(s, a), message).fault
  {}

  /** Such a run exists from the very start: connect, send, fail the read, then complete the write. */
  lemma FaultIsReachable<M>(message: M)
    ensures Run(Opened(true),
                [CompleteRead(true, message), Send, CompleteRead(false, message), CompleteWrite(true)]).fault
  {
    var s := Opened<M>(true);
    var s1 := Step(s, CompleteRead(true, message));
    var s2 := Step(s1, Send);
    var s3 := Step(s2, CompleteRead(false, message));
    var s4 := Step(s3, CompleteWrite(true));
    var last: seq<Action<M>> := [CompleteWrite(true)];
    RunFirst(s3, CompleteWrite(true), []);
    RunFirst(s2, CompleteRead(false, message), last);
    RunFirst(s1, Send, [CompleteRead(false, message)] + last);
    RunFirst(s, CompleteRead(true, message), [Send] + ([CompleteRead(false, message)] + last));
    assert [CompleteRead(true, message)] + ([Send] + ([CompleteRead(false, message)] + last)) ==
           [CompleteRead(true, message), Send, CompleteRead(false, message), CompleteWrite(true)];
    assert last + [] == last && s4.fault;
  }

  lemma RunFirst<M>(s: Stream<M>, a: Action<M>, rest: seq<Action<M>>)
    ensures Run(s, [a] + rest) == Run(Step(s, a), rest)
  {
    assert ([a] + rest)[1..] == rest;
  }

  /** What the handler was given is, in order and without repeats, exactly what was read before the listener was
      switched off or the object deleted, after one extra call without a message when a request was sent before the
      connection completed. */
  ghost predicate Heard<M>(s: Stream<M>, early: bool) {
    var front: seq<Option<M>> := if early then [None] else [];
    && (s.connecting ==> s.handled == [] && !early)
    && (s.cutAt.Some? ==> s.cutAt.value <= |s.received|)
    && (s.cutAt.None? <==> s.alive && s.listenerActive)
    && s.handled == front + Wrapped(s.received[..HeardUpTo(s)])
  }

  /** The messages before the cut, or all. */
  function HeardUpTo<M>(s: Stream<M>): nat {
    if s.cutAt.Some? && s.cutAt.value <= |s.received| then s.cutAt.value else |s.received|
  }

  function Wrapped<M>(messages: seq<M>): (wrapped: seq<Option<M>>)
    ensures |wrapped| == |messages|
    ensures forall i :: 0 <= i < |messages| ==> wrapped[i] == Some(messages[i])
  {
    seq(|messages|, i requires 0 <= i < |messages| => Some(messages[i]))
  }

  /** The connection completes after a request was already sent, with the handler listening. */
  predicate EmptyCallback<M>(s: Stream<M>, a: Action<M>) {
    && a.CompleteRead? && a.ok && s.readsOut > 0 && s.alive && s.connecting && !s.status.Connecting?
    && s.hasHandler && s.listenerActive
  }

  lemma ReadHeard<M>(s: Stream<M>, message: M, early: bool)
    requires Inv(s) && s.hasHandler && Heard(s, early) && s.readsOut > 0 && !s.connecting
    ensures Heard(Step(s, CompleteRead(true, message)), early)
  {
    var t := Step(s, CompleteRead(true, message));
    var k := HeardUpTo(s);
    if s.cutAt.None? {
      assert s.received[..k] == s.received && t.received[..k + 1] == t.received;
      assert Wrapped(t.received) == Wrapped(s.received) + [Some(message)];
    } else {
      assert t.received[..k] == s.received[..k];
    }
  }

  /** A cut at the end of what has been read: everything read so far was heard. */
  lemma CutHeard<M>(s: Stream<M>, early: bool)
    requires Heard(s, early)
    ensures Cut(s).cutAt.Some? && Cut(s).cutAt.value <= |s.received| && Cut(s).handled == s.handled
    ensures s.received[..HeardUpTo(Cut(s))] == s.received[..HeardUpTo(s)]
  {}

  /** A read that fails, or the one that only says that the call is connected. */
  lemma OtherReadHeard<M>(s: Stream<M>, ok: bool, message: M, early: bool)
    requires Inv(s) && s.hasHandler && Heard(s, early) && s.readsOut > 0 && (!ok || s.connecting)
    ensures Heard(Step(s, CompleteRead(ok, message)), early || EmptyCallback(s, CompleteRead(ok, message)))
  {
    CutHeard(s, early);
  }

  lemma WriteHeard<M>(s: Stream<M>, ok: bool, early: bool)
    requires Inv(s) && s.hasHandler && Heard(s, early)
    ensures Heard(Step(s, CompleteWrite(ok)), early)
  {
    CutHeard(s, early);
  }

  lemma ClientHeard<M>(s: Stream<M>, early: bool)
    requires Heard(s, early)
    ensures Heard(Step(s, Send), early) && Heard(Step(s, Cancel), early)
  {
    CutHeard(s, early);
  }

  lemma DeliveryKeepsHandler<M>(s: Stream<M>, op: OperationType, ok: bool)
    ensures Delivered(s, op, ok).hasHandler == s.hasHandler
  {}

  lemma HandlerStays<M>(s: Stream<M>, a: Action<M>)
    ensures Step(s, a).hasHandler == s.hasHandler
  {
    match a
    case Send =>
    case Cancel =>
    case CompleteRead(ok, message) =>
      if s.readsOut > 0 {
        DeliveryKeepsHandler(TakenRead(s, ok, message), ReadOp, ok);
      }
    case CompleteWrite(ok) =>
      if s.writesOut > 0 {
        DeliveryKeepsHandler(s.(writesOut := s.writesOut - 1), WriteOp, ok);
      }
  }

  lemma StepHeard<M>(s: Stream<M>, a: Action<M>, early: bool)
    requires Inv(s) && s.hasHandler && Heard(s, early)
    ensures Step(s, a).hasHandler && Heard(Step(s, a), early || EmptyCallback(s, a))
  {
    HandlerStays(s, a);
    match a
    case Send => ClientHeard(s, early);
    case Cancel => ClientHeard(s, early);
    case CompleteRead(ok, message) =>
      if s.readsOut > 0 {
        if ok && !s.connecting {
          ReadHeard(s, message, early);
        } else {
          OtherReadHeard(s, ok, message, early);
        }
      }
    case CompleteWrite(ok) => WriteHeard(s, ok, early);
  }

  predicate AnyEmptyCallback<M>(s: Stream<M>, actions: seq<Action<M>>)
    decreases |actions|
  {
    actions != [] && (EmptyCallback(s, actions[0]) || AnyEmptyCallback(Step(s, actions[0]), actions[1..]))
  }

  lemma {:induction false} RunHeardFrom<M>(s: Stream<M>, actions: seq<Action<M>>, early: bool)
    requires Inv(s) && s.hasHandler && Heard(s, early)
    ensures Heard(Run(s, actions), early || AnyEmptyCallback(s, actions))
    decreases |actions|
  {
    if actions != [] {
      var a := actions[0];
      StepKeepsInv(s, a);
      StepHeard(s, a, early);
      RunHeardFrom(Step(s, a), actions[1..], early || EmptyCallback(s, a));
    }
  }

  /** Over every run of a fresh stream with a handler. */
  lemma RunHeard<M>(actions: seq<Action<M>>)
    ensures Heard(Run(Opened(true), actions), AnyEmptyCallback(Opened(true), actions))
  {
    var s := Opened<M>(true);
    RunHeardFrom(s, actions, false);
  }

  /** The empty event is real: send, and let the connection complete. */
  lemma EmptyCallbackIsReachable<M>(message: M)
    ensures var actions := [Send, CompleteRead(true, message)];
            AnyEmptyCallback(Opened(true), actions) && Run(Opened(true), actions).handled == [None]
  {
    var s := Opened<M>(true);
    var actions := [Send, CompleteRead(true, message)];
    assert actions[1..] == [CompleteRead(true, message)] && actions[1..][1..] == [];
    var s1 := Step(s, Send);
    assert EmptyCallback(s1, CompleteRead(true, message));
    assert AnyEmptyCallback(s1, actions[1..]);
    var s2 := Step(s1, CompleteRead(true, message));
    assert s2.handled == [None];
    assert Run(s2, actions[1..][1..]) == s2;
    assert Run(s1, actions[1..]) == s2;
  }

  // ---------------------------------------------------------------------------------------------
  // What the handler hears, from the actions alone
  // ---------------------------------------------------------------------------------------------

  /** A request has been accepted and its write has not completed: another one is refused. */
  predicate Writing<M>(actions: seq<Action<M>>) {
    actions != [] &&
    (actions[|actions| - 1].Send? || (!actions[|actions| - 1].CompleteWrite? && Writing(actions[..|actions| - 1])))
  }

  /** An operation that was out has failed. A read is always out, a write only after a request. */
  predicate Ended<M>(actions: seq<Action<M>>) {
    actions != [] &&
    var front, last := actions[..|actions| - 1], actions[|actions| - 1];
    Ended(front) || (last.CompleteRead? && !last.ok) || (last.CompleteWrite? && !last.ok && Writing(front))
  }

  predicate HasCancel<M>(actions: seq<Action<M>>) {
    actions != [] && (actions[|actions| - 1].Cancel? || HasCancel(actions[..|actions| - 1]))
  }

  predicate HasRead<M>(actions: seq<Action<M>>) {
    actions != [] && (actions[|actions| - 1].CompleteRead? || HasRead(actions[..|actions| - 1]))
  }

  /** A request came before the first read completion, which says that the stream is connected. */
  predicate SentFirst<M>(actions: seq<Action<M>>) {
    actions != [] &&
    var front, last := actions[..|actions| - 1], actions[|actions| - 1];
    SentFirst(front) || (last.Send? && !HasRead(front))
  }

  /** The messages of the reads that completed before anything failed or was cancelled. */
  function ReadMessages<M>(actions: seq<Action<M>>): seq<M> {
    if actions == [] then []
    else
      var front, last := actions[..|actions| - 1], actions[|actions| - 1];
      if last.CompleteRead? && last.ok && !Ended(front) && !HasCancel(front)
      then ReadMessages(front) + [last.message] else ReadMessages(front)
  }

  /** The first of them carries no message; it gives an empty event if a request had been sent. */
  function Events<M>(messages: seq<M>, sentFirst: bool): seq<Option<M>> {
    if messages == [] then [] else (if sentFirst then [None] else []) + Wrapped(messages[1..])
  }

  function Audible<M>(actions: seq<Action<M>>): seq<Option<M>> {
    Events(ReadMessages(actions), SentFirst(actions))
  }

  /** All of this about one list of actions. */
  datatype Facts<M> = Facts(writing: bool, ended: bool, cancelled: bool, read: bool, sentFirst: bool, messages: seq<M>)

  function FactsOf<M>(actions: seq<Action<M>>): Facts<M> {
    Facts(Writing(actions), Ended(actions), HasCancel(actions), HasRead(actions), SentFirst(actions),
          ReadMessages(actions))
  }

  function NextFacts<M>(f: Facts<M>, a: Action<M>): Facts<M> {
    Facts(a.Send? || (!a.CompleteWrite? && f.writing),
          f.ended || (a.CompleteRead? && !a.ok) || (a.CompleteWrite? && !a.ok && f.writing),
          f.cancelled || a.Cancel?, f.read || a.CompleteRead?, f.sentFirst || (a.Send? && !f.read),
          if a.CompleteRead? && a.ok && !f.ended && !f.cancelled then f.messages + [a.message] else f.messages)
  }

  lemma FactsAppend<M>(front: seq<Action<M>>, a: Action<M>)
    ensures FactsOf(front + [a]) == NextFacts(FactsOf(front), a)
  {
    assert (front + [a])[..|front|] == front;
  }

  /** The object is in the state that the actions lead to. */
  ghost predicate Follows<M>(s: Stream<M>, hasHandler: bool, f: Facts<M>) {
    && s.hasHandler == hasHandler && s.handled == (if hasHandler then Events(f.messages, f.sentFirst) else [])
    && (s.alive <==> !f.ended)
    && (!f.read ==> f.messages == [])
    && (s.alive ==>
          && (s.listenerActive <==> hasHandler && !f.cancelled)
          && (s.status.Processing? <==> f.writing)
          && (s.connecting <==> !f.read)
          && (s.connecting ==> (s.status.Connecting? <==> !f.sentFirst))
          && (f.read && !f.cancelled ==> f.messages != []))
  }

  lemma SendFollows<M>(s: Stream<M>, hasHandler: bool, f: Facts<M>)
    requires Inv(s) && Follows(s, hasHandler, f)
    ensures Follows(Step(s, Send), hasHandler, NextFacts(f, Send))
  {}

  lemma CancelFollows<M>(s: Stream<M>, hasHandler: bool, f: Facts<M>)
    requires Inv(s) && Follows(s, hasHandler, f)
    ensures Follows(Step(s, Cancel), hasHandler, NextFacts(f, Cancel))
  {}

  lemma WriteFollows<M>(s: Stream<M>, hasHandler: bool, f: Facts<M>, ok: bool)
    requires Inv(s) && Follows(s, hasHandler, f)
    ensures Follows(Step(s, CompleteWrite(ok)), hasHandler, NextFacts(f, CompleteWrite(ok)))
  {}

  lemma FailedReadFollows<M>(s: Stream<M>, hasHandler: bool, f: Facts<M>, ok: bool, message: M)
    requires Inv(s) && Follows(s, hasHandler, f) && (!s.alive || !ok)
    ensures Follows(Step(s, CompleteRead(ok, message)), hasHandler, NextFacts(f, CompleteRead(ok, message)))
  {}

  lemma ConnectFollows<M>(s: Stream<M>, hasHandler: bool, f: Facts<M>, message: M)
    requires Inv(s) && Follows(s, hasHandler, f) && s.alive && s.connecting
    ensures Follows(Step(s, CompleteRead(true, message)), hasHandler, NextFacts(f, CompleteRead(true, message)))
  {}

  lemma MessageFollows<M>(s: Stream<M>, hasHandler: bool, f: Facts<M>, message: M)
    requires Inv(s) && Follows(s, hasHandler, f) && s.alive && !s.connecting
    ensures Follows(Step(s, CompleteRead(true, message)), hasHandler, NextFacts(f, CompleteRead(true, message)))
  {
    if !f.cancelled {
      EventsMore(f.messages, f.sentFirst, message);
    }
  }

  lemma EventsMore<M>(messages: seq<M>, sentFirst: bool, message: M)
    requires messages != []
    ensures Events(messages + [message], sentFirst) == Events(messages, sentFirst) + [Some(message)]
  {
    assert (messages + [message])[1..] == messages[1..] + [message];
    assert Wrapped(messages[1..] + [message]) == Wrapped(messages[1..]) + [Some(message)];
  }

  lemma StepFollows<M>(s: Stream<M>, hasHandler: bool, f: Facts<M>, a: Action<M>)
    requires Inv(s) && Follows(s, hasHandler, f)
    ensures Follows(Step(s, a), hasHandler, NextFacts(f, a))
  {
    match a
    case Send => SendFollows(s, hasHandler, f);
    case Cancel => CancelFollows(s, hasHandler, f);
    case CompleteWrite(ok) => WriteFollows(s, hasHandler, f, ok);
    case CompleteRead(ok, message) =>
      if !s.alive || !ok {
        FailedReadFollows(s, hasHandler, f, ok, message);
      } else if s.connecting {
        ConnectFollows(s, hasHandler, f, message);
      } else {
        MessageFollows(s, hasHandler, f, message);
      }
  }

  lemma {:induction false} RunLast<M>(s: Stream<M>, actions: seq<Action<M>>)
    requires actions != []
    ensures Run(s, actions) == Step(Run(s, actions[..|actions| - 1]), actions[|actions| - 1])
    decreases |actions|
  {
    if |actions| > 1 {
      RunLast(Step(s, actions[0]), actions[1..]);
      assert actions[1..][..|actions| - 2] == actions[..|actions| - 1][1..];
    }
  }

  lemma {:induction false} RunFollows<M>(hasHandler: bool, actions: seq<Action<M>>)
    ensures Follows(Run(Opened<M>(hasHandler), actions), hasHandler, FactsOf(actions))
    decreases |actions|
  {
    if actions != [] {
      var front, last := actions[..|actions| - 1], actions[|actions| - 1];
      RunFollows(hasHandler, front);
      RunKeepsInv(Opened<M>(hasHandler), front);
      RunLast(Opened<M>(hasHandler), actions);
      assert front + [last] == actions;
      FactsAppend(front, last);
      StepFollows(Run(Opened<M>(hasHandler), front), hasHandler, FactsOf(front), last);
    }
  }

  /** Main result: after every run the handler has been given exactly the messages that were read after the connection
      and before anything failed or was cancelled, after one empty event if a request came before the connection. */
  lemma HandlerHears<M>(hasHandler: bool, actions: seq<Action<M>>)
    ensures Run(Opened<M>(hasHandler), actions).handled == if hasHandler then Audible(actions) else []
  {
    RunFollows(hasHandler, actions);
  }

  /** A request is accepted exactly while nothing has failed and no accepted request is still being written. */
  lemma AcceptsWhenIdle<M>(hasHandler: bool, actions: seq<Action<M>>)
    ensures var s := Run(Opened<M>(hasHandler), actions);
            s.alive && Accepts(s) <==> !Ended(actions) && !Writing(actions)
  {
    RunFollows(hasHandler, actions);
    RunKeepsInv(Opened<M>(hasHandler), actions);
  }

  /** The object itself. */
  class RpcWirelessManagementStreamClientCallData<M(0)> {
    var status: ClientCallState
    var listenerActive: bool
    const hasHandler: bool
    var response: Option<M>

    ghost var handled: seq<Option<M>>
    ghost var readsOut: nat
    ghost var writesOut: nat
    ghost var connecting: bool
    ghost var received: seq<M>
    ghost var cutAt: Option<nat>

    ghost function State(): Stream<M>
      reads this
    {
      Stream(status, listenerActive, hasHandler, response, handled, readsOut, writesOut, connecting, received, cutAt,
             true, false)
    }

    constructor (hasHandler: bool)
      ensures State() == Opened(hasHandler)
    {
      status := Connecting;
      this.hasHandler := hasHandler;
      listenerActive := false;
      response := None;
      handled, readsOut, writesOut, connecting, received, cutAt := [], 1, 0, true, [], None;
      new;
      if hasHandler {
        listenerActive := true;
      }
    }

    method SendWirelessManagementRequest() returns (accepted: bool)
      modifies this`status, this`writesOut
      ensures accepted == Accepts(old(State()))
      ensures State() == Sent(old(State()))
    {
      if status.Processing? {
        return false;
      }
      if status.Connecting? || status.Waiting? {
        status := Processing;
        writesOut := writesOut + 1;
        return true;
      }
      return false;
    }

    method Stop()
      modifies this`status
      ensures State() == old(State()).(status := Finish)
    {
      status := Finish;
    }

    method CancelCall()
      modifies this`listenerActive, this`cutAt
      ensures State() == Silenced(old(State()))
    {
      cutAt := if cutAt.Some? then cutAt else Some(|received|);
      listenerActive := false;
    }

    method Proceed(opType: OperationType) returns (keep: bool)
      modifies this`status, this`handled, this`readsOut
      ensures keep == Keeps(old(State()))
      ensures State() == Proceeded(old(State()), opType)
    {
      if status.Connecting? {
        status := Waiting;
        readsOut := readsOut + 1;
        return true;
      } else if status.Waiting? {
        if opType.ReadOp? {
          if hasHandler && listenerActive {
            handled := handled + [response];
          }
          readsOut := readsOut + 1;
        }
        return true;
      } else if status.Processing? {
        if opType.ReadOp? {
          if hasHandler && listenerActive {
            handled := handled + [response];
          }
          readsOut := readsOut + 1;
        } else if opType.WriteOp? {
          status := Waiting;
        }
        return true;
      } else {
        assert status.Finish?;
        return false;
      }
    }
  }
}
