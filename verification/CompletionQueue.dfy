/** The completion queue and the calls it serves (src/client_manager.cpp, CompletionQueueProcessor). gRPC is a bag of
    outstanding operations, each tagged with the address of its call, that complete in any order with a success flag. */
module CompletionQueue {
  import opened SdkTypes
  import opened ClientCallData

  type Address = nat

  /** A call at an address. serial tells apart calls that lived at the same address one after another. */
  datatype Entry<M> = Entry(serial: nat, call: Call<M>)

  /** fault records that a tag was delivered to an address with no live call. */
  datatype System<M> = System(calls: map<Address, Entry<M>>, outstanding: multiset<Address>,
                              deleted: seq<Entry<M>>, nextSerial: nat, fault: bool)

  datatype Action<M> =
    | Open(at: Address, hasHandler: bool)
    | Cancel(at: Address)
    | Complete(at: Address, ok: bool, message: M)

  function Start<M>(): System<M> {
    System(map[], multiset{}, [], 0, false)
  }

  /** The allocator returns any address that is free, the queue completes any outstanding operation, and a
      client cancels any live call. Other actions do nothing. */
  predicate Enabled<M>(s: System<M>, a: Action<M>) {
    match a
    case Open(at, _) => at !in s.calls
    case Cancel(at) => at in s.calls
    case Complete(at, _, _) => at in s.outstanding
  }

  /** One turn of the queue loop: stop on failure, proceed, and delete when proceeding says so. */
  function Delivered<M>(s: System<M>, at: Address, ok: bool, message: M): System<M>
    requires at in s.calls
  {
    var entry := s.calls[at];
    var call := if ok then entry.call else Stopped(entry.call);
    if Keeps(call) then
      s.(calls := s.calls[at := entry.(call := Proceeded(call, message))],
         outstanding := s.outstanding - multiset{at} + multiset{at})
    else
      s.(calls := s.calls - {at}, outstanding := s.outstanding - multiset{at},
         deleted := s.deleted + [entry.(call := Proceeded(call, message))])
  }

  function Step<M>(s: System<M>, a: Action<M>): System<M> {
    if !Enabled(s, a) then s else
    match a
    case Open(at, hasHandler) =>
      s.(calls := s.calls[at := Entry(s.nextSerial, Opened(hasHandler))],
         outstanding := s.outstanding + multiset{at}, nextSerial := s.nextSerial + 1)
    case Cancel(at) =>
      s.(calls := s.calls[at := s.calls[at].(call := Cancelled(s.calls[at].call))])
    case Complete(at, ok, message) =>
      if at in s.calls then Delivered(s, at, ok, message)
      else s.(outstanding := s.outstanding - multiset{at}, fault := true)
  }

  function Run<M>(s: System<M>, actions: seq<Action<M>>): System<M>
    decreases |actions|
  {
    if actions == [] then s else Run(Step(s, actions[0]), actions[1..])
  }

  /** Exactly one outstanding operation for each live call and none for any other address. */
  ghost predicate OneTagEach<M>(s: System<M>) {
    forall at: Address :: s.outstanding[at] == if at in s.calls then 1 else 0
  }

  /** Every call that ever lived has its own serial, so none is deleted twice or while alive. */
  ghost predicate SerialsDistinct<M>(s: System<M>) {
    && (forall at :: at in s.calls ==> s.calls[at].serial < s.nextSerial)
    && (forall i :: 0 <= i < |s.deleted| ==> s.deleted[i].serial < s.nextSerial)
    && (forall a, b :: a in s.calls && b in s.calls && a != b ==> s.calls[a].serial != s.calls[b].serial)
    && (forall i, j :: 0 <= i < j < |s.deleted| ==> s.deleted[i].serial != s.deleted[j].serial)
    && (forall a, i :: a in s.calls && 0 <= i < |s.deleted| ==> s.calls[a].serial != s.deleted[i].serial)
  }

  ghost predicate CallsOk<M>(s: System<M>) {
    && (forall at :: at in s.calls ==> CallOk(s.calls[at].call))
    && (forall i :: 0 <= i < |s.deleted| ==> s.deleted[i].call.status.Finish? && HandledPrefix(s.deleted[i].call))
  }

  ghost predicate Inv<M>(s: System<M>) {
    OneTagEach(s) && SerialsDistinct(s) && CallsOk(s) && !s.fault
  }

  lemma StepKeepsTags<M>(s: System<M>, a: Action<M>)
    requires OneTagEach(s)
    ensures OneTagEach(Step(s, a))
    ensures Step(s, a).fault == s.fault
  {}

  lemma DeliveredKeepsSerials<M>(s: System<M>, at: Address, ok: bool, message: M)
    requires SerialsDistinct(s) && at in s.calls
    ensures SerialsDistinct(Delivered(s, at, ok, message))
  {}

  lemma StepKeepsSerials<M>(s: System<M>, a: Action<M>)
    requires SerialsDistinct(s)
    ensures SerialsDistinct(Step(s, a))
  {
    if a.Complete? && Enabled(s, a) && a.at in s.calls {
      DeliveredKeepsSerials(s, a.at, a.ok, a.message);
    }
  }

  lemma StepKeepsCalls<M>(s: System<M>, a: Action<M>)
    requires CallsOk(s) && Enabled(s, a)
    ensures CallsOk(Step(s, a))
  {
    match a
    case Open(at, hasHandler) => OpenedOk<M>(hasHandler);
    case Cancel(at) => CancelledOk(s.calls[at].call);
    case Complete(at, ok, message) =>
      if at in s.calls {
        ProceededOk(s.calls[at].call, message);
      }
  }

  /** Main result: over any number of calls and any completion order, each live call has exactly one outstanding tag, no
      tag reaches a deleted call, no call is deleted twice, and every handler saw a prefix of the successful reads. */
  lemma {:induction false} RunKeepsInv<M>(s: System<M>, actions: seq<Action<M>>)
    requires Inv(s)
    ensures Inv(Run(s, actions))
    decreases |actions|
  {
    if actions != [] {
      StepKeepsTags(s, actions[0]);
      StepKeepsSerials(s, actions[0]);
      if Enabled(s, actions[0]) {
        StepKeepsCalls(s, actions[0]);
      }
      RunKeepsInv(Step(s, actions[0]), actions[1..]);
    }
  }

  /** A live call disappears only when its own operation completes unsuccessfully. */
  lemma DeletedOnlyAfterFailure<M>(s: System<M>, a: Action<M>, at: Address)
    requires Inv(s) && at in s.calls
    ensures at !in Step(s, a).calls <==> a.Complete? && a.at == at && !a.ok
    ensures at in Step(s, a).calls ==> Step(s, a).calls[at].serial == s.calls[at].serial
  {}

  /** The first completion of a call, which only says that it is connected, never reaches the handler. */
  lemma NoCallbackOnConnect<M>(s: System<M>, at: Address, ok: bool, message: M)
    requires Inv(s) && at in s.calls && s.calls[at].call.status.Connecting?
    ensures var t := Step(s, Complete(at, ok, message));
            at in t.calls ==> t.calls[at].call.handled == [] && t.calls[at].call.read == []
    ensures var t := Step(s, Complete(at, ok, message));
            at !in t.calls ==> t.deleted == s.deleted + [s.calls[at].(call := Stopped(s.calls[at].call))]
  {
    assert at in s.outstanding;
  }

  datatype Completion<M> = Completion(at: Address, ok: bool, message: M)

  function AsAction<M>(c: Completion<M>): Action<M> {
    Complete(c.at, c.ok, c.message)
  }

  /** The completions can be produced one after the other: each belongs to an operation outstanding by then. */
  predicate Deliverable<M>(s: System<M>, completions: seq<Completion<M>>)
    decreases |completions|
  {
    completions == [] ||
    (Enabled(s, AsAction(completions[0])) && Deliverable(Step(s, AsAction(completions[0])), completions[1..]))
  }

  function RunCompletions<M>(s: System<M>, completions: seq<Completion<M>>): System<M>
    decreases |completions|
  {
    if completions == [] then s else RunCompletions(Step(s, AsAction(completions[0])), completions[1..])
  }

  /** A completion always finds its call alive, and the invariant survives the delivery. */
  lemma CompletionReachesLiveCall<M>(s: System<M>, c: Completion<M>)
    requires Inv(s) && Enabled(s, AsAction(c))
    ensures c.at in s.calls && !s.calls[c.at].call.status.Waiting?
    ensures Step(s, AsAction(c)) == Delivered(s, c.at, c.ok, c.message)
    ensures Inv(Step(s, AsAction(c)))
  {
    StepKeepsTags(s, AsAction(c));
    StepKeepsSerials(s, AsAction(c));
    StepKeepsCalls(s, AsAction(c));
  }

  // ---------------------------------------------------------------------------------------------
  // What the handlers hear, from the actions alone
  // ---------------------------------------------------------------------------------------------

  /** One call's own part of a run: whether it was opened with a handler, and its successful completions and
      cancellations since then. */
  datatype History<M> = History(hasHandler: bool, own: seq<Action<M>>)

  /** The history of the call that lives at an address after the actions, if there is one. */
  function HistoryAt<M>(actions: seq<Action<M>>, at: Address): Option<History<M>> {
    if actions == [] then None
    else
      var before, last := HistoryAt(actions[..|actions| - 1], at), actions[|actions| - 1];
      if last.at != at then before
      else if last.Open? then (if before.None? then Some(History(last.hasHandler, [])) else before)
      else if before.None? || (last.Complete? && !last.ok) then None
      else Some(before.value.(own := before.value.own + [last]))
  }

  /** The histories of the calls that a failed completion has ended, in that order. */
  function EndedHistories<M>(actions: seq<Action<M>>): seq<History<M>> {
    if actions == [] then []
    else
      var front, last := actions[..|actions| - 1], actions[|actions| - 1];
      EndedHistories(front) +
        if last.Complete? && !last.ok && HistoryAt(front, last.at).Some? then [HistoryAt(front, last.at).value] else []
  }

  predicate HasCancel<M>(own: seq<Action<M>>) {
    exists i :: 0 <= i < |own| && own[i].Cancel?
  }

  /** Everything up to the first cancellation. */
  function BeforeCancel<M>(own: seq<Action<M>>): seq<Action<M>> {
    if own == [] || own[0].Cancel? then [] else [own[0]] + BeforeCancel(own[1..])
  }

  function Messages<M>(own: seq<Action<M>>): seq<M> {
    if own == [] then []
    else Messages(own[..|own| - 1]) + if own[|own| - 1].Complete? then [own[|own| - 1].message] else []
  }

  /** What its handler should have heard: the messages completed before the first cancellation, without the first
      completion, which only says that the call is connected. */
  function Audible<M>(h: History<M>): seq<M> {
    var messages := Messages(BeforeCancel(h.own));
    if !h.hasHandler || messages == [] then [] else messages[1..]
  }

  /** The call is in the state that its history leads to. */
  ghost predicate Follows<M>(c: Call<M>, h: History<M>) {
    && c.hasHandler == h.hasHandler && c.handled == Audible(h)
    && c.status == (if Messages(h.own) == [] then Connecting else Processing)
    && (c.listenerActive <==> h.hasHandler && !HasCancel(h.own))
  }

  lemma {:induction false} BeforeCancelAppend<M>(own: seq<Action<M>>, a: Action<M>)
    ensures BeforeCancel(own + [a]) == if HasCancel(own) || a.Cancel? then BeforeCancel(own) else own + [a]
    ensures !HasCancel(own) ==> BeforeCancel(own) == own
    decreases |own|
  {
    if own != [] {
      assert (own + [a])[1..] == own[1..] + [a];
      BeforeCancelAppend(own[1..], a);
      assert own == [own[0]] + own[1..];
    }
  }

  lemma OwnAppend<M>(own: seq<Action<M>>, a: Action<M>)
    ensures HasCancel(own + [a]) <==> HasCancel(own) || a.Cancel?
    ensures Messages(own + [a]) == Messages(own) + if a.Complete? then [a.message] else []
  {
    var all := own + [a];
    assert all[..|own|] == own && all[|own|] == a;
    if HasCancel(own) {
      var i :| 0 <= i < |own| && own[i].Cancel?;
      assert all[i].Cancel?;
    }
  }

  lemma CancelledFollows<M>(c: Call<M>, h: History<M>, a: Action<M>)
    requires Follows(c, h) && a.Cancel?
    ensures Follows(Cancelled(c), h.(own := h.own + [a]))
  {
    OwnAppend(h.own, a);
    BeforeCancelAppend(h.own, a);
  }

  lemma ProceededFollows<M>(c: Call<M>, h: History<M>, a: Action<M>)
    requires Follows(c, h) && a.Complete?
    ensures Follows(Proceeded(c, a.message), h.(own := h.own + [a]))
  {
    OwnAppend(h.own, a);
    BeforeCancelAppend(h.own, a);
  }

  lemma {:induction false} RunLast<M>(s: System<M>, actions: seq<Action<M>>)
    requires actions != []
    ensures Run(s, actions) == Step(Run(s, actions[..|actions| - 1]), actions[|actions| - 1])
    decreases |actions|
  {
    if |actions| > 1 {
      RunLast(Step(s, actions[0]), actions[1..]);
      assert actions[1..][..|actions| - 2] == actions[..|actions| - 1][1..];
    }
  }

  ghost predicate FollowsAt<M>(s: System<M>, actions: seq<Action<M>>, at: Address) {
    match HistoryAt(actions, at)
    case None => at !in s.calls
    case Some(h) => at in s.calls && Follows(s.calls[at].call, h)
  }

  ghost predicate EndedFollow<M>(s: System<M>, actions: seq<Action<M>>) {
    && |s.deleted| == |EndedHistories(actions)|
    && forall i :: 0 <= i < |s.deleted| ==> s.deleted[i].call.handled == Audible(EndedHistories(actions)[i])
  }

  lemma ElsewhereFollows<M>(s: System<M>, front: seq<Action<M>>, a: Action<M>, at: Address)
    requires FollowsAt(s, front, at) && a.at != at
    ensures FollowsAt(Step(s, a), front + [a], at)
  {
    assert (front + [a])[..|front|] == front;
  }

  lemma ClientFollows<M>(s: System<M>, front: seq<Action<M>>, a: Action<M>)
    requires FollowsAt(s, front, a.at) && !a.Complete?
    ensures FollowsAt(Step(s, a), front + [a], a.at)
  {
    assert (front + [a])[..|front|] == front;
    if a.at in s.calls && a.Cancel? {
      CancelledFollows(s.calls[a.at].call, HistoryAt(front, a.at).value, a);
    }
  }

  lemma CompletionFollows<M>(s: System<M>, front: seq<Action<M>>, a: Action<M>)
    requires Inv(s) && FollowsAt(s, front, a.at) && a.Complete?
    ensures FollowsAt(Step(s, a), front + [a], a.at)
  {
    assert (front + [a])[..|front|] == front;
    assert a.at in s.outstanding <==> a.at in s.calls;
    if a.at in s.calls {
      ProceededFollows(s.calls[a.at].call, HistoryAt(front, a.at).value, a);
    }
  }

  lemma StepFollows<M>(s: System<M>, front: seq<Action<M>>, a: Action<M>, at: Address)
    requires Inv(s) && FollowsAt(s, front, at)
    ensures FollowsAt(Step(s, a), front + [a], at)
  {
    if a.at != at {
      ElsewhereFollows(s, front, a, at);
    } else if a.Complete? {
      CompletionFollows(s, front, a);
    } else {
      ClientFollows(s, front, a);
    }
  }

  /** A call that ends has heard what its history says. */
  lemma StepEndedFollow<M>(s: System<M>, front: seq<Action<M>>, a: Action<M>)
    requires Inv(s) && FollowsAt(s, front, a.at) && EndedFollow(s, front)
    ensures EndedFollow(Step(s, a), front + [a])
  {
    assert (front + [a])[..|front|] == front;
    assert a.at in s.outstanding <==> a.at in s.calls;
  }

  lemma {:induction false} RunFollows<M>(actions: seq<Action<M>>)
    ensures forall at :: FollowsAt(Run(Start<M>(), actions), actions, at)
    ensures EndedFollow(Run(Start(), actions), actions)
    decreases |actions|
  {
    if actions != [] {
      var front, last := actions[..|actions| - 1], actions[|actions| - 1];
      var s := Run(Start<M>(), front);
      RunFollows(front);
      RunKeepsInv(Start(), front);
      RunLast(Start(), actions);
      assert front + [last] == actions;
      forall at
        ensures FollowsAt(Step(s, last), actions, at)
      {
        StepFollows(s, front, last, at);
      }
      StepEndedFollow(s, front, last);
    }
  }

  /** Main result: after every run the handler of each call, alive or ended, has been given exactly the messages that
      completed at its address since it was opened and before it was first cancelled, in order, without the completion
      of the connect. */
  lemma HandlersHear<M>(actions: seq<Action<M>>, at: Address)
    ensures var s := Run(Start(), actions);
            && (at in s.calls <==> HistoryAt(actions, at).Some?)
            && (at in s.calls ==> s.calls[at].call.handled == Audible(HistoryAt(actions, at).value))
            && |s.deleted| == |EndedHistories(actions)|
            && forall i :: 0 <= i < |s.deleted| ==> s.deleted[i].call.handled == Audible(EndedHistories(actions)[i])
  {
    RunFollows(actions);
    assert FollowsAt(Run(Start(), actions), actions, at);
  }

  /** The call with an operation that has completed, and the tag gone. */
  function Taken<M>(s: System<M>, at: Address, call: Call<M>): System<M>
    requires at in s.calls
  {
    s.(calls := s.calls[at := s.calls[at].(call := call)], outstanding := s.outstanding - multiset{at})
  }

  /** A call that is kept has its next operation outstanding; the other one is deleted. */
  function Settled<M>(s: System<M>, at: Address, keep: bool): System<M>
    requires at in s.calls
  {
    if keep then s.(outstanding := s.outstanding + multiset{at})
    else s.(calls := s.calls - {at}, deleted := s.deleted + [s.calls[at]])
  }

  /** A turn of the queue loop takes a tag and settles its call. */
  lemma DeliveredInTwoSteps<M>(s: System<M>, at: Address, ok: bool, message: M)
    requires at in s.calls
    ensures var call := if ok then s.calls[at].call else Stopped(s.calls[at].call);
            Delivered(s, at, ok, message) == Settled(Taken(s, at, Proceeded(call, message)), at, Keeps(call))
  {
    var call := if ok then s.calls[at].call else Stopped(s.calls[at].call);
    assert s.calls[at := s.calls[at].(call := Proceeded(call, message))] - {at} == s.calls - {at};
  }

  /** The queue thread over real call objects, found by their addresses. Deleting an object takes its address out of
      calls. */
  class Processor<M(0)> {
    var calls: map<Address, OneWayCallData<M>>
    var outstanding: multiset<Address>

    ghost var deleted: seq<Entry<M>>
    ghost var nextSerial: nat

    ghost predicate Valid()
      reads this`calls
    {
      forall at :: at in calls ==> calls[at].address == at
    }

    ghost function Entries(): map<Address, Entry<M>>
      reads this`calls, calls.Values
    {
      map at | at in calls :: Entry(calls[at].serial, calls[at].State())
    }

    ghost function Abstract(): System<M>
      reads this, calls.Values
    {
      System(Entries(), outstanding, deleted, nextSerial, false)
    }

    constructor ()
      ensures Valid() && Abstract() == Start()
    {
      calls, outstanding, deleted, nextSerial := map[], multiset{}, [], 0;
    }

    method AddCall(at: Address, call: OneWayCallData<M>)
      requires Valid() && at !in calls && call.address == at
      modifies this`calls
      ensures Valid() && calls == old(calls)[at := call]
      ensures Entries() == old(Entries())[at := Entry(call.serial, call.State())]
    {
      calls := calls[at := call];
    }

    method OpenCall(at: Address, hasHandler: bool)
      requires Valid() && at !in calls
      modifies this
      ensures Valid() && Abstract() == Step(old(Abstract()), Open(at, hasHandler))
      ensures calls.Keys == old(calls.Keys) + {at} && fresh(calls[at])
    {
      var call := new OneWayCallData<M>(at, nextSerial, hasHandler);
      AddCall(at, call);
      outstanding, nextSerial := outstanding + multiset{at}, nextSerial + 1;
    }

    method CancelCall(at: Address)
      requires Valid() && at in calls
      modifies calls[at]
      ensures Valid() && Abstract() == Step(old(Abstract()), Cancel(at))
    {
      calls[at].CancelCall();
    }

    method Proceed(at: Address, ok: bool, message: M) returns (keep: bool)
      requires Valid() && at in calls && !calls[at].status.Waiting?
      modifies calls[at]
      ensures Valid()
      ensures var entry := old(Entries())[at];
              var call := if ok then entry.call else Stopped(entry.call);
              keep == Keeps(call) && Entries() == old(Entries())[at := entry.(call := Proceeded(call, message))]
    {
      keep := calls[at].Deliver(ok, message);
    }

    method TakeNext(at: Address, ok: bool, message: M) returns (keep: bool)
      requires Valid() && at in calls && !calls[at].status.Waiting?
      modifies this`outstanding, calls[at]
      ensures Valid()
      ensures var call := if ok then old(Entries())[at].call else Stopped(old(Entries())[at].call);
              keep == Keeps(call) && Abstract() == Taken(old(Abstract()), at, Proceeded(call, message))
    {
      outstanding := outstanding - multiset{at};
      keep := Proceed(at, ok, message);
    }

    /** delete: the object is gone and its address is free. */
    method DeleteCall(at: Address)
      requires Valid() && at in calls
      modifies this`calls, this`deleted
      ensures Valid() && calls == old(calls) - {at}
      ensures Entries() == old(Entries()) - {at} && deleted == old(deleted) + [old(Entries())[at]]
    {
      calls, deleted := calls - {at}, deleted + [Entry(calls[at].serial, calls[at].State())];
    }

    method KeepOrDelete(at: Address, keep: bool)
      requires Valid() && at in calls
      modifies this
      ensures Valid() && calls.Values <= old(calls.Values)
      ensures Abstract() == Settled(old(Abstract()), at, keep)
    {
      if keep {
        outstanding := outstanding + multiset{at};
      } else {
        DeleteCall(at);
      }
    }

    /** One iteration of the loop. */
    method ProcessNext(completion: Completion<M>)
      requires Valid() && completion.at in outstanding
      requires completion.at in calls && !calls[completion.at].status.Waiting?
      modifies this, calls[completion.at]
      ensures Valid() && calls.Values <= old(calls.Values)
      ensures Abstract() == Delivered(old(Abstract()), completion.at, completion.ok, completion.message)
    {
      DeliveredInTwoSteps(Abstract(), completion.at, completion.ok, completion.message);
      var keep := TakeNext(completion.at, completion.ok, completion.message);
      KeepOrDelete(completion.at, keep);
    }

    /** The queue thread, run over any sequence of completions the queue can produce. */
    method CompletionQueueProcessor(completions: seq<Completion<M>>)
      requires Valid() && Inv(Abstract()) && Deliverable(Abstract(), completions)
      modifies this, calls.Values
      ensures Valid() && Inv(Abstract())
      ensures Abstract() == RunCompletions(old(Abstract()), completions)
    {
      for i := 0 to |completions|
        invariant Valid() && Inv(Abstract()) && calls.Values <= old(calls.Values)
        invariant Deliverable(Abstract(), completions[i..])
        invariant RunCompletions(Abstract(), completions[i..]) == RunCompletions(old(Abstract()), completions)
      {
        var completion := completions[i];
        assert completions[i..][0] == completion && completions[i..][1..] == completions[i + 1..];
        CompletionReachesLiveCall(Abstract(), completion);
        assert completion.at in Abstract().calls;
        ProcessNext(completion);
      }
    }
  }
}
