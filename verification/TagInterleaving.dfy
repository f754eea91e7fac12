/** Tags handed out to threads that make requests at the same time (src/client_context.cpp). Requests for device data
    and frames take the next tag under one lock, requests for base station data take it from the same plain counter
    under another, so an increment of one kind can fall between the reading and the writing of the other. */
module TagInterleaving {
  import opened SdkTypes
  import opened ClientContexts

  datatype Kind = ForData | ForStation

  datatype Issued = Issued(kind: Kind, tag: Tag)

  /** data and station are what the thread inside each of the two locks has read from the counter and not yet written
      back. */
  datatype State = State(source: Tag, data: Option<Tag>, station: Option<Tag>, issued: seq<Issued>)

  datatype Action = Read(kind: Kind) | Write(kind: Kind)

  function Start(): State {
    State(FIRST_TAG, None, None, [])
  }

  function Pending(s: State, kind: Kind): Option<Tag> {
    match kind
    case ForData => s.data
    case ForStation => s.station
  }

  function WithPending(s: State, kind: Kind, value: Option<Tag>): State {
    match kind
    case ForData => s.(data := value)
    case ForStation => s.(station := value)
  }

  /** One atomic step, or None where the action is not enabled. */
  function Step(s: State, a: Action): Option<State> {
    match a
    case Read(kind) => if Pending(s, kind).None? then Some(WithPending(s, kind, Some(s.source))) else None
    case Write(kind) =>
      if Pending(s, kind).Some? then
        var tag := Pending(s, kind).value;
        Some(WithPending(s, kind, None).(source := NextTag(tag), issued := s.issued + [Issued(kind, tag)]))
      else None
  }

  ghost predicate Reaches(from: State, actions: seq<Action>, target: State)
    decreases |actions|
  {
    if actions == [] then from == target else
    Step(from, actions[0]).Some? && Reaches(Step(from, actions[0]).value, actions[1..], target)
  }

  /** No request is being made. */
  predicate Quiet(s: State) {
    s.data.None? && s.station.None?
  }

  /** Both threads are between reading and writing the counter. */
  predicate BothInside(s: State) {
    s.data.Some? && s.station.Some?
  }

  ghost predicate Overlap(s: State, actions: seq<Action>)
    decreases |actions|
  {
    || BothInside(s)
    || (actions != [] && Step(s, actions[0]).Some? && Overlap(Step(s, actions[0]).value, actions[1..]))
  }

  ghost predicate Distinct(issued: seq<Issued>) {
    forall i, j :: 0 <= i < j < |issued| ==> issued[i].tag != issued[j].tag
  }

  /** The requests have come one at a time: the tags are counted, and whoever is inside holds the next one. */
  ghost predicate Orderly(s: State) {
    && !BothInside(s)
    && (s.data.Some? ==> s.data.value == s.source) && (s.station.Some? ==> s.station.value == s.source)
    && s.source == TagOf(|s.issued|)
    && (forall i :: 0 <= i < |s.issued| ==> s.issued[i].tag == TagOf(i))
  }

  ghost predicate HasIssued(s: State, tag: Tag) {
    exists i :: 0 <= i < |s.issued| && s.issued[i].tag == tag
  }

  /** A tag has been handed out twice, or will be once the threads inside are done. */
  ghost predicate Repeats(s: State) {
    || !Distinct(s.issued)
    || (BothInside(s) && s.data == s.station)
    || (s.data.Some? && HasIssued(s, s.data.value))
    || (s.station.Some? && HasIssued(s, s.station.value))
  }

  lemma StepOrderly(s: State, a: Action)
    requires Orderly(s) && Step(s, a).Some?
    ensures var t := Step(s, a).value; if BothInside(t) then Repeats(t) else Orderly(t)
  {
    NextTagOf(|s.issued|);
  }

  lemma IssuedMore(s: State, a: Action, tag: Tag)
    requires Step(s, a).Some? && HasIssued(s, tag)
    ensures HasIssued(Step(s, a).value, tag)
  {
    var i :| 0 <= i < |s.issued| && s.issued[i].tag == tag;
    assert Step(s, a).value.issued[i].tag == tag;
  }

  lemma WriteRepeats(s: State, kind: Kind)
    requires Step(s, Write(kind)).Some?
    ensures HasIssued(Step(s, Write(kind)).value, Pending(s, kind).value)
    ensures !Distinct(s.issued) || HasIssued(s, Pending(s, kind).value) ==> !Distinct(Step(s, Write(kind)).value.issued)
  {
    var t := Step(s, Write(kind)).value;
    assert t.issued[|s.issued|].tag == Pending(s, kind).value;
    if !Distinct(s.issued) {
      var i, j :| 0 <= i < j < |s.issued| && s.issued[i].tag == s.issued[j].tag;
      assert t.issued[i].tag == t.issued[j].tag;
    } else if HasIssued(s, Pending(s, kind).value) {
      var i :| 0 <= i < |s.issued| && s.issued[i].tag == Pending(s, kind).value;
      assert t.issued[i].tag == t.issued[|s.issued|].tag;
    }
  }

  lemma StepRepeats(s: State, a: Action)
    requires Repeats(s) && Step(s, a).Some?
    ensures Repeats(Step(s, a).value)
  {
    if s.data.Some? && HasIssued(s, s.data.value) {
      IssuedMore(s, a, s.data.value);
    }
    if s.station.Some? && HasIssued(s, s.station.value) {
      IssuedMore(s, a, s.station.value);
    }
    if a.Write? {
      WriteRepeats(s, a.kind);
    }
  }

  lemma {:induction false} RunRepeats(s: State, actions: seq<Action>, t: State)
    requires Repeats(s) && Reaches(s, actions, t)
    ensures Repeats(t)
    decreases |actions|
  {
    if actions != [] {
      StepRepeats(s, actions[0]);
      RunRepeats(Step(s, actions[0]).value, actions[1..], t);
    }
  }

  lemma {:induction false} RunDecides(s: State, actions: seq<Action>, t: State)
    requires Orderly(s) && Reaches(s, actions, t)
    ensures if Overlap(s, actions) then Repeats(t) else Orderly(t)
    decreases |actions|
  {
    if actions != [] {
      var u := Step(s, actions[0]).value;
      StepOrderly(s, actions[0]);
      if BothInside(u) {
        assert Overlap(u, actions[1..]);
        RunRepeats(u, actions[1..], t);
      } else {
        RunDecides(u, actions[1..], t);
      }
    }
  }

  lemma OrderlyTags(s: State)
    requires Orderly(s)
    ensures Distinct(s.issued) <==> |s.issued| <= UINT32_MODULUS
  {
    if |s.issued| <= UINT32_MODULUS {
      forall i, j | 0 <= i < j < |s.issued|
        ensures s.issued[i].tag != s.issued[j].tag
      {
        NearTagsDiffer(i, j);
      }
    } else {
      SameTag(0, UINT32_MODULUS);
      assert s.issued[0].tag == s.issued[UINT32_MODULUS].tag;
    }
  }

  /** Main result: once all requests are made, no two have the same tag if and only if no thread read the counter while
      one of the other kind was about to write it, and at most 2^32 requests were made. */
  lemma TagsDistinctIff(actions: seq<Action>, t: State)
    requires Reaches(Start(), actions, t) && Quiet(t)
    ensures Distinct(t.issued) <==> !Overlap(Start(), actions) && |t.issued| <= UINT32_MODULUS
  {
    RunDecides(Start(), actions, t);
    if !Overlap(Start(), actions) {
      OrderlyTags(t);
    }
  }

  lemma ReachesFirst(s: State, a: Action, u: State, actions: seq<Action>, t: State)
    requires Step(s, a) == Some(u) && Reaches(u, actions, t)
    ensures Reaches(s, [a] + actions, t)
  {
    assert ([a] + actions)[1..] == actions;
  }

  /** Taking a tag without interruption, whatever the other kind is doing. */
  lemma TakesTag(s: State, kind: Kind, actions: seq<Action>, t: State)
    requires Pending(s, kind).None?
    requires Reaches(s.(source := NextTag(s.source), issued := s.issued + [Issued(kind, s.source)]), actions, t)
    ensures Reaches(s, [Read(kind)] + ([Write(kind)] + actions), t)
  {
    var inside := WithPending(s, kind, Some(s.source));
    var after := s.(source := NextTag(s.source), issued := s.issued + [Issued(kind, s.source)]);
    ReachesFirst(inside, Write(kind), after, actions, t);
    ReachesFirst(s, Read(kind), inside, [Write(kind)] + actions, t);
  }

  /** Two requests for data can get the same tag too: the base station thread writes back a value that two of them have
      overtaken. The tag then stands for the newer request only, and nothing closes the older one. */
  lemma SameKindRepeats()
    ensures exists actions, t :: Reaches(Start(), actions, t) && Quiet(t) &&
              t.issued == [Issued(ForData, 1), Issued(ForData, 2), Issued(ForStation, 1), Issued(ForData, 2)]
  {
    var two := [Issued(ForData, 1), Issued(ForData, 2)];
    var t := State(3, None, None, two + [Issued(ForStation, 1)] + [Issued(ForData, 2)]);
    var late := State(2, None, None, two + [Issued(ForStation, 1)]);
    var pending := Start().(station := Some(1));
    TakesTag(late, ForData, [], t);
    var r := [Read(ForData)] + ([Write(ForData)] + []);
    ReachesFirst(State(3, None, Some(1), two), Write(ForStation), late, r, t);
    assert [Issued(ForData, 1)] + [Issued(ForData, 2)] == two;
    r := [Write(ForStation)] + r;
    TakesTag(State(2, None, Some(1), [Issued(ForData, 1)]), ForData, r, t);
    r := [Read(ForData)] + ([Write(ForData)] + r);
    assert [] + [Issued(ForData, 1)] == [Issued(ForData, 1)];
    TakesTag(pending, ForData, r, t);
    ReachesFirst(Start(), Read(ForStation), pending, [Read(ForData)] + ([Write(ForData)] + r), t);
  }
}
