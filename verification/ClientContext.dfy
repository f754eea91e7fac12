/** The tags that a client gets for its requests, and the one base-station storage that its base-station requests share
    (src/client_context.cpp, with the base-station part of src/client_manager.cpp). */
module ClientContexts {
  import opened SdkTypes
  import opened PacketLog
  import SdkUtils
  import RequestTracking
  import opened DataManagers
  import opened ClientManagers

  type Tag = uint32
  type StorageId = nat

  /** The base-station storages of a ClientManager: those still listed, and those whose stream delivers. */
  datatype BaseStations = BaseStations(list: seq<StorageId>, created: nat, streaming: set<StorageId>)

  /** issued records every tag ever handed out, in order. */
  datatype Context = Context(tagSource: Tag, dataManagers: map<Tag, nat>, shared: Option<StorageId>, requests: set<Tag>,
                             stations: BaseStations, issued: seq<Tag>)

  datatype Event =
    | RequestData(manager: nat)
    | CloseData(tag: Tag)
    | RequestStation
    | CloseStation(tag: Tag)
    | StreamEnded(storage: StorageId)
    | ChannelReady

  // --- the base-station list of ClientManager ---

  function WithStation(b: BaseStations): BaseStations {
    BaseStations(b.list + [b.created], b.created + 1, b.streaming + {b.created})
  }

  /** What closing is meant to do: take the storage out of the list and stop its stream. */
  function WithoutStation(b: BaseStations, storage: StorageId): BaseStations {
    if b.list != [] && b.list[0] == storage then b.(list := b.list[1..], streaming := b.streaming - {storage}) else b
  }

  /** The loop of CloseBaseStationDataRequest never moves past its first element: the list it leaves after `rounds`
      turns, or None while it is still running. */
  function CloseLoop(list: seq<StorageId>, storage: StorageId, rounds: nat): Option<seq<StorageId>> {
    if list == [] then Some([])
    else if rounds == 0 then None
    else if list[0] == storage then Some(list[1..])
    else CloseLoop(list, storage, rounds - 1)
  }

  lemma {:induction false} CloseLoopStuck(list: seq<StorageId>, storage: StorageId, rounds: nat)
    requires list != [] && list[0] != storage
    ensures CloseLoop(list, storage, rounds) == None
    decreases rounds
  {
    if rounds > 0 {
      CloseLoopStuck(list, storage, rounds - 1);
    }
  }

  /** That loop returns exactly when the list is empty or starts with the storage. */
  lemma CloseLoopReturns(list: seq<StorageId>, storage: StorageId)
    ensures (exists rounds :: CloseLoop(list, storage, rounds).Some?) <==> list == [] || list[0] == storage
  {
    if list == [] || list[0] == storage {
      assert CloseLoop(list, storage, 1).Some?;
    } else {
      forall rounds
        ensures CloseLoop(list, storage, rounds).None?
      {
        CloseLoopStuck(list, storage, rounds);
      }
    }
  }

  // --- one call ---

  function NextTag(tag: Tag): Tag {
    if tag + 1 == UINT32_MODULUS then 0 else tag + 1
  }

  function Issue(c: Context): Context {
    c.(tagSource := NextTag(c.tagSource), issued := c.issued + [c.tagSource])
  }

  function Step(c: Context, e: Event): Context {
    match e
    case RequestData(manager) => Issue(c).(dataManagers := c.dataManagers[c.tagSource := manager])
    case CloseData(tag) => c.(dataManagers := c.dataManagers - {tag})
    case RequestStation =>
      var shared :=
        if c.shared.None? then c.(shared := Some(c.stations.created), stations := WithStation(c.stations)) else c;
      Issue(shared).(requests := c.requests + {c.tagSource})
    case CloseStation(tag) =>
      var left := c.requests - {tag};
      if left == {} && c.shared.Some? then c.(requests := left, stations := WithoutStation(c.stations, c.shared.value))
      else c.(requests := left)
    case StreamEnded(storage) => c.(stations := c.stations.(streaming := c.stations.streaming - {storage}))
    case ChannelReady => c.(stations := c.stations.(streaming := c.stations.streaming + (set s | s in c.stations.list)))
  }

  function Run(c: Context, events: seq<Event>): Context {
    if events == [] then c else Step(Run(c, events[..|events| - 1]), events[|events| - 1])
  }

  /** The counter is initialised to one. */
  const FIRST_TAG: Tag := 1

  function Start(): Context {
    Context(FIRST_TAG, map[], None, {}, BaseStations([], 0, {}), [])
  }

  // ---------------------------------------------------------------------------------------------
  // Tags
  // ---------------------------------------------------------------------------------------------

  /** The tag of the request that comes after n others: counted from one, through zero at the wrap. */
  function TagOf(n: nat): Tag {
    (FIRST_TAG + n) % UINT32_MODULUS
  }

  /** Zero is handed out only at the wrap. */
  lemma ZeroIsLast(n: nat)
    ensures TagOf(n) == 0 <==> (n + 1) % UINT32_MODULUS == 0
    ensures n < UINT32_MODULUS - 1 ==> TagOf(n) == n + 1
  {}

  /** Two requests get the same tag exactly if a multiple of 2^32 requests lies between them. */
  lemma SameTag(i: nat, j: nat)
    ensures TagOf(i) == TagOf(j) <==> (j - i) % UINT32_MODULUS == 0
  {}

  ghost predicate Tagged(c: Context) {
    && c.tagSource == TagOf(|c.issued|)
    && (forall i :: 0 <= i < |c.issued| ==> c.issued[i] == TagOf(i))
    && (forall t :: t in c.dataManagers ==> t in c.issued)
    && (forall t :: t in c.requests ==> t in c.issued)
  }

  lemma {:induction false} RunTagged(events: seq<Event>)
    ensures Tagged(Run(Start(), events))
  {
    if events != [] {
      RunTagged(events[..|events| - 1]);
      StepTagged(Run(Start(), events[..|events| - 1]), events[|events| - 1]);
    }
  }

  lemma NextTagOf(n: nat)
    ensures NextTag(TagOf(n)) == TagOf(n + 1)
  {}

  lemma IssueTagged(c: Context)
    requires Tagged(c)
    ensures Tagged(Issue(c)) && c.issued <= Issue(c).issued && c.tagSource in Issue(c).issued
  {
    NextTagOf(|c.issued|);
    assert Issue(c).issued[|c.issued|] == c.tagSource;
    assert forall t :: t in c.issued ==> t in Issue(c).issued;
  }

  lemma StepTagged(c: Context, e: Event)
    requires Tagged(c)
    ensures Tagged(Step(c, e)) && c.issued <= Step(c, e).issued && |Step(c, e).issued| <= |c.issued| + 1
  {
    if e.RequestData? || e.RequestStation? {
      IssueTagged(c);
      assert Step(c, e).issued == Issue(c).issued && Step(c, e).tagSource == Issue(c).tagSource;
    }
  }

  lemma NearTagsDiffer(i: nat, j: nat)
    requires i < j < i + UINT32_MODULUS
    ensures TagOf(i) != TagOf(j)
  {
    SameTag(i, j);
  }

  /** Whatever is called in whatever order, fewer than 2^32 + 1 requests never get the same tag twice. */
  lemma TagsAreDistinct(events: seq<Event>)
    ensures var issued := Run(Start(), events).issued;
            |issued| <= UINT32_MODULUS ==> forall i, j :: 0 <= i < j < |issued| ==> issued[i] != issued[j]
  {
    RunTagged(events);
    var issued := Run(Start(), events).issued;
    if |issued| <= UINT32_MODULUS {
      forall i, j | 0 <= i < j < |issued|
        ensures issued[i] != issued[j]
      {
        NearTagsDiffer(i, j);
      }
    }
  }

  /** A tag that has been issued comes back only after a full round of the counter. */
  lemma FreshTag(c: Context)
    requires Tagged(c) && |c.issued| < UINT32_MODULUS
    ensures c.tagSource !in c.issued
  {
    forall i | 0 <= i < |c.issued|
      ensures c.issued[i] != c.tagSource
    {
      SameTag(i, |c.issued|);
    }
  }

  lemma {:induction false} RunIssues(c: Context, events: seq<Event>)
    requires Tagged(c)
    ensures Tagged(Run(c, events)) && c.issued <= Run(c, events).issued
  {
    if events != [] {
      RunIssues(c, events[..|events| - 1]);
      StepTagged(Run(c, events[..|events| - 1]), events[|events| - 1]);
    }
  }

  /** A closed tag finds no request again, so every query with it answers that there is no data. */
  lemma {:induction false} ClosedDataTag(c: Context, tag: Tag, events: seq<Event>)
    requires Tagged(c) && tag in c.issued
    requires |Run(Step(c, CloseData(tag)), events).issued| <= UINT32_MODULUS
    ensures tag !in Run(Step(c, CloseData(tag)), events).dataManagers
    decreases |events|
  {
    if events != [] {
      var front := events[..|events| - 1];
      var before := Run(Step(c, CloseData(tag)), front);
      RunIssues(Step(c, CloseData(tag)), front);
      StepTagged(before, events[|events| - 1]);
      ClosedDataTag(c, tag, front);
      if events[|events| - 1].RequestData? {
        FreshTag(before);
      }
    }
  }

  lemma {:induction false} ClosedStationTag(c: Context, tag: Tag, events: seq<Event>)
    requires Tagged(c) && tag in c.issued
    requires |Run(Step(c, CloseStation(tag)), events).issued| <= UINT32_MODULUS
    ensures tag !in Run(Step(c, CloseStation(tag)), events).requests
    decreases |events|
  {
    if events != [] {
      var front := events[..|events| - 1];
      var before := Run(Step(c, CloseStation(tag)), front);
      StepTagged(c, CloseStation(tag));
      RunIssues(Step(c, CloseStation(tag)), front);
      StepTagged(before, events[|events| - 1]);
      ClosedStationTag(c, tag, front);
      if events[|events| - 1].RequestStation? {
        FreshTag(before);
      }
    }
  }

  /** No tag is both a data tag and a base-station tag, before the counter wraps. */
  lemma {:induction false} KindsOfTagsApart(events: seq<Event>)
    requires |Run(Start(), events).issued| <= UINT32_MODULUS
    ensures Run(Start(), events).dataManagers.Keys !! Run(Start(), events).requests
  {
    if events != [] {
      var front := events[..|events| - 1];
      var before := Run(Start(), front);
      RunTagged(front);
      StepTagged(before, events[|events| - 1]);
      KindsOfTagsApart(front);
      if events[|events| - 1].RequestData? || events[|events| - 1].RequestStation? {
        FreshTag(before);
      }
    }
  }

  // ---------------------------------------------------------------------------------------------
  // What is open, from the calls alone
  // ---------------------------------------------------------------------------------------------

  function Taken(events: seq<Event>): nat {
    if events == [] then 0
    else
      var last := events[|events| - 1];
      Taken(events[..|events| - 1]) + if last.RequestData? || last.RequestStation? then 1 else 0
  }

  /** A base-station request was given the tag, and no later call has closed it. A request is given the tag that its
      number among all requests, of both kinds, leads to. */
  predicate StationOpen(events: seq<Event>, t: Tag) {
    events != [] &&
    var front, last := events[..|events| - 1], events[|events| - 1];
    (last.RequestStation? && TagOf(Taken(front)) == t) || (StationOpen(front, t) && last != CloseStation(t))
  }

  /** The last request for data that was given the tag, if no later call has closed it. */
  function DataOpen(events: seq<Event>, t: Tag): Option<nat> {
    if events == [] then None
    else
      var front, last := events[..|events| - 1], events[|events| - 1];
      if last.RequestData? && TagOf(Taken(front)) == t then Some(last.manager)
      else if last == CloseData(t) then None
      else DataOpen(front, t)
  }

  lemma {:induction false} IssuedIsTaken(events: seq<Event>)
    ensures |Run(Start(), events).issued| == Taken(events) && Run(Start(), events).tagSource == TagOf(Taken(events))
  {
    RunTagged(events);
    if events != [] {
      IssuedIsTaken(events[..|events| - 1]);
    }
  }

  /** Main result on tags: a tag is open for base-station data exactly if such a request was given it and no later call
      closed it, and it stands for a request exactly if that was the last one it was given for, and no later call closed
      it. */
  lemma {:induction false} OpenTags(events: seq<Event>, t: Tag)
    ensures t in Run(Start(), events).requests <==> StationOpen(events, t)
    ensures t in Run(Start(), events).dataManagers <==> DataOpen(events, t).Some?
    ensures t in Run(Start(), events).dataManagers ==>
              Run(Start(), events).dataManagers[t] == DataOpen(events, t).value
    decreases |events|
  {
    if events != [] {
      OpenTags(events[..|events| - 1], t);
      IssuedIsTaken(events[..|events| - 1]);
    }
  }

  // ---------------------------------------------------------------------------------------------
  // The shared base-station storage
  // ---------------------------------------------------------------------------------------------

  /** At most one storage is created. It is listed until it is closed, and while it is not listed it has no stream. */
  ghost predicate OneStation(c: Context) {
    && c.stations.created <= 1
    && c.shared == (if c.stations.created == 0 then None else Some(0))
    && (c.stations.list == [] || (c.stations.created == 1 && c.stations.list == [0]))
    && (forall s :: s in c.stations.streaming ==> s in c.stations.list)
    && (c.stations.created == 0 ==> c.requests == {})
  }

  lemma {:induction false} RunOneStation(events: seq<Event>)
    ensures OneStation(Run(Start(), events))
  {
    if events != [] {
      RunOneStation(events[..|events| - 1]);
    }
  }

  /** So in every run of a ClientContext the non-advancing loop returns when it is called. */
  lemma ContextCloseReturns(events: seq<Event>)
    ensures var c := Run(Start(), events);
            c.shared.Some? ==> exists rounds :: CloseLoop(c.stations.list, c.shared.value, rounds).Some?
  {
    RunOneStation(events);
    var c := Run(Start(), events);
    if c.shared.Some? {
      CloseLoopReturns(c.stations.list, c.shared.value);
    }
  }

  /** The shared storage exists but has been taken out of the list, so that nothing reopens its stream. */
  predicate Orphaned(c: Context) {
    c.shared.Some? && c.stations.list == []
  }

  /** Once orphaned it stays so: later requests get a tag, are answered from the old storage, and no stream feeds it. */
  lemma {:induction false} OrphanedForGood(c: Context, events: seq<Event>)
    requires OneStation(c) && Orphaned(c)
    ensures var r := Run(c, events); Orphaned(r) && r.shared == c.shared && OneStation(r) && r.stations.streaming == {}
  {
    if events != [] {
      OrphanedForGood(c, events[..|events| - 1]);
    }
  }

  predicate AnyStation(events: seq<Event>) {
    events != [] && (AnyStation(events[..|events| - 1]) || events[|events| - 1].RequestStation?)
  }

  ghost predicate NoneOpen(events: seq<Event>) {
    forall t: Tag :: !StationOpen(events, t)
  }

  /** Some call closed a tag, after the first base-station request, and left no base-station tag open. */
  ghost predicate AnyLastClose(events: seq<Event>) {
    events != [] &&
    var front, last := events[..|events| - 1], events[|events| - 1];
    AnyLastClose(front) || (last.CloseStation? && AnyStation(front) && NoneOpen(events))
  }

  lemma {:induction false} SharedIffAnyStation(events: seq<Event>)
    ensures Run(Start(), events).shared.Some? <==> AnyStation(events)
  {
    if events != [] {
      SharedIffAnyStation(events[..|events| - 1]);
    }
  }

  lemma NoTagsIff(events: seq<Event>)
    ensures Run(Start(), events).requests == {} <==> NoneOpen(events)
  {
    var requests := Run(Start(), events).requests;
    forall t: Tag
      ensures requests == {} ==> !StationOpen(events, t)
    {
      OpenTags(events, t);
    }
    if requests != {} {
      var t :| t in requests;
      OpenTags(events, t);
    }
  }

  /** Exactly when the storage is unlisted: some close left no base-station tag open. */
  lemma {:induction false} OrphanedIff(events: seq<Event>)
    ensures Orphaned(Run(Start(), events)) <==> AnyLastClose(events)
  {
    if events != [] {
      var front := events[..|events| - 1];
      OrphanedIff(front);
      SharedIffAnyStation(front);
      NoTagsIff(events);
      RunOneStation(front);
      StepOrphans(Run(Start(), front), events[|events| - 1]);
    }
  }

  lemma StepOrphans(c: Context, e: Event)
    requires OneStation(c)
    ensures Orphaned(Step(c, e)) <==>
            Orphaned(c) || (e.CloseStation? && c.shared.Some? && Step(c, e).requests == {})
  {}

  /** The storage has been given a stream, by the first request or when the channel became ready, and that stream has
      not ended since. */
  predicate Fed(events: seq<Event>) {
    events != [] &&
    var front, last := events[..|events| - 1], events[|events| - 1];
    || (if AnyStation(front) then last.ChannelReady? else last.RequestStation?)
    || (Fed(front) && last != StreamEnded(0))
  }

  lemma {:induction false} FedMeansAny(events: seq<Event>)
    ensures Fed(events) ==> AnyStation(events)
  {
    if events != [] {
      FedMeansAny(events[..|events| - 1]);
    }
  }

  /** The storage has a stream exactly while it is listed and fed. */
  lemma {:induction false} StreamingIff(events: seq<Event>)
    ensures Run(Start(), events).stations.streaming == if Fed(events) && !AnyLastClose(events) then {0} else {}
  {
    OrphanedIff(events);
    if events != [] {
      var front := events[..|events| - 1];
      StreamingIff(front);
      OrphanedIff(front);
      RunOneStation(front);
      SharedIffAnyStation(front);
      FedMeansAny(front);
    }
  }

  /** The shortest such run: the second request has an open tag and a storage without a stream, for ever. */
  lemma ReuseAfterClose(events: seq<Event>)
    ensures var c := Run(Run(Start(), [RequestStation, CloseStation(1), RequestStation]), events);
            c.shared == Some(0) && c.stations.created == 1 && c.stations.streaming == {}
    ensures 2 in Run(Start(), [RequestStation, CloseStation(1), RequestStation]).requests
  {
    var e := [RequestStation, CloseStation(1), RequestStation];
    assert e[..2] == [RequestStation, CloseStation(1)] && e[..2][..1] == [RequestStation] && e[..2][..1][..0] == [];
    var c1 := Run(Start(), [RequestStation]);
    assert c1 == Step(Run(Start(), []), RequestStation) == Step(Start(), RequestStation);
    var c2 := Run(Start(), e[..2]);
    assert c2 == Step(c1, CloseStation(1));
    assert c2.requests == {} && c2.stations.list == [] && c2.shared == Some(0);
    var c3 := Run(Start(), e);
    assert c3 == Step(c2, RequestStation);
    RunOneStation(e);
    OrphanedForGood(c3, events);
  }

  // ---------------------------------------------------------------------------------------------
  // The objects
  // ---------------------------------------------------------------------------------------------

  /** The base-station part of a ClientManager. */
  class BaseStationList {
    var list: seq<StorageId>
    var created: nat
    var streaming: set<StorageId>

    ghost function State(): BaseStations
      reads this
    {
      BaseStations(list, created, streaming)
    }

    constructor ()
      ensures State() == BaseStations([], 0, {})
    {
      list, created, streaming := [], 0, {};
    }

    method RequestBaseStationData() returns (storage: StorageId)
      modifies this
      ensures storage == old(created) && State() == WithStation(old(State()))
    {
      storage := created;
      created := created + 1;
      streaming := streaming + {storage};
      list := list + [storage];
    }

    /** The first `turns` turns of the loop as it is written: it looks at the same element again unless that one
        matches. done says whether it has returned by then. */
    method CloseBaseStationDataRequest(storage: Option<StorageId>, turns: nat) returns (done: bool)
      modifies this
      ensures storage.None? ==> done && State() == old(State())
      ensures storage.Some? ==> done == CloseLoop(old(list), storage.value, turns).Some?
      ensures storage.Some? && done ==>
                list == CloseLoop(old(list), storage.value, turns).value &&
                  State() == WithoutStation(old(State()), storage.value)
      ensures !done ==> State() == old(State())
    {
      if storage.None? {
        return true;
      }
      var it, turn := 0, 0;
      while it < |list| && turn < turns
        invariant it == 0 && turn <= turns && State() == old(State())
        invariant CloseLoop(list, storage.value, turns) == CloseLoop(list, storage.value, turns - turn)
      {
        if list[it] == storage.value {
          streaming := streaming - {storage.value};
          list := list[..it] + list[it + 1..];
          return true;
        }
        turn := turn + 1;
      }
      done := it == |list|;
    }
  }

  ghost function IdsOf(managers: map<Tag, DataManager>): map<Tag, nat> {
    map t | t in managers :: managers[t].id
  }

  ghost predicate OneRequestEach(managers: map<Tag, DataManager>, list: seq<DataManager>) {
    && (forall t :: t in managers ==> managers[t] in list)
    && (forall t, u :: t in managers && u in managers && managers[t] == managers[u] ==> t == u)
  }

  lemma OneMoreRequest(managers: map<Tag, DataManager>, list: seq<DataManager>, tag: Tag, manager: DataManager)
    requires OneRequestEach(managers, list) && manager !in list
    ensures OneRequestEach(managers[tag := manager], list + [manager])
  {}

  lemma OneRequestLess(managers: map<Tag, DataManager>, list: seq<DataManager>, tag: Tag, rest: seq<DataManager>)
    requires OneRequestEach(managers, list) && tag in managers
    requires forall x :: x in rest <==> x in list && x != managers[tag]
    ensures OneRequestEach(managers - {tag}, rest)
  {}

  class ClientContext {
    const clientManager: ClientManager
    const baseStations: BaseStationList
    var tagSource: Tag
    var dataManagers: map<Tag, DataManager>
    var baseStationDataStorage: Option<StorageId>
    var baseStationRequests: set<Tag>
    ghost var issued: seq<Tag>

    ghost function State(): Context
      reads this, baseStations
    {
      Context(tagSource, IdsOf(dataManagers), baseStationDataStorage, baseStationRequests, baseStations.State(), issued)
    }

    /** Every open tag stands for a request of its own in the list of the client manager. */
    ghost predicate Valid()
      reads this, clientManager, clientManager.table, clientManager.dataManagerList
    {
      && clientManager.Valid()
      && OneRequestEach(dataManagers, clientManager.dataManagerList)
    }

    constructor (env: RequestTracking.Environment)
      requires RequestTracking.Legal(env)
      ensures Valid() && State() == Start() && clientManager.World() == RequestTracking.Start()
    {
      clientManager := new ClientManager(env);
      baseStations := new BaseStationList();
      tagSource, dataManagers, baseStationDataStorage, baseStationRequests, issued := FIRST_TAG, map[], None, {}, [];
    }

    method NewTag() returns (tag: Tag)
      modifies this`tagSource, this`issued
      ensures tag == old(tagSource) && tagSource == NextTag(old(tagSource)) && issued == old(issued) + [tag]
    {
      tag := tagSource;
      tagSource := if tagSource == UINT32_MODULUS - 1 then 0 else tagSource + 1;
      issued := issued + [tag];
    }

    method RequestDeviceData(request: DataRequest) returns (tag: Tag)
      requires Valid()
      modifies this`tagSource, this`issued, this`dataManagers
      modifies clientManager`dataManagerList, clientManager`nextManager, clientManager.table
      ensures Valid() && tag == old(tagSource)
      ensures State() == Step(old(State()), RequestData(old(clientManager.nextManager)))
      ensures clientManager.World() ==
              RequestTracking.Step(clientManager.env, old(clientManager.World()),
                                   RequestTracking.RequestData(request, DeviceDataStream))
    {
      ghost var before := State();
      var manager := clientManager.RequestDeviceData(request);
      assert State() == before;
      assert OneRequestEach(dataManagers[tagSource := manager], clientManager.dataManagerList) by {
        OneMoreRequest(dataManagers, old(clientManager.dataManagerList), tagSource, manager);
      }
      tag := Register(manager);
    }

    method RequestDataFrame(request: DataRequest) returns (tag: Tag)
      requires Valid()
      modifies this`tagSource, this`issued, this`dataManagers
      modifies clientManager`dataManagerList, clientManager`nextManager, clientManager.table
      ensures Valid() && tag == old(tagSource)
      ensures State() == Step(old(State()), RequestData(old(clientManager.nextManager)))
      ensures clientManager.World() ==
              RequestTracking.Step(clientManager.env, old(clientManager.World()),
                                   RequestTracking.RequestData(request, DataFrameStream))
    {
      ghost var before := State();
      var manager := clientManager.RequestDataFrame(request);
      assert State() == before;
      assert OneRequestEach(dataManagers[tagSource := manager], clientManager.dataManagerList) by {
        OneMoreRequest(dataManagers, old(clientManager.dataManagerList), tagSource, manager);
      }
      tag := Register(manager);
    }

    method Register(manager: DataManager) returns (tag: Tag)
      modifies this`tagSource, this`issued, this`dataManagers
      ensures tag == old(tagSource) && dataManagers == old(dataManagers)[tag := manager]
      ensures State() == Step(old(State()), RequestData(manager.id))
      ensures clientManager.World() == old(clientManager.World()) &&
              (old(clientManager.Valid()) ==> clientManager.Valid())
    {
      tag := NewTag();
      dataManagers := dataManagers[tag := manager];
      assert IdsOf(dataManagers) == IdsOf(old(dataManagers))[tag := manager.id];
    }

    method CloseRequest(tag: Tag)
      requires Valid()
      modifies this`dataManagers, clientManager`dataManagerList, clientManager.table, dataManagers.Values
      ensures Valid()
      ensures State() == Step(old(State()), CloseData(tag))
      ensures clientManager.World() ==
              if tag in old(dataManagers) then
                RequestTracking.Step(clientManager.env, old(clientManager.World()),
                                     RequestTracking.CloseRequest(old(dataManagers)[tag].id))
              else old(clientManager.World())
    {
      if tag in dataManagers {
        CloseOpen(tag);
      } else {
        assert IdsOf(dataManagers) - {tag} == IdsOf(dataManagers);
      }
    }

    method CloseOpen(tag: Tag)
      requires Valid() && tag in dataManagers
      modifies this`dataManagers, clientManager`dataManagerList, clientManager.table, dataManagers[tag]
      ensures Valid()
      ensures State() == Step(old(State()), CloseData(tag))
      ensures clientManager.World() ==
              RequestTracking.Step(clientManager.env, old(clientManager.World()),
                                   RequestTracking.CloseRequest(old(dataManagers)[tag].id))
    {
      CloseListed(tag);
      Drop(tag);
    }

    /** The request leaves the client manager; its tag is still there. */
    method CloseListed(tag: Tag)
      requires Valid() && tag in dataManagers
      modifies clientManager`dataManagerList, clientManager.table, dataManagers[tag]
      ensures clientManager.Valid() && State() == old(State())
      ensures OneRequestEach(dataManagers - {tag}, clientManager.dataManagerList)
      ensures clientManager.World() ==
              RequestTracking.Step(clientManager.env, old(clientManager.World()),
                                   RequestTracking.CloseRequest(dataManagers[tag].id))
    {
      CloseInList(dataManagers[tag]);
      OneRequestLess(dataManagers, old(clientManager.dataManagerList), tag, clientManager.dataManagerList);
    }

    method CloseInList(m: DataManager)
      requires clientManager.Valid() && m in clientManager.dataManagerList
      modifies clientManager`dataManagerList, clientManager.table, m
      ensures clientManager.Valid() && State() == old(State())
      ensures forall x :: x in clientManager.dataManagerList <==> x in old(clientManager.dataManagerList) && x != m
      ensures clientManager.World() ==
              RequestTracking.Step(clientManager.env, old(clientManager.World()), RequestTracking.CloseRequest(m.id))
    {
      clientManager.CloseRequest(m);
    }

    method Drop(tag: Tag)
      modifies this`dataManagers
      ensures dataManagers == old(dataManagers) - {tag}
      ensures State() == Step(old(State()), CloseData(tag))
      ensures clientManager.World() == old(clientManager.World()) &&
              (old(clientManager.Valid()) ==> clientManager.Valid())
    {
      dataManagers := dataManagers - {tag};
      assert IdsOf(dataManagers) == IdsOf(old(dataManagers)) - {tag};
    }

    /** A query with a tag that is not open finds no request and answers that there is no data. */
    method GetLatestData(tag: Tag, device: DeviceId) returns (result: DataResponse<TrackingDeviceData>)
      requires tag in dataManagers ==> dataManagers[tag].Valid()
      ensures tag !in dataManagers || SdkUtils.Hash(device) !in dataManagers[tag].deviceDataMap ==>
                result == NoPackets()
      ensures tag in dataManagers && SdkUtils.Hash(device) in dataManagers[tag].deviceDataMap ==>
                var storage := dataManagers[tag].deviceDataMap[SdkUtils.Hash(device)];
                result == Latest(storage.log, Retained(|storage.log|, storage.bufferSize), 1)
    {
      result := NoPackets();
      if tag in dataManagers {
        result := dataManagers[tag].GetLatestData(device);
      }
    }

    method RequestBaseStationData() returns (tag: Tag)
      modifies this`tagSource, this`issued, this`baseStationDataStorage, this`baseStationRequests, baseStations
      ensures tag == old(tagSource) && State() == Step(old(State()), RequestStation)
      ensures old(OneStation(State())) ==> OneStation(State())
    {
      if baseStationDataStorage.None? {
        var storage := baseStations.RequestBaseStationData();
        baseStationDataStorage := Some(storage);
      }
      tag := NewTag();
      baseStationRequests := baseStationRequests + {tag};
    }

    /** The storage that the base-station queries answer from; without one they answer that there is no data. */
    method BaseStationFor(tag: Tag) returns (storage: Option<StorageId>)
      ensures storage == if tag in baseStationRequests then baseStationDataStorage else None
    {
      if baseStationDataStorage.None? || tag !in baseStationRequests {
        return None;
      }
      storage := baseStationDataStorage;
    }

    method CloseBaseStationDataRequest(tag: Tag)
      requires OneStation(State())
      modifies this`baseStationRequests, baseStations
      ensures State() == Step(old(State()), CloseStation(tag)) && OneStation(State())
    {
      baseStationRequests := baseStationRequests - {tag};
      if baseStationRequests == {} {
        var done := baseStations.CloseBaseStationDataRequest(baseStationDataStorage, 1);
        assert done;
      }
    }
  }
}
