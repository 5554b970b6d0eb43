/** The in-memory pub/sub replay buffer (api/pubsub.py): trimmed on every publish, yet
    equal to the full log for any client that reconnects within the buffer time. */
module PubSub {
  import opened Wrappers
  import opened Sequences

  const REPLAY_BUFFER_SECONDS := 60.0

  datatype Item = Item(event: string, timestamp: real)

  function NoOlderThan(cutoff: real): Item -> bool {
    (i: Item) => i.timestamp >= cutoff
  }

  /** One publish: append with clock reading `t`, then trim by a second reading `t'`. */
  function Publish(channel: seq<Item>, event: string, t: real, t': real): seq<Item> {
    Filter(channel + [Item(event, t)], NoOlderThan(t' - REPLAY_BUFFER_SECONDS))
  }

  /** `since or (now - 60)`: an absent or zero `since` asks for the buffer time. */
  function Since(since: Option<real>, now: real): real {
    if since.Some? && since.value != 0.0 then since.value else now - REPLAY_BUFFER_SECONDS
  }

  function Replay(channel: seq<Item>, since: Option<real>, now: real): seq<Item> {
    Filter(channel, NoOlderThan(Since(since, now)))
  }

  class InMemoryPubSub {
    var channels: map<string, seq<Item>>

    function Channel(tenant: string): seq<Item>
      reads this
    {
      if tenant in channels then channels[tenant] else []
    }

    constructor ()
      ensures channels == map[]
    {
      channels := map[];
    }

    method PublishEvent(tenant: string, event: string, t: real, t': real)
      modifies this
      ensures Channel(tenant) == Publish(old(Channel(tenant)), event, t, t')
      ensures forall other :: other != tenant ==> Channel(other) == old(Channel(other))
    {
      var appended := Channel(tenant) + [Item(event, t)];
      channels := channels[tenant := appended];
      var cutoff := t' - REPLAY_BUFFER_SECONDS;
      var kept: seq<Item> := [];
      for i := 0 to |appended|
        invariant kept == Filter(appended[..i], NoOlderThan(cutoff))
        invariant channels == old(channels)[tenant := appended]
      {
        assert appended[..i + 1][..i] == appended[..i];
        if appended[i].timestamp >= cutoff {
          kept := kept + [appended[i]];
        }
      }
      assert appended[..|appended|] == appended;
      channels := channels[tenant := kept];
    }

    method GetReplay(tenant: string, since: Option<real>, now: real) returns (items: seq<Item>)
      ensures items == Replay(Channel(tenant), since, now)
    {
      items := Filter(Channel(tenant), NoOlderThan(Since(since, now)));
    }
  }

  // ----- runs ---------------------------------------------------------------

  datatype Publication = Publication(tenant: string, event: string, t: real, t': real)

  /** The clock never runs backwards, within a publish or between two. */
  ghost predicate ClockOk(ps: seq<Publication>) {
    && (forall i :: 0 <= i < |ps| ==> ps[i].t <= ps[i].t')
    && (forall i, j :: 0 <= i < j < |ps| ==> ps[i].t' <= ps[j].t)
  }

  /** The trimmed channel of one tenant after all publishes. */
  function Trimmed(ps: seq<Publication>, tenant: string): seq<Item> {
    if ps == [] then []
    else
      var p := ps[|ps| - 1];
      var before := Trimmed(ps[..|ps| - 1], tenant);
      if p.tenant == tenant then Publish(before, p.event, p.t, p.t') else before
  }

  /** Everything ever published to the tenant. */
  function Full(ps: seq<Publication>, tenant: string): seq<Item> {
    if ps == [] then []
    else
      var p := ps[|ps| - 1];
      var before := Full(ps[..|ps| - 1], tenant);
      if p.tenant == tenant then before + [Item(p.event, p.t)] else before
  }

  /** The cutoff of the tenant's last trim. */
  function LastCutoff(ps: seq<Publication>, tenant: string): Option<real> {
    if ps == [] then None
    else if ps[|ps| - 1].tenant == tenant then Some(ps[|ps| - 1].t' - REPLAY_BUFFER_SECONDS)
    else LastCutoff(ps[..|ps| - 1], tenant)
  }

  lemma {:induction false} FilterTighter(s: seq<Item>, loose: real, tight: real)
    requires loose <= tight
    ensures Filter(Filter(s, NoOlderThan(loose)), NoOlderThan(tight)) == Filter(s, NoOlderThan(tight))
  {
    if s != [] {
      var front, last := s[..|s| - 1], s[|s| - 1];
      FilterTighter(front, loose, tight);
      FilterConcat(Filter(front, NoOlderThan(loose)), [last], NoOlderThan(tight));
    }
  }

  lemma {:induction false} CutoffBefore(ps: seq<Publication>, tenant: string, now: real)
    requires ClockOk(ps) && forall i :: 0 <= i < |ps| ==> ps[i].t' <= now
    ensures LastCutoff(ps, tenant).Some? ==> LastCutoff(ps, tenant).value <= now - REPLAY_BUFFER_SECONDS
  {
    if ps != [] && ps[|ps| - 1].tenant != tenant {
      CutoffBefore(ps[..|ps| - 1], tenant, now);
    }
  }

  /** Trimming again and again amounts to one trim of the full log at the last cutoff. */
  lemma {:induction false} TrimmedIsFullSinceCutoff(ps: seq<Publication>, tenant: string)
    requires ClockOk(ps)
    ensures match LastCutoff(ps, tenant)
            case None => Trimmed(ps, tenant) == [] && Full(ps, tenant) == []
            case Some(cutoff) => Trimmed(ps, tenant) == Filter(Full(ps, tenant), NoOlderThan(cutoff))
  {
    if ps != [] {
      var front, p := ps[..|ps| - 1], ps[|ps| - 1];
      TrimmedIsFullSinceCutoff(front, tenant);
      if p.tenant == tenant {
        var cutoff := p.t' - REPLAY_BUFFER_SECONDS;
        var x := Item(p.event, p.t);
        FilterConcat(Trimmed(front, tenant), [x], NoOlderThan(cutoff));
        FilterConcat(Full(front, tenant), [x], NoOlderThan(cutoff));
        if LastCutoff(front, tenant).Some? {
          CutoffBefore(front, tenant, p.t');
          FilterTighter(Full(front, tenant), LastCutoff(front, tenant).value, cutoff);
        }
      }
    }
  }

  lemma ReplayFromCutoff(ps: seq<Publication>, tenant: string, since: Option<real>, now: real)
    requires ClockOk(ps) && forall i :: 0 <= i < |ps| ==> ps[i].t' <= now
    requires Since(since, now) >= now - REPLAY_BUFFER_SECONDS
    ensures Replay(Trimmed(ps, tenant), since, now) == Filter(Full(ps, tenant), NoOlderThan(Since(since, now)))
  {
    TrimmedIsFullSinceCutoff(ps, tenant);
    CutoffBefore(ps, tenant, now);
    if LastCutoff(ps, tenant).Some? {
      FilterTighter(Full(ps, tenant), LastCutoff(ps, tenant).value, Since(since, now));
    }
  }

  /** The replay refines the full log: a request from within the last 60 seconds brings
      back exactly what was ever published from then on, in order; an absent `since`,
      or one of 0.0, brings back exactly the last 60 seconds. */
  lemma ReplayIsComplete(ps: seq<Publication>, tenant: string, since: Option<real>, now: real)
    requires ClockOk(ps) && forall i :: 0 <= i < |ps| ==> ps[i].t' <= now
    ensures since == None || since == Some(0.0) ==>
              Replay(Trimmed(ps, tenant), since, now) ==
                  Filter(Full(ps, tenant), NoOlderThan(now - 60.0))
    ensures since.Some? && since.value != 0.0 && since.value >= now - 60.0 ==>
              Replay(Trimmed(ps, tenant), since, now) == Filter(Full(ps, tenant), NoOlderThan(since.value))
  {
    if Since(since, now) >= now - REPLAY_BUFFER_SECONDS {
      ReplayFromCutoff(ps, tenant, since, now);
    }
  }

  /** Which events come back, for every request: those published to the tenant that none of
      its publishes found older than 60 seconds, and that are no older than `since`, or than
      60 seconds if `since` is absent or zero. */
  lemma ReplayReturnsIff(ps: seq<Publication>, tenant: string, since: Option<real>, now: real, x: Item)
    requires ClockOk(ps)
    ensures x in Replay(Trimmed(ps, tenant), since, now) <==>
            && (exists i :: 0 <= i < |ps| && ps[i].tenant == tenant && x == Item(ps[i].event, ps[i].t))
            && (forall i :: 0 <= i < |ps| && ps[i].tenant == tenant ==> x.timestamp >= ps[i].t' - 60.0)
            && x.timestamp >= if since == None || since == Some(0.0) then now - 60.0 else since.value
  {
    TrimmedIsFullSinceCutoff(ps, tenant);
    CutoffIsLatest(ps, tenant);
    FilterMember(Trimmed(ps, tenant), NoOlderThan(Since(since, now)), x);
    FullMember(ps, tenant, x);
    if LastCutoff(ps, tenant).Some? {
      FilterMember(Full(ps, tenant), NoOlderThan(LastCutoff(ps, tenant).value), x);
    }
  }

  lemma {:induction false} CutoffIsLatest(ps: seq<Publication>, tenant: string)
    requires ClockOk(ps)
    ensures match LastCutoff(ps, tenant)
            case None => forall i :: 0 <= i < |ps| ==> ps[i].tenant != tenant
            case Some(cutoff) =>
              && (exists i :: 0 <= i < |ps| && ps[i].tenant == tenant && cutoff == ps[i].t' - 60.0)
              && (forall i :: 0 <= i < |ps| && ps[i].tenant == tenant ==> cutoff >= ps[i].t' - 60.0)
  {
    if ps != [] {
      var last := |ps| - 1;
      if ps[last].tenant == tenant {
        assert forall i :: 0 <= i < last ==> ps[i].t' <= ps[last].t <= ps[last].t';
      } else {
        var front := ps[..last];
        CutoffIsLatest(front, tenant);
        assert forall i :: 0 <= i < last ==> front[i] == ps[i];
      }
    }
  }

  lemma {:induction false} FullMember(ps: seq<Publication>, tenant: string, x: Item)
    ensures x in Full(ps, tenant) <==>
              exists i :: 0 <= i < |ps| && ps[i].tenant == tenant && x == Item(ps[i].event, ps[i].t)
  {
    if ps != [] {
      var front := ps[..|ps| - 1];
      FullMember(front, tenant, x);
      assert forall i :: 0 <= i < |front| ==> front[i] == ps[i];
    }
  }

  /** The full log of a tenant is its publications, in order. */
  lemma FullAppends(ps: seq<Publication>, p: Publication, tenant: string)
    ensures Full([], tenant) == []
    ensures Full(ps + [p], tenant) == Full(ps, tenant) + if p.tenant == tenant then [Item(p.event, p.t)] else []
  {
    assert (ps + [p])[..|ps|] == ps;
  }

  /** A request from 0.0 on loses exactly the held events older than 60 seconds. */
  lemma ZeroSinceLosesIff(ps: seq<Publication>, tenant: string, now: real, x: Item)
    requires ClockOk(ps) && x in Trimmed(ps, tenant)
    ensures x !in Replay(Trimmed(ps, tenant), Some(0.0), now) <==> x.timestamp < now - 60.0
  {
    FilterMember(Trimmed(ps, tenant), NoOlderThan(now - REPLAY_BUFFER_SECONDS), x);
  }

  lemma FilterOne(x: Item, p: Item -> bool)
    ensures Filter([x], p) == if p(x) then [x] else []
  {
    assert [x][..0] == [];
  }

  /** One publish at 100, a request at 200: nothing from 0.0 on, the event from 0.5 on. */
  lemma ZeroSinceIsNotEarliest(tenant: string, event: string)
    ensures var held := Trimmed([Publication(tenant, event, 100.0, 100.0)], tenant);
            && Replay(held, Some(0.0), 200.0) == []
            && Replay(held, Some(0.5), 200.0) == [Item(event, 100.0)]
  {
    var p, x := Publication(tenant, event, 100.0, 100.0), Item(event, 100.0);
    assert [p][..0] == [];
    assert Trimmed([p], tenant) == Publish([], event, 100.0, 100.0);
    FilterOne(x, NoOlderThan(40.0));
    assert [] + [x] == [x];
    FilterOne(x, NoOlderThan(140.0));
    FilterOne(x, NoOlderThan(0.5));
  }
}
