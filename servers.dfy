/** Servers: the `ServerManager` of index.ts, which registers server
    addresses under ids 1, 2, ... and runs the poll cycle `pingAll`, and the
    start-up sequence of the script. The network query `protocol.ping` is not
    modelled: a cycle receives the reply each server gives, in id order. */
module Servers {
  import opened Events
  import opened EventFeed
  import opened Advertisements

  datatype Address = Address(host: string, port: int)

  /** How `protocol.ping(address)` settles: with the server's snapshot, or
      with a failure (any reason) caught at clock reading `at`. */
  datatype Reply = Answered(ad: Snapshot) | Failed(at: int)

  /** The configuration record (times in milliseconds). */
  datatype Config = Config(
    addresses: seq<Address>,
    pingRate: int,
    renderRate: int,
    globalEventLifetime: int,
    serverEventLifetime: int)

  /** The configuration written when none exists. */
  const DefaultConfig: Config := Config([], 1000 * 20, 50, 1000 * 30, 1000 * 200)

  /** Poll intervals below this get a warning in the global feed. */
  const MinPingRate: int := 1000 * 3

  /** One server's turn in `pingAll`, on the registry's and the global feed's
      values: mark it refreshing, then record the snapshot, or mark the error
      and add a failure notice to the global feed. */
  function PollOne(g: Registry, f: Feed, id: int, address: Address, reply: Reply): (Registry, Feed)
  {
    var refreshing := WithStatus(g, id, Refresh);
    match reply
    case Answered(s) => (SetAd(refreshing, id, s), f)
    case Failed(at) => (WithStatus(refreshing, id, Error), FeedAdd(f, PingFailure(address.host, address.port, at)))
  }

  /** The registry and global feed after the turns of servers 1 to `k`. */
  function Polled(g: Registry, f: Feed, servers: map<int, Address>, replies: seq<Reply>, k: nat): (Registry, Feed)
    requires k <= |replies|
    requires forall id :: 1 <= id <= k ==> id in servers
  {
    if k == 0 then (g, f)
    else
      var (g1, f1) := Polled(g, f, servers, replies, k - 1);
      PollOne(g1, f1, k, servers[k], replies[k - 1])
  }

  /** The turn of server `k` extends the turns of servers 1 to `k - 1`. */
  lemma PolledStep(g: Registry, f: Feed, servers: map<int, Address>, replies: seq<Reply>, k: nat, before: (Registry, Feed))
    requires 1 <= k <= |replies|
    requires forall id :: 1 <= id <= k ==> id in servers
    requires before == Polled(g, f, servers, replies, k - 1)
    ensures Polled(g, f, servers, replies, k) == PollOne(before.0, before.1, k, servers[k], replies[k - 1])
  {
  }

  /** The number of failed replies among the first `k`. */
  function FailureCount(replies: seq<Reply>, k: nat): nat
    requires k <= |replies|
  {
    if k == 0 then 0 else FailureCount(replies, k - 1) + (if replies[k - 1].Failed? then 1 else 0)
  }

  /** The record a server's turn starts from. */
  function Prior(g: Registry, id: int): Record
  {
    if id in g.ads then g.ads[id] else FreshRecord(g.lifetime)
  }

  /** How a server's turn leaves its record `r`, started from `p`: 'none' with
      the snapshots shifted when the server answered, 'error' with them kept
      when it did not, and the record's feed untouched. */
  ghost predicate Outcome(r: Record, p: Record, reply: Reply)
  {
    r.feed == p.feed &&
    match reply
    case Answered(s) => r.status == Idle && r.ad == Some(s) && r.lastAd == p.ad
    case Failed(_) => r.status == Error && r.ad == p.ad && r.lastAd == p.lastAd
  }

  /** One server's turn registers its id, leaves the other records and the
      iteration order's other ids alone, and ends in 'none' with the snapshots
      shifted when the server answered, in 'error' with them kept when it did
      not; the record's feed is untouched. */
  lemma PollOneSpec(g: Registry, f: Feed, id: int, address: Address, reply: Reply)
    requires Ordered(g)
    ensures var h := PollOne(g, f, id, address, reply).0; var p := Prior(g, id);
      Ordered(h) && h.lifetime == g.lifetime &&
      (forall j :: j in h.ads <==> j in g.ads || j == id) &&
      (forall j :: j in g.ads && j != id ==> h.ads[j] == g.ads[j]) &&
      Outcome(h.ads[id], p, reply)
  {
    WithStatusSpec(g, id, Refresh);
    var refreshing := WithStatus(g, id, Refresh);
    assert Prior(refreshing, id).(status := Prior(g, id).status) == Prior(g, id);
    match reply
    case Answered(s) => SetAdSpec(refreshing, id, s);
    case Failed(at) => WithStatusSpec(refreshing, id, Error);
  }

  /** The turns of servers 1 to `k` register exactly those ids, keep the
      iteration order well formed and leave every other record alone. */
  lemma {:induction false} PolledOthers(g: Registry, f: Feed, servers: map<int, Address>, replies: seq<Reply>, k: nat)
    requires k <= |replies|
    requires forall id :: 1 <= id <= k ==> id in servers
    requires Ordered(g)
    ensures var h := Polled(g, f, servers, replies, k).0;
      Ordered(h) && h.lifetime == g.lifetime &&
      (forall j :: j in h.ads <==> j in g.ads || 1 <= j <= k) &&
      (forall j :: j in g.ads && !(1 <= j <= k) ==> h.ads[j] == g.ads[j])
  {
    if k > 0 {
      var (g1, f1) := Polled(g, f, servers, replies, k - 1);
      PolledOthers(g, f, servers, replies, k - 1);
      PollOneSpec(g1, f1, k, servers[k], replies[k - 1]);
    }
  }

  /** After the turns of servers 1 to `k`, server `id` (one of them) is 'none'
      with the new snapshot current and its old current snapshot previous when
      its reply came back, and 'error' with both snapshots kept when it
      failed. Its feed is untouched either way. */
  lemma {:induction false} PolledOutcome(g: Registry, f: Feed, servers: map<int, Address>, replies: seq<Reply>, k: nat, id: int)
    requires k <= |replies|
    requires forall j :: 1 <= j <= k ==> j in servers
    requires Ordered(g)
    requires 1 <= id <= k
    ensures var h := Polled(g, f, servers, replies, k).0;
      id in h.ads && Outcome(h.ads[id], Prior(g, id), replies[id - 1])
  {
    var g1 := Polled(g, f, servers, replies, k - 1).0;
    var f1 := Polled(g, f, servers, replies, k - 1).1;
    var h := Polled(g, f, servers, replies, k).0;
    assert h == PollOne(g1, f1, k, servers[k], replies[k - 1]).0;
    PolledOthers(g, f, servers, replies, k - 1);
    PollOneSpec(g1, f1, k, servers[k], replies[k - 1]);
    if id < k {
      PolledOutcome(g, f, servers, replies, k - 1, id);
      assert h.ads[id] == g1.ads[id];
    } else {
      assert Prior(g1, k) == Prior(g, k);
    }
  }

  /** The failure notice server `id`'s failed reply leaves in a global feed
      of base lifetime `base`. */
  function Notice(servers: map<int, Address>, replies: seq<Reply>, id: int, base: int): Event
    requires id in servers && 1 <= id <= |replies| && replies[id - 1].Failed?
  {
    Resolve(PingFailure(servers[id].host, servers[id].port, replies[id - 1].at), base)
  }

  /** The global feed after the turns: one ping-failure notice per failed
      reply, with the global lifetime, appended after the events already
      there; answered replies add nothing. */
  lemma {:induction false} PolledFeed(g: Registry, f: Feed, servers: map<int, Address>, replies: seq<Reply>, k: nat)
    requires k <= |replies|
    requires forall id :: 1 <= id <= k ==> id in servers
    requires WellKeyed(f.entries, f.nextId)
    ensures var h := Polled(g, f, servers, replies, k).1;
      h.base == f.base && WellKeyed(h.entries, h.nextId) &&
      h.nextId == f.nextId + FailureCount(replies, k) &&
      |h.entries| == |f.entries| + FailureCount(replies, k) &&
      h.entries[..|f.entries|] == f.entries &&
      (forall i :: |f.entries| <= i < |h.entries| ==>
        h.entries[i].ev.text.PingFailed? && h.entries[i].ev.life == f.base)
  {
    if k > 0 {
      var g1 := Polled(g, f, servers, replies, k - 1).0;
      var f1 := Polled(g, f, servers, replies, k - 1).1;
      PolledFeed(g, f, servers, replies, k - 1);
      var h := Polled(g, f, servers, replies, k).1;
      assert h == PollOne(g1, f1, k, servers[k], replies[k - 1]).1;
      if replies[k - 1].Failed? {
        var e := PingFailure(servers[k].host, servers[k].port, replies[k - 1].at);
        assert h == FeedAdd(f1, e);
        AddFresh(f1, e);
        assert h.entries[..|f1.entries|] == f1.entries;
        assert h.entries[..|f.entries|] == f1.entries[..|f.entries|];
      }
    }
  }

  /** Failed reply `id` adds its own notice, naming that server's host and
      port: it sits behind the events already there and the notices of the
      earlier failures, under the id the feed's counter then had. A failure
      does not stop the cycle. */
  lemma {:induction false} PolledNotices(g: Registry, f: Feed, servers: map<int, Address>, replies: seq<Reply>, k: nat, id: int)
    requires k <= |replies|
    requires forall j :: 1 <= j <= k ==> j in servers
    requires WellKeyed(f.entries, f.nextId)
    requires 1 <= id <= k && replies[id - 1].Failed?
    ensures var h := Polled(g, f, servers, replies, k).1; var n := FailureCount(replies, id - 1);
      |f.entries| + n < |h.entries| &&
      h.entries[|f.entries| + n] == Entry(f.nextId + n, Notice(servers, replies, id, f.base))
  {
    var g1 := Polled(g, f, servers, replies, k - 1).0;
    var f1 := Polled(g, f, servers, replies, k - 1).1;
    var h := Polled(g, f, servers, replies, k).1;
    assert h == PollOne(g1, f1, k, servers[k], replies[k - 1]).1;
    PolledFeed(g, f, servers, replies, k - 1);
    if id == k {
      var e := PingFailure(servers[k].host, servers[k].port, replies[k - 1].at);
      assert h == FeedAdd(f1, e);
    } else {
      PolledNotices(g, f, servers, replies, k - 1, id);
      if replies[k - 1].Failed? {
        var e := PingFailure(servers[k].host, servers[k].port, replies[k - 1].at);
        assert h == FeedAdd(f1, e);
        assert h.entries[..|f1.entries|] == f1.entries;
      }
    }
  }

  /** The end of a whole cycle, `checkUpdates` included: every registered
      server is 'none' if it answered and 'error' if it did not. */
  lemma CycleStatus(g: Registry, f: Feed, servers: map<int, Address>, replies: seq<Reply>, now: int, id: int)
    requires forall j :: 1 <= j <= |replies| ==> j in servers
    requires Ordered(g)
    requires 1 <= id <= |replies|
    ensures var h := CheckAll(Polled(g, f, servers, replies, |replies|).0, now);
      id in h.ads && (h.ads[id].status == Idle <==> replies[id - 1].Answered?) &&
      (h.ads[id].status == Error <==> replies[id - 1].Failed?)
  {
    var p := Polled(g, f, servers, replies, |replies|).0;
    PolledOutcome(g, f, servers, replies, |replies|, id);
    CheckAllSpec(p, now);
  }

  /** A server registered alone answers 5 players online, then 8: after the
      second cycle its feed holds exactly one event, "joined x3". */
  lemma JoinedScenario(address: Address, a: Snapshot, b: Snapshot, lifetime: int, f: Feed, t1: int, t2: int)
    requires a.playersOnline == 5 && b.playersOnline == 8
    ensures var servers := map[1 := address];
      var g0 := Registry(map[], [], lifetime);
      var (g1, f1) := Polled(g0, f, servers, [Answered(a)], 1);
      var c1 := CheckAll(g1, t1);
      var (g2, f2) := Polled(c1, f1, servers, [Answered(b)], 1);
      var c2 := CheckAll(g2, t2);
      1 in c2.ads && |c2.ads[1].feed.entries| == 1 && c2.ads[1].feed.entries[0].ev.text == Joined(3)
  {
    var servers := map[1 := address];
    var g0 := Registry(map[], [], lifetime);
    var (g1, f1) := Polled(g0, f, servers, [Answered(a)], 1);
    assert Polled(g0, f, servers, [Answered(a)], 0) == (g0, f);
    assert (g1, f1) == PollOne(g0, f, 1, address, Answered(a));
    PollOneSpec(g0, f, 1, address, Answered(a));
    assert g1.ads[1] == Record(Some(a), None, Idle, Feed([], 0, lifetime));
    var c1 := CheckAll(g1, t1);
    CheckAllSpec(g1, t1);
    assert c1.ads[1] == g1.ads[1];
    var (g2, f2) := Polled(c1, f1, servers, [Answered(b)], 1);
    assert Polled(c1, f1, servers, [Answered(b)], 0) == (c1, f1);
    assert (g2, f2) == PollOne(c1, f1, 1, address, Answered(b));
    PollOneSpec(c1, f1, 1, address, Answered(b));
    assert g2.ads[1] == Record(Some(b), Some(a), Idle, Feed([], 0, lifetime));
    var c2 := CheckAll(g2, t2);
    CheckAllSpec(g2, t2);
    CheckRecordSpec(g2.ads[1], t2);
  }

  /** A server whose first ping fails is in 'error' and the global feed gains
      one failure notice; when the next ping answers it is back to 'none' with
      a current snapshot but no previous one, so no diff is made. */
  lemma FailureScenario(address: Address, s: Snapshot, lifetime: int, t0: int, t1: int, t2: int)
    ensures var servers := map[1 := address];
      var g0 := Registry(map[], [], lifetime);
      var f0 := Feed([], 0, 30000);
      var (g1, f1) := Polled(g0, f0, servers, [Failed(t0)], 1);
      var c1 := CheckAll(g1, t1);
      var (g2, f2) := Polled(c1, f1, servers, [Answered(s)], 1);
      var c2 := CheckAll(g2, t2);
      c1.ads[1].status == Error &&
      f1.entries == [Entry(0, Event(PingFailed(address.host, address.port), 30000, t0))] &&
      c2.ads[1].status == Idle && c2.ads[1].ad == Some(s) && c2.ads[1].lastAd == None &&
      c2.ads[1].feed.entries == [] && f2 == f1
  {
    var servers := map[1 := address];
    var g0 := Registry(map[], [], lifetime);
    var f0 := Feed([], 0, 30000);
    var (g1, f1) := Polled(g0, f0, servers, [Failed(t0)], 1);
    assert Polled(g0, f0, servers, [Failed(t0)], 0) == (g0, f0);
    assert (g1, f1) == PollOne(g0, f0, 1, address, Failed(t0));
    PollOneSpec(g0, f0, 1, address, Failed(t0));
    assert g1.ads[1] == Record(None, None, Error, Feed([], 0, lifetime));
    var c1 := CheckAll(g1, t1);
    CheckAllSpec(g1, t1);
    assert c1.ads[1] == g1.ads[1];
    var (g2, f2) := Polled(c1, f1, servers, [Answered(s)], 1);
    assert Polled(c1, f1, servers, [Answered(s)], 0) == (c1, f1);
    assert (g2, f2) == PollOne(c1, f1, 1, address, Answered(s));
    PollOneSpec(c1, f1, 1, address, Answered(s));
    assert g2.ads[1] == Record(Some(s), None, Idle, Feed([], 0, lifetime));
    var c2 := CheckAll(g2, t2);
    CheckAllSpec(g2, t2);
    CheckRecordSpec(g2.ads[1], t2);
  }

  /** The global feed right after start-up: the interval warning, built with
      the inherit sentinel, when the poll interval is under three seconds. */
  function StartupFeed(cfg: Config, startedAt: int): Feed
  {
    var empty := Feed([], 0, cfg.globalEventLifetime);
    if cfg.pingRate < MinPingRate then FeedAdd(empty, NewEvent(IntervalWarning, startedAt)) else empty
  }

  /** The warning takes the global event lifetime, so it is not permanent:
      a tick removes it exactly when that lifetime is positive and has passed. */
  lemma WarningLifetime(cfg: Config, startedAt: int, now: int)
    ensures var f := StartupFeed(cfg, startedAt);
      (cfg.pingRate < MinPingRate <==> f.entries != []) &&
      (cfg.pingRate < MinPingRate ==>
        f.entries == [Entry(0, Event(IntervalWarning, cfg.globalEventLifetime, startedAt))] &&
        (Expire(f.entries, now) == [] <==>
          cfg.globalEventLifetime > 0 && now - startedAt > cfg.globalEventLifetime))
  {
    var f := StartupFeed(cfg, startedAt);
    if cfg.pingRate < MinPingRate {
      assert f.entries[..0] == [];
    }
  }

  class ServerManager {
    const renderer: ServerAdvertisementManager
    var servers: map<int, Address>
    var nextId: nat
    const interval: int
    const eventRenderer: EventRenderer

    ghost predicate Valid()
      reads this, renderer, renderer.Repr, eventRenderer
    {
      renderer.Valid() && eventRenderer.Valid() &&
      eventRenderer !in renderer.Repr && this !in renderer.Repr &&
      (forall id :: id in servers <==> 1 <= id <= nextId)
    }

    /** The poll timer is not modelled. */
    constructor (interval: int, eventRenderer: EventRenderer, serverEventLifetime: int)
      requires eventRenderer.Valid()
      ensures Valid() && fresh(renderer) && fresh(renderer.Repr)
      ensures servers == map[] && nextId == 0
      ensures this.interval == interval && this.eventRenderer == eventRenderer
      ensures renderer.Model() == Registry(map[], [], serverEventLifetime)
    {
      renderer := new ServerAdvertisementManager(serverEventLifetime);
      servers := map[];
      nextId := 0;
      this.interval := interval;
      this.eventRenderer := eventRenderer;
    }

    /** Stores the address under the pre-incremented counter. */
    method Register(address: Address)
      requires Valid()
      modifies this
      ensures Valid()
      ensures nextId == old(nextId) + 1 && servers == old(servers)[nextId := address]
    {
      nextId := nextId + 1;
      servers := servers[nextId := address];
    }

    /** One server's turn in `pingAll`: mark it refreshing, then record the
        reply, or mark the error and add the failure notice to the global
        feed. */
    method PollServer(id: int, address: Address, reply: Reply)
      requires Valid()
      modifies renderer.Repr, eventRenderer
      ensures Valid() && fresh(renderer.Repr - old(renderer.Repr))
      ensures (renderer.Model(), eventRenderer.Model()) ==
        PollOne(old(renderer.Model()), old(eventRenderer.Model()), id, address, reply)
    {
      renderer.MarkRefreshing(id);
      match reply {
        case Answered(s) =>
          renderer.Set(id, s);
        case Failed(at) =>
          renderer.MarkError(id);
          eventRenderer.Add(PingFailure(address.host, address.port, at));
      }
    }

    /** One poll cycle: the servers in id order, each taking its turn, and
        `checkUpdates` once at the end. A failed reply does not stop the
        cycle. */
    method PingAll(replies: seq<Reply>, now: int)
      requires Valid() && |replies| == nextId
      modifies renderer.Repr, eventRenderer
      ensures Valid() && fresh(renderer.Repr - old(renderer.Repr))
      ensures var (g, f) := Polled(old(renderer.Model()), old(eventRenderer.Model()), servers, replies, nextId);
        renderer.Model() == CheckAll(g, now) && eventRenderer.Model() == f
      ensures nextId == 0 ==>
        renderer.Model() == CheckAll(old(renderer.Model()), now) && eventRenderer.Model() == old(eventRenderer.Model())
    {
      PollEach(replies);
      renderer.CheckUpdates(now);
    }

    /** The loop of `pingAll`: every registered server takes its turn, in id
        order. */
    method PollEach(replies: seq<Reply>)
      requires Valid() && |replies| == nextId
      modifies renderer.Repr, eventRenderer
      ensures Valid() && fresh(renderer.Repr - old(renderer.Repr))
      ensures (renderer.Model(), eventRenderer.Model()) ==
        Polled(old(renderer.Model()), old(eventRenderer.Model()), servers, replies, nextId)
    {
      ghost var g0 := renderer.Model();
      ghost var f0 := eventRenderer.Model();
      var id := 1;
      while id <= nextId
        invariant 1 <= id <= nextId + 1
        invariant Valid() && fresh(renderer.Repr - old(renderer.Repr))
        invariant (renderer.Model(), eventRenderer.Model()) == Polled(g0, f0, servers, replies, id - 1)
      {
        ghost var before := Polled(g0, f0, servers, replies, id - 1);
        PollServer(id, servers[id], replies[id - 1]);
        PolledStep(g0, f0, servers, replies, id, before);
        id := id + 1;
      }
    }
  }

  /** The script's start-up: the global feed, the manager, the interval
      warning and the registration of the configured addresses in order. The
      first `pingAll` that follows is `Launch`. */
  method Startup(cfg: Config, startedAt: int) returns (sm: ServerManager)
    ensures fresh(sm) && fresh(sm.eventRenderer) && sm.Valid()
    ensures fresh(sm.renderer) && fresh(sm.renderer.Repr)
    ensures sm.interval == cfg.pingRate
    ensures sm.nextId == |cfg.addresses|
    ensures forall id :: id in sm.servers <==> 1 <= id <= |cfg.addresses|
    ensures forall i :: 0 <= i < |cfg.addresses| ==> sm.servers[i + 1] == cfg.addresses[i]
    ensures sm.renderer.Model() == Registry(map[], [], cfg.serverEventLifetime)
    ensures sm.eventRenderer.Model() == StartupFeed(cfg, startedAt)
  {
    var globalEventRenderer := new EventRenderer(cfg.globalEventLifetime);
    sm := new ServerManager(cfg.pingRate, globalEventRenderer, cfg.serverEventLifetime);
    if sm.interval < MinPingRate {
      globalEventRenderer.Add(NewEvent(IntervalWarning, startedAt));
    }
    var addresses := cfg.addresses;
    for i := 0 to |addresses|
      invariant sm.Valid() && sm.nextId == i
      invariant fresh(sm.renderer) && fresh(sm.renderer.Repr)
      invariant forall i' :: 0 <= i' < i ==> sm.servers[i' + 1] == addresses[i']
      invariant sm.renderer.Model() == Registry(map[], [], cfg.serverEventLifetime)
      invariant sm.eventRenderer.Model() == StartupFeed(cfg, startedAt)
    {
      sm.Register(addresses[i]);
    }
  }

  /** The whole script up to its first poll: start-up, then one `pingAll`
      cycle over the registered servers with the replies they give. */
  method Launch(cfg: Config, startedAt: int, replies: seq<Reply>, now: int) returns (sm: ServerManager)
    requires |replies| == |cfg.addresses|
    ensures fresh(sm) && sm.Valid()
    ensures forall id :: id in sm.servers <==> 1 <= id <= |cfg.addresses|
    ensures forall i :: 0 <= i < |cfg.addresses| ==> sm.servers[i + 1] == cfg.addresses[i]
    ensures var (g, f) := Polled(Registry(map[], [], cfg.serverEventLifetime), StartupFeed(cfg, startedAt), sm.servers, replies, |replies|);
      sm.renderer.Model() == CheckAll(g, now) && sm.eventRenderer.Model() == f
  {
    sm := Startup(cfg, startedAt);
    sm.PingAll(replies, now);
  }

  /** With the default configuration (a 20 s poll interval) start-up adds no
      warning. */
  lemma DefaultStartup(startedAt: int)
    ensures DefaultConfig.pingRate >= MinPingRate
    ensures StartupFeed(DefaultConfig, startedAt) == Feed([], 0, DefaultConfig.globalEventLifetime)
  {
  }
}
