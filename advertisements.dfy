/** Advertisements: the per-server records of index.ts
    (`ServerAdvertisementRenderer`) and the registry that creates them on
    first use (`ServerAdvertisementManager`). Each record holds the current
    and the previous status snapshot ("advertisement") of one server, its
    update status and its own event feed; `checkUpdates` diffs the two
    snapshots into "joined"/"left" events. */
module Advertisements {
  import opened Events
  import opened EventFeed

  datatype Option<T> = None | Some(value: T)

  /** A server's status report. Only `playersOnline` is looked at. */
  datatype Snapshot = Snapshot(motd: string, playersOnline: int, playersMax: int, version: string)

  /** `AdvertisementUpdateStatus`: 'none' is `Idle`, 'refresh' is `Refresh`,
      'error' is `Error`. */
  datatype Status = Idle | Refresh | Error

  /** The value of one `ServerAdvertisementRenderer`. */
  datatype Record = Record(ad: Option<Snapshot>, lastAd: Option<Snapshot>, status: Status, feed: Feed)
  {
    /** `isCompleted()`: both snapshots are present. */
    predicate Completed()
    {
      ad.Some? && lastAd.Some?
    }
  }

  /** A record as its constructor leaves it. */
  function FreshRecord(lifetime: int): Record
  {
    Record(None, None, Idle, Feed([], 0, lifetime))
  }

  /** What `set(id, ad)` does to the record: status back to 'none', the
      current snapshot becomes the previous one, `s` the current one. */
  function Shift(r: Record, s: Snapshot): Record
  {
    r.(status := Idle, lastAd := r.ad, ad := Some(s))
  }

  /** When `checkUpdates` adds a `player_diff` event to a record's feed. */
  predicate DiffDue(r: Record)
  {
    r.Completed() && r.status != Error &&
    r.ad.value.playersOnline != r.lastAd.value.playersOnline
  }

  /** A failed poll keeps the previous current snapshot, so the next answer
      is diffed against the snapshot from before the error. */
  lemma DiffAfterError(r: Record, b: Snapshot)
    requires r.ad.Some? && r.status == Error
    ensures var r2 := Shift(r, b);
      !DiffDue(r) && r2.lastAd == r.ad &&
      (DiffDue(r2) <==> b.playersOnline != r.ad.value.playersOnline)
  {
  }

  /** What one iteration of `checkUpdates` does to a record. */
  function CheckRecord(r: Record, now: int): Record
  {
    var t := r.(feed := FeedTick(r.feed, now));
    if r.ad.None? || r.lastAd.None? then t
    else if r.status == Error then t
    else
      var playerDiff := r.ad.value.playersOnline - r.lastAd.value.playersOnline;
      if Abs(playerDiff) > 0 then t.(feed := FeedAdd(t.feed, PlayerDiff(playerDiff, now))) else t
  }

  /** `checkUpdates` ticks the record's feed and then adds exactly one event,
      and only when a diff is due: a "joined" event for a gain, a "left" event
      for a loss, reporting the change, with the feed's base lifetime and the
      next id. The snapshots and the status are left alone. */
  lemma CheckRecordSpec(r: Record, now: int)
    ensures var c := CheckRecord(r, now); var kept := Expire(r.feed.entries, now);
      c.ad == r.ad && c.lastAd == r.lastAd && c.status == r.status &&
      c.feed.base == r.feed.base &&
      |c.feed.entries| == |kept| + (if DiffDue(r) then 1 else 0) &&
      c.feed.entries[..|kept|] == kept &&
      c.feed.nextId == r.feed.nextId + (if DiffDue(r) then 1 else 0) &&
      (DiffDue(r) ==>
        var d := r.ad.value.playersOnline - r.lastAd.value.playersOnline;
        var x := c.feed.entries[|kept|];
        x.id == r.feed.nextId &&
        Delta(x.ev.text) == d && (x.ev.text.Joined? <==> d > 0) && (x.ev.text.Left? <==> d < 0) &&
        x.ev.life == r.feed.base && x.ev.createdAt == now)
  {
  }

  /** The value of a `ServerAdvertisementManager`: the records by server id,
      the ids in insertion order (the `Map`'s iteration order) and the base
      lifetime that new records' feeds get. */
  datatype Registry = Registry(ads: map<int, Record>, order: seq<int>, lifetime: int)

  /** The ids in `order` are those of `ads`, each once. */
  ghost predicate Ordered(g: Registry)
  {
    (forall id :: id in g.ads <==> id in g.order) &&
    (forall i, j :: 0 <= i < j < |g.order| ==> g.order[i] != g.order[j])
  }

  /** `get(id)`: get-or-create. */
  function Touch(g: Registry, id: int): Registry
  {
    if id in g.ads then g
    else g.(ads := g.ads[id := FreshRecord(g.lifetime)], order := g.order + [id])
  }

  /** `markRefreshing(id)` and `markError(id)`. */
  function WithStatus(g: Registry, id: int, st: Status): Registry
  {
    var t := Touch(g, id);
    t.(ads := t.ads[id := t.ads[id].(status := st)])
  }

  /** `set(id, s)`. */
  function SetAd(g: Registry, id: int, s: Snapshot): Registry
  {
    var t := Touch(g, id);
    t.(ads := t.ads[id := Shift(t.ads[id], s)])
  }

  /** `set` first resets the status through one `get(id)`, then shifts the
      snapshots through a second one; together that is `SetAd`. */
  lemma SetAdAfterStatus(g: Registry, id: int, s: Snapshot)
    ensures var g1 := WithStatus(g, id, Idle);
      SetAd(g, id, s) == g1.(ads := g1.ads[id := Shift(g1.ads[id], s)])
  {
    var t := Touch(g, id);
    var g1 := WithStatus(g, id, Idle);
    assert Shift(g1.ads[id], s) == Shift(t.ads[id], s);
    assert g1.ads[id := Shift(g1.ads[id], s)] == t.ads[id := Shift(t.ads[id], s)];
  }

  /** `checkUpdates(now)`. */
  function CheckAll(g: Registry, now: int): Registry
  {
    g.(ads := map id | id in g.ads :: CheckRecord(g.ads[id], now))
  }

  /** One iteration of `checkUpdates`' loop, on the registry's values: the
      records visited so far are checked, the others untouched. */
  lemma CheckStep(m0: map<int, Record>, before: map<int, Record>, done: seq<int>, id: int, now: int)
    requires id in m0 && before.Keys == m0.Keys
    requires forall j :: j in m0 ==> before[j] == if j in done then CheckRecord(m0[j], now) else m0[j]
    ensures var after := before[id := CheckRecord(m0[id], now)];
      after.Keys == m0.Keys &&
      forall j :: j in m0 ==> after[j] == if j in done + [id] then CheckRecord(m0[j], now) else m0[j]
  {
  }

  /** After `get(id)` the id is registered; a fresh record was made, and its id
      appended to the iteration order, exactly when it was absent; every other
      entry is unchanged. */
  lemma TouchSpec(g: Registry, id: int)
    requires Ordered(g)
    ensures var h := Touch(g, id);
      Ordered(h) && id in h.ads && h.lifetime == g.lifetime &&
      (id in g.ads ==> h == g) &&
      (id !in g.ads ==> h.ads[id] == FreshRecord(g.lifetime) && h.order == g.order + [id]) &&
      (forall j :: j in g.ads ==> j in h.ads && h.ads[j] == g.ads[j]) &&
      (forall j :: j in h.ads ==> j == id || j in g.ads)
  {
  }

  /** `markRefreshing` and `markError` change only that record's status. */
  lemma WithStatusSpec(g: Registry, id: int, st: Status)
    requires Ordered(g)
    ensures var h := WithStatus(g, id, st); var r := Touch(g, id).ads[id];
      Ordered(h) && id in h.ads &&
      h.order == Touch(g, id).order && h.lifetime == g.lifetime &&
      h.ads[id] == Record(r.ad, r.lastAd, st, r.feed) &&
      (forall j :: j in g.ads && j != id ==> j in h.ads && h.ads[j] == g.ads[j]) &&
      (forall j :: j in h.ads ==> j == id || j in g.ads)
  {
  }

  /** `set(id, s)` resets the status, moves the current snapshot to the
      previous one and stores `s`; the feed and the other records stay. */
  lemma SetAdSpec(g: Registry, id: int, s: Snapshot)
    requires Ordered(g)
    ensures var h := SetAd(g, id, s);
      Ordered(h) && id in h.ads &&
      h.order == Touch(g, id).order && h.lifetime == g.lifetime &&
      h.ads[id].status == Idle && h.ads[id].ad == Some(s) &&
      h.ads[id].lastAd == (if id in g.ads then g.ads[id].ad else None) &&
      h.ads[id].feed == (if id in g.ads then g.ads[id].feed else Feed([], 0, g.lifetime)) &&
      (forall j :: j in g.ads && j != id ==> j in h.ads && h.ads[j] == g.ads[j]) &&
      (forall j :: j in h.ads ==> j == id || j in g.ads)
  {
  }

  /** After `set(id, a); set(id, b)` the previous snapshot is `a`, the current
      one `b`, and the record is completed. */
  lemma SetTwice(g: Registry, id: int, a: Snapshot, b: Snapshot)
    ensures var r := SetAd(SetAd(g, id, a), id, b).ads[id];
      r.lastAd == Some(a) && r.ad == Some(b) && r.status == Idle && r.Completed()
  {
  }

  /** `checkUpdates` touches every record and only its feed, as
      `CheckRecordSpec` says; keys and order stay. */
  lemma CheckAllSpec(g: Registry, now: int)
    ensures var h := CheckAll(g, now);
      h.ads.Keys == g.ads.Keys && h.order == g.order && h.lifetime == g.lifetime &&
      forall id :: id in g.ads ==>
        h.ads[id] == CheckRecord(g.ads[id], now) &&
        h.ads[id].ad == g.ads[id].ad && h.ads[id].lastAd == g.ads[id].lastAd &&
        h.ads[id].status == g.ads[id].status
  {
    forall id | id in g.ads ensures CheckAll(g, now).ads[id].status == g.ads[id].status {
      CheckRecordSpec(g.ads[id], now);
    }
  }

  class ServerAdvertisementRenderer {
    var ad: Option<Snapshot>
    var lastAd: Option<Snapshot>
    var status: Status
    const events: EventRenderer

    ghost predicate Valid()
      reads this, events
    {
      events.Valid()
    }

    function Model(): Record
      reads this, events
    {
      Record(ad, lastAd, status, events.Model())
    }

    /** The feed's base lifetime is the configured `server_event_lifetime`,
        passed in. */
    constructor (serverEventLifetime: int)
      ensures Valid() && fresh(events)
      ensures Model() == FreshRecord(serverEventLifetime)
    {
      ad := None;
      lastAd := None;
      events := new EventRenderer(serverEventLifetime);
      status := Idle;
    }

    method Tick(now: int)
      requires Valid()
      modifies events
      ensures Valid()
      ensures Model() == old(Model()).(feed := FeedTick(old(Model()).feed, now))
    {
      events.Tick(now);
    }
  }

  class ServerAdvertisementManager {
    var ads: map<int, ServerAdvertisementRenderer>
    /** The keys of `ads` in insertion order. */
    var order: seq<int>
    const serverEventLifetime: int
    ghost var Repr: set<object>

    ghost predicate Valid()
      reads this, Repr
    {
      this in Repr &&
      (forall id :: id in ads ==>
        ads[id] in Repr && ads[id].events in Repr && ads[id].Valid()) &&
      (forall i, j :: i in ads && j in ads && i != j ==>
        ads[i] != ads[j] && ads[i].events != ads[j].events) &&
      (forall id :: id in ads <==> id in order) &&
      (forall i, j :: 0 <= i < j < |order| ==> order[i] != order[j])
    }

    ghost function Model(): Registry
      reads this, Repr
      requires Valid()
    {
      Registry(map id | id in ads :: ads[id].Model(), order, serverEventLifetime)
    }

    constructor (serverEventLifetime: int)
      ensures Valid() && fresh(Repr)
      ensures Model() == Registry(map[], [], serverEventLifetime)
    {
      ads := map[];
      order := [];
      this.serverEventLifetime := serverEventLifetime;
      Repr := {this};
    }

    /** Writing the fields of the record under `id`, or changing its feed,
        changes the registry's value at `id` only. */
    twostate lemma RecordWritten(id: int)
      requires old(Valid()) && id in old(ads)
      requires unchanged(this) && ads[id].Valid()
      requires forall j :: j in ads && j != id ==> unchanged(ads[j], ads[j].events)
      ensures Valid()
      ensures Model() == old(Model()).(ads := old(Model()).ads[id := ads[id].Model()])
    {
      var now, was := Model().ads, old(Model()).ads;
      assert now.Keys == was.Keys;
      forall j | j in now ensures now[j] == was[id := ads[id].Model()][j] {
        if j != id {
          assert ads[j].Model() == old(ads[j].Model());
        }
      }
      assert now == was[id := ads[id].Model()];
    }

    method Get(id: int) returns (r: ServerAdvertisementRenderer)
      requires Valid()
      modifies this
      ensures Valid() && fresh(Repr - old(Repr))
      ensures id in ads && r == ads[id]
      ensures Model() == Touch(old(Model()), id)
      ensures id in old(ads) ==> ads == old(ads) && order == old(order) && Repr == old(Repr)
    {
      if id in ads {
        r := ads[id];
      } else {
        r := new ServerAdvertisementRenderer(serverEventLifetime);
        ads := ads[id := r];
        order := order + [id];
        Repr := Repr + {r, r.events};
      }
    }

    method MarkRefreshing(id: int)
      requires Valid()
      modifies Repr
      ensures Valid() && fresh(Repr - old(Repr))
      ensures Model() == WithStatus(old(Model()), id, Refresh)
    {
      var r := Get(id);
      label got:
      r.status := Refresh;
      RecordWritten@got(id);
    }

    method MarkError(id: int)
      requires Valid()
      modifies Repr
      ensures Valid() && fresh(Repr - old(Repr))
      ensures Model() == WithStatus(old(Model()), id, Error)
    {
      var r := Get(id);
      label got:
      r.status := Error;
      RecordWritten@got(id);
    }

    method Set(id: int, s: Snapshot)
      requires Valid()
      modifies Repr
      ensures Valid() && fresh(Repr - old(Repr))
      ensures Model() == SetAd(old(Model()), id, s)
    {
      ghost var g0 := Model();
      var r := Get(id);
      label got:
      r.status := Idle;
      RecordWritten@got(id);
      ghost var g1 := Model();
      var last := Get(id);
      label again:
      last.lastAd := last.ad;
      last.ad := Some(s);
      RecordWritten@again(id);
      SetAdAfterStatus(g0, id, s);
    }

    /** One iteration of `checkUpdates`: tick the feed of the record under
        `id`, then add the `player_diff` event if a diff is due. */
    method CheckOne(id: int, now: int)
      requires Valid() && id in ads
      modifies Repr
      ensures Valid() && Repr == old(Repr) && ads == old(ads) && order == old(order)
      ensures Model() == old(Model()).(ads := old(Model()).ads[id := CheckRecord(old(Model()).ads[id], now)])
    {
      var adr := ads[id];
      ghost var r0 := adr.Model();
      label start:
      adr.Tick(now);
      RecordWritten@start(id);
      ghost var ticked := adr.Model();
      assert ticked == r0.(feed := FeedTick(r0.feed, now));
      if adr.ad.None? || adr.lastAd.None? {
        return;
      }
      if adr.status == Error {
        return;
      }
      var playerDiff := adr.ad.value.playersOnline - adr.lastAd.value.playersOnline;
      if Abs(playerDiff) > 0 {
        ghost var mid := Model();
        label add:
        adr.events.Add(PlayerDiff(playerDiff, now));
        RecordWritten@add(id);
        assert adr.Model() == ticked.(feed := FeedAdd(ticked.feed, PlayerDiff(playerDiff, now)));
        assert mid.ads[id := adr.Model()] == old(Model()).ads[id := adr.Model()];
      }
    }

    /** Visits the records in insertion order, ticking each feed and adding a
        `player_diff` event to those that are completed, not in error and
        whose player count changed. */
    method CheckUpdates(now: int)
      requires Valid()
      modifies Repr
      ensures Valid() && Repr == old(Repr)
      ensures Model() == CheckAll(old(Model()), now)
    {
      ghost var m0 := Model().ads;
      for i := 0 to |order|
        invariant Valid() && Repr == old(Repr) && ads == old(ads) && order == old(order)
        invariant Model().ads.Keys == m0.Keys && Model().order == old(order)
        invariant Model().lifetime == serverEventLifetime
        invariant forall j :: j in m0 ==>
          Model().ads[j] == if j in order[..i] then CheckRecord(m0[j], now) else m0[j]
      {
        var id := order[i];
        ghost var before := Model().ads;
        assert before[id] == m0[id] by {
          assert id !in order[..i];
        }
        assert order[..i + 1] == order[..i] + [id];
        CheckOne(id, now);
        CheckStep(m0, before, order[..i], id, now);
      }
      assert order[..|order|] == order;
      forall j | j in m0 ensures Model().ads[j] == CheckRecord(m0[j], now) {
        assert j in ads;
      }
      assert Model().ads == CheckAll(old(Model()), now).ads;
    }
  }
}
