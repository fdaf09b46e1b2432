/** EventFeed: the `EventRenderer` of index.ts, an insertion-ordered map from
    a counter id to an event. The JavaScript `Map` is modelled as the sequence
    of its (id, event) entries in insertion order; since ids only grow, the
    entries are sorted by id, which is what `WellKeyed` records. */
module EventFeed {
  import opened Events

  datatype Entry = Entry(id: nat, ev: Event)

  /** The value of a feed: its entries, the next id to hand out and the base
      lifetime given to events that inherit theirs. */
  datatype Feed = Feed(entries: seq<Entry>, nextId: nat, base: int)

  /** Ids strictly increase along the entries and are all below the counter:
      every id ever issued is below `next`, so `next` is unused. */
  ghost predicate WellKeyed(s: seq<Entry>, next: nat)
  {
    (forall i, j :: 0 <= i < j < |s| ==> s[i].id < s[j].id) &&
    (forall i :: 0 <= i < |s| ==> s[i].id < next)
  }

  /** The entries that `tick(now)` keeps, in their order. */
  function Expire(s: seq<Entry>, now: int): seq<Entry>
  {
    if s == [] then []
    else
      var rest := Expire(s[..|s| - 1], now);
      if Expired(s[|s| - 1].ev, now) then rest else rest + [s[|s| - 1]]
  }

  /** `add(event)` on a feed value. */
  function FeedAdd(f: Feed, e: Event): Feed
  {
    f.(entries := f.entries + [Entry(f.nextId, Resolve(e, f.base))], nextId := f.nextId + 1)
  }

  /** `tick(now)` on a feed value. */
  function FeedTick(f: Feed, now: int): Feed
  {
    f.(entries := Expire(f.entries, now))
  }

  /** `tick(now)` keeps exactly the entries that have not expired. */
  lemma {:induction false} ExpireMembers(s: seq<Entry>, now: int, x: Entry)
    ensures x in Expire(s, now) <==> x in s && !Expired(x.ev, now)
  {
    if s != [] {
      var init := s[..|s| - 1];
      ExpireMembers(init, now, x);
      assert s == init + [s[|s| - 1]];
    }
  }

  /** Every entry `tick` keeps was already there. */
  lemma {:induction false} ExpireDrops(s: seq<Entry>, now: int)
    ensures |Expire(s, now)| <= |s|
    ensures forall x :: x in Expire(s, now) ==> x in s
  {
    forall x | x in Expire(s, now) ensures x in s {
      ExpireMembers(s, now, x);
    }
    if s != [] {
      ExpireDrops(s[..|s| - 1], now);
    }
  }

  /** Survivors keep their relative order: `tick` keeps the entries sorted by
      id, and ids were handed out in insertion order. */
  lemma {:induction false} ExpireWellKeyed(s: seq<Entry>, now: int, next: nat)
    requires WellKeyed(s, next)
    ensures WellKeyed(Expire(s, now), next)
  {
    if s != [] {
      var init := s[..|s| - 1];
      assert WellKeyed(init, next);
      ExpireWellKeyed(init, now, next);
      var rest := Expire(init, now);
      forall x | x in rest ensures x.id < s[|s| - 1].id {
        ExpireMembers(init, now, x);
      }
      var r := Expire(s, now);
      if !Expired(s[|s| - 1].ev, now) {
        forall i, j | 0 <= i < j < |r| ensures r[i].id < r[j].id {
          if j == |r| - 1 {
            assert r[i] in rest;
          }
        }
      }
    }
  }

  /** Entries whose lifetime is not positive survive any elapsed time. */
  lemma NeverExpires(s: seq<Entry>, now: int, x: Entry)
    requires x in s && x.ev.life <= 0
    ensures x in Expire(s, now)
  {
    ExpireMembers(s, now, x);
  }

  /** When nothing has expired, `tick` changes nothing; in particular ticking
      an empty feed is a no-op. */
  lemma {:induction false} ExpireNothing(s: seq<Entry>, now: int)
    requires forall i :: 0 <= i < |s| ==> !Expired(s[i].ev, now)
    ensures Expire(s, now) == s
  {
    if s != [] {
      ExpireNothing(s[..|s| - 1], now);
    }
  }

  /** Ticking at `t1` and later at `t2` leaves what one tick at `t2` leaves;
      with `t1 == t2` this says `tick` is idempotent. */
  lemma {:induction false} ExpireLater(s: seq<Entry>, t1: int, t2: int)
    requires t1 <= t2
    ensures Expire(Expire(s, t1), t2) == Expire(s, t2)
  {
    if s != [] {
      var init := s[..|s| - 1];
      var last := s[|s| - 1];
      ExpireLater(init, t1, t2);
      if Expired(last.ev, t1) {
        ExpiredLater(last.ev, t1, t2);
      } else {
        var rest := Expire(init, t1);
        assert (rest + [last])[..|rest|] == rest;
      }
    }
  }

  /** `add` hands out the counter as the new id and keeps the feed well keyed:
      the new id differs from every id in the feed and the old entries stay
      as they were. */
  lemma AddFresh(f: Feed, e: Event)
    requires WellKeyed(f.entries, f.nextId)
    ensures WellKeyed(FeedAdd(f, e).entries, FeedAdd(f, e).nextId)
    ensures forall x :: x in f.entries ==> x.id != f.nextId
    ensures FeedAdd(f, e).entries[..|f.entries|] == f.entries
    ensures FeedAdd(f, e).entries[|f.entries|] == Entry(f.nextId, Resolve(e, f.base))
  {
  }

  /** An operation a caller can perform on a feed. */
  datatype FeedOp = AddOp(e: Event) | TickOp(now: int)

  function Run(f: Feed, ops: seq<FeedOp>): Feed
  {
    if ops == [] then f
    else
      var g := Run(f, ops[..|ops| - 1]);
      match ops[|ops| - 1]
      case AddOp(e) => FeedAdd(g, e)
      case TickOp(now) => FeedTick(g, now)
  }

  function AddCount(ops: seq<FeedOp>): nat
  {
    if ops == [] then 0
    else AddCount(ops[..|ops| - 1]) + (if ops[|ops| - 1].AddOp? then 1 else 0)
  }

  /** Over any mix of adds and ticks the counter grows by one per add, the base
      lifetime stays, and the feed stays well keyed: an id removed by `tick` is
      never handed out again. */
  lemma {:induction false} RunWellKeyed(f: Feed, ops: seq<FeedOp>)
    requires WellKeyed(f.entries, f.nextId)
    ensures Run(f, ops).nextId == f.nextId + AddCount(ops)
    ensures Run(f, ops).base == f.base
    ensures WellKeyed(Run(f, ops).entries, Run(f, ops).nextId)
  {
    if ops != [] {
      var g := Run(f, ops[..|ops| - 1]);
      RunWellKeyed(f, ops[..|ops| - 1]);
      match ops[|ops| - 1]
      case AddOp(e) => AddFresh(g, e);
      case TickOp(now) => ExpireWellKeyed(g.entries, now, g.nextId);
    }
  }

  /** On a new feed, adds alone store the k-th added event under id k, with its
      lifetime resolved against the base. */
  lemma {:induction false} IdsFromZero(base: int, es: seq<Event>)
    ensures var f := Run(Feed([], 0, base), seq(|es|, i requires 0 <= i < |es| => AddOp(es[i])));
      |f.entries| == |es| && f.nextId == |es| && f.base == base &&
      forall k :: 0 <= k < |es| ==> f.entries[k] == Entry(k, Resolve(es[k], base))
  {
    var ops := seq(|es|, i requires 0 <= i < |es| => AddOp(es[i]));
    if es != [] {
      var init := es[..|es| - 1];
      IdsFromZero(base, init);
      assert ops[..|ops| - 1] == seq(|init|, i requires 0 <= i < |init| => AddOp(init[i]));
      var g := Run(Feed([], 0, base), ops[..|ops| - 1]);
      var f := Run(Feed([], 0, base), ops);
      assert f == FeedAdd(g, es[|es| - 1]);
      forall k | 0 <= k < |es| ensures f.entries[k] == Entry(k, Resolve(es[k], base)) {
        if k < |init| {
          assert f.entries[k] == g.entries[k];
          assert init[k] == es[k];
        }
      }
    }
  }

  /** `Expire` over one more element of the prefix. */
  lemma ExpireStep(s: seq<Entry>, i: nat, now: int)
    requires i < |s|
    ensures Expire(s[..i + 1], now) ==
      Expire(s[..i], now) + (if Expired(s[i].ev, now) then [] else [s[i]])
  {
    assert s[..i + 1][..i] == s[..i];
  }

  /** `Map.delete` of the entry at position `k`. */
  function Delete(s: seq<Entry>, k: nat): seq<Entry>
    requires k < |s|
  {
    s[..k] + s[k + 1..]
  }

  /** One step of `tick`'s loop: deleting the visited entry when it has
      expired keeps the stored entries equal to the expired-filtered visited
      prefix followed by the unvisited rest. */
  lemma TickStep(visiting: seq<Entry>, i: nat, now: int, entries: seq<Entry>)
    requires i < |visiting|
    requires entries == Expire(visiting[..i], now) + visiting[i..]
    ensures var k := |entries| - (|visiting| - i);
      0 <= k < |entries| &&
      if Expired(visiting[i].ev, now)
      then Delete(entries, k) == Expire(visiting[..i + 1], now) + visiting[i + 1..]
      else entries == Expire(visiting[..i + 1], now) + visiting[i + 1..]
  {
    var kept := Expire(visiting[..i], now);
    ExpireStep(visiting, i, now);
    assert visiting[i..] == [visiting[i]] + visiting[i + 1..];
    var k := |kept|;
    assert entries[..k] == kept;
    assert entries[k + 1..] == visiting[i + 1..];
  }

  /** One line of `render()`: the event's text and its age (the seconds
      formatting is not modelled). */
  datatype Line = Line(text: Text, age: int)

  class EventRenderer {
    var entries: seq<Entry>
    var nextId: nat
    const baseLifetime: int

    ghost predicate Valid()
      reads this
    {
      WellKeyed(entries, nextId)
    }

    function Model(): Feed
      reads this
    {
      Feed(entries, nextId, baseLifetime)
    }

    constructor (baseLifetime: int)
      ensures Valid()
      ensures entries == [] && nextId == 0 && this.baseLifetime == baseLifetime
    {
      entries := [];
      nextId := 0;
      this.baseLifetime := baseLifetime;
    }

    /** Resolves an inheriting lifetime, then stores the event under the
        post-incremented counter. */
    method Add(e: Event)
      requires Valid()
      modifies this
      ensures Valid()
      ensures entries == old(entries) + [Entry(old(nextId), Resolve(e, baseLifetime))]
      ensures nextId == old(nextId) + 1
    {
      var ev := e;
      if ev.life == InheritLifetime {
        ev := ev.(life := baseLifetime);
      }
      entries := entries + [Entry(nextId, ev)];
      nextId := nextId + 1;
    }

    /** Visits the entries in insertion order and deletes each one that has
        expired at `now`. */
    method Tick(now: int)
      requires Valid()
      modifies this
      ensures Valid()
      ensures entries == Expire(old(entries), now)
      ensures nextId == old(nextId)
    {
      ghost var visiting := entries;
      Sweep(now);
      ExpireWellKeyed(visiting, now, nextId);
    }

    /** The loop of `tick`: deleting from the map while iterating over it
        visits every entry once, in insertion order. */
    method Sweep(now: int)
      modifies this
      ensures entries == Expire(old(entries), now)
      ensures nextId == old(nextId)
    {
      var visiting := entries;
      var i := 0;
      while i < |visiting|
        invariant 0 <= i <= |visiting|
        invariant entries == Expire(visiting[..i], now) + visiting[i..]
        invariant nextId == old(nextId)
      {
        ghost var next := Expire(visiting[..i + 1], now) + visiting[i + 1..];
        if Expired(visiting[i].ev, now) {
          var k := |entries| - (|visiting| - i);
          assert 0 <= k < |entries| && Delete(entries, k) == next by {
            TickStep(visiting, i, now, entries);
          }
          entries := Delete(entries, k);
        } else {
          assert entries == next by {
            TickStep(visiting, i, now, entries);
          }
        }
        i := i + 1;
      }
      assert visiting[..i] == visiting;
    }

    /** The lines `render()` prints: the stored events newest first. */
    method Render(now: int) returns (lines: seq<Line>)
      ensures |lines| == |entries|
      ensures forall k :: 0 <= k < |entries| ==>
        var x := entries[|entries| - 1 - k].ev; lines[k] == Line(x.text, Duration(x, now))
    {
      var values := entries;
      lines := [];
      var i := |values|;
      while i > 0
        invariant 0 <= i <= |values|
        invariant |lines| == |values| - i
        invariant forall k :: 0 <= k < |lines| ==>
          var x := values[|values| - 1 - k].ev; lines[k] == Line(x.text, Duration(x, now))
      {
        i := i - 1;
        lines := lines + [Line(values[i].ev.text, Duration(values[i].ev, now))];
      }
    }
  }
}
