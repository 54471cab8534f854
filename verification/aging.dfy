/** TTL aging, shared by the dynamic split excludes (cleaned every 300 s) and
    the temporary DNS watches (cleaned every 10 s).

    A refreshed entry is marked as updated. Each cleanup first only removes
    that mark; later ones take the interval off the TTL and delete the entry
    when less than one interval is left. */
module Aging {
  import opened Wrappers
  import opened Prefixes

  type uint32 = x: int | 0 <= x < 0x1_0000_0000

  datatype Entry = Entry(ttl: uint32, updated: bool)

  function Fresh(ttl: uint32): Entry {
    Entry(ttl, true)
  }

  /** What one cleanup makes of an entry; None when it is deleted. The unsigned
      subtraction stays in range because of the guard before it. */
  function Tick(e: Entry, interval: uint32): (r: Option<Entry>)
    ensures r.Some? ==> !r.value.updated && r.value.ttl <= e.ttl
  {
    if e.updated then Some(Entry(e.ttl, false))
    else if e.ttl < interval then None
    else Some(Entry(e.ttl - interval, false))
  }

  /** The effect of one cleanup on a whole map of entries. */
  function Cleaned<K>(m: map<K, Entry>, interval: uint32): map<K, Entry> {
    map k | k in m && Tick(m[k], interval).Some? :: Tick(m[k], interval).value
  }

  /** The effect of n cleanups on one entry. */
  function AfterTicks(e: Entry, interval: uint32, n: nat): Option<Entry>
    decreases n
  {
    if n == 0 then Some(e)
    else match Tick(e, interval)
         case None => None
         case Some(next) => AfterTicks(next, interval, n - 1)
  }

  /** How many more cleanups an entry survives. */
  function Lives(e: Entry, interval: uint32): nat
    requires interval > 0
  {
    e.ttl / interval + if e.updated then 1 else 0
  }

  lemma TickLives(e: Entry, interval: uint32)
    requires interval > 0
    ensures Tick(e, interval).Some? <==> Lives(e, interval) > 0
    ensures Tick(e, interval).Some? ==> Lives(Tick(e, interval).value, interval) == Lives(e, interval) - 1
  {
    DivStep(e.ttl, interval);
  }

  lemma DivStep(t: nat, i: nat)
    requires i > 0
    ensures t / i == if t < i then 0 else (t - i) / i + 1
  {
    if t < i {
      DivisionIs(t, i, 0);
    } else {
      var q := (t - i) / i;
      assert t - i == q * i + (t - i) % i;
      DivisionIs(t, i, q + 1);
    }
  }

  lemma DivisionIs(t: nat, i: nat, q: nat)
    requires i > 0 && q * i <= t < (q + 1) * i
    ensures t / i == q
  {
    var r := t / i;
    assert t == r * i + t % i;
    if r < q {
      LastBlock(r, q, i);
    } else if r > q {
      LastBlock(q, r, i);
    }
  }

  /** An entry refreshed with TTL t survives exactly floor(t / interval) + 1 cleanups. */
  lemma {:induction false} SurvivesExactly(e: Entry, interval: uint32, n: nat)
    requires interval > 0
    ensures AfterTicks(e, interval, n).Some? <==> n <= Lives(e, interval)
    decreases n
  {
    TickLives(e, interval);
    if n > 0 && Tick(e, interval).Some? {
      SurvivesExactly(Tick(e, interval).value, interval, n - 1);
    }
  }

  /** The number of cleanups done up to `now` when the first one after the
      refresh is at `first` and they come every `interval` seconds. */
  function CleanupsBy(now: int, first: int, interval: uint32): nat
    requires interval > 0
  {
    if now < first then 0 else (now - first) / interval + 1
  }

  /** In wall-clock time: an entry refreshed at `at` with TTL t is still there
      t seconds later, and is gone t + 2 * interval seconds later. */
  lemma WallClock(ttl: uint32, interval: uint32, at: int, first: int, now: int)
    requires interval > 0 && at <= first <= at + interval
    ensures now <= at + ttl ==> AfterTicks(Fresh(ttl), interval, CleanupsBy(now, first, interval)).Some?
    ensures now >= at + ttl + 2 * interval ==> AfterTicks(Fresh(ttl), interval, CleanupsBy(now, first, interval)).None?
  {
    SurvivesExactly(Fresh(ttl), interval, CleanupsBy(now, first, interval));
    if now >= first {
      if now <= at + ttl {
        DivMonotone(now - first, ttl, interval);
      }
      if now >= at + ttl + 2 * interval {
        DivMonotone(ttl + interval, now - first, interval);
        DivStep(ttl + interval, interval);
      }
    }
  }

  lemma DivMonotone(x: nat, y: nat, i: nat)
    requires i > 0 && x <= y
    ensures x / i <= y / i
  {
    var q, r := x / i, y / i;
    assert x == q * i + x % i && y == r * i + y % i;
    if r < q {
      LastBlock(r, q, i);
    }
  }

  /** No smaller window would do: an entry can be gone one second after its TTL,
      and can be there until just before two intervals after it. */
  lemma WallClockTight(interval: uint32)
    requires interval > 0
    // refreshed at a cleanup, with a TTL of one interval less a second
    ensures AfterTicks(Fresh(interval - 1), interval, CleanupsBy(interval, 0, interval)).None?
    // refreshed just after a cleanup, with TTL 0
    ensures AfterTicks(Fresh(0), interval, CleanupsBy(2 * interval - 1, interval, interval)).Some?
  {
    SurvivesExactly(Fresh(interval - 1), interval, 2);
    SurvivesExactly(Fresh(0), interval, 1);
    DivisionIs(interval - 1, interval, 0);
    DivisionIs(interval, interval, 1);
    DivisionIs(0, interval, 0);
  }
}
