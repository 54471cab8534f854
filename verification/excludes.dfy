/** internal/splitrt/excludes.go: the split excludes.

    Static excludes are prefixes, dynamic excludes are single addresses with a
    TTL. The Go maps are keyed by the canonical text of a prefix, which is
    different for different prefixes, so the static map is a set here. */
module SplitExcludes {
  import opened Prefixes
  import opened Aging

  /** Cleanup interval of the dynamic excludes, in seconds. */
  const EXCLUDES_TIMER: uint32 := 300

  // ----- specification of the static excludes -----

  /** No two different prefixes overlap. */
  ghost predicate Antichain(s: set<Prefix>) {
    forall p, q | p in s && q in s && p != q :: !Overlaps(p, q)
  }

  /** p already lies in an existing prefix. */
  predicate Blocked(s: set<Prefix>, p: Prefix) {
    exists v | v in s :: Within(p, v)
  }

  function AddedStatic(s: set<Prefix>, p: Prefix): set<Prefix> {
    if Blocked(s, p) then s
    else (set v | v in s && !Overlaps(v, p)) + {p}
  }

  /** a is in one of the prefixes. */
  predicate Covered(s: set<Prefix>, a: Addr) {
    exists v | v in s :: Contains(v, a)
  }

  datatype StaticOp = Add(p: Prefix) | Remove(p: Prefix)

  function AfterOp(s: set<Prefix>, op: StaticOp): set<Prefix> {
    match op
    case Add(p) => AddedStatic(s, p)
    case Remove(p) => s - {p}
  }

  function AfterOps(s: set<Prefix>, ops: seq<StaticOp>): set<Prefix>
    decreases |ops|
  {
    if ops == [] then s else AfterOps(AfterOp(s, ops[0]), ops[1..])
  }

  function AddedAll(s: set<Prefix>, ps: seq<Prefix>): set<Prefix>
    decreases |ps|
  {
    if ps == [] then s else AddedAll(AddedStatic(s, ps[0]), ps[1..])
  }

  // ----- lemmas about the static excludes -----

  lemma {:induction false} AddedAllConcat(s: set<Prefix>, ps: seq<Prefix>, qs: seq<Prefix>)
    ensures AddedAll(s, ps + qs) == AddedAll(AddedAll(s, ps), qs)
    decreases |ps|
  {
    if ps == [] {
      assert ps + qs == qs;
    } else {
      assert (ps + qs)[1..] == ps[1..] + qs;
      AddedAllConcat(AddedStatic(s, ps[0]), ps[1..], qs);
    }
  }

  lemma AddedStaticAntichain(s: set<Prefix>, p: Prefix)
    requires Antichain(s)
    ensures Antichain(AddedStatic(s, p))
  {
    forall v | v in s
      ensures Overlaps(v, p) == Overlaps(p, v)
    {
      OverlapsSymmetric(v, p);
    }
  }

  /** In an antichain, a prefix that a new one would replace and a prefix that
      blocks the new one never occur together: the early return of AddStatic
      never follows a delete. */
  lemma NeverBlockedAndReplacing(s: set<Prefix>, p: Prefix, u: Prefix, v: Prefix)
    requires Antichain(s) && u in s && v in s
    requires Overlaps(u, p) && p.bits < u.bits
    ensures !Within(p, v)
  {
    if Within(p, v) {
      NestedOverlap(u, p, v);
    }
  }

  /** Static excludes stay pairwise non-overlapping over every sequence of adds and removes. */
  lemma {:induction false} AntichainOverRuns(s: set<Prefix>, ops: seq<StaticOp>)
    requires Antichain(s)
    ensures Antichain(AfterOps(s, ops))
    decreases |ops|
  {
    if ops != [] {
      if ops[0].Add? {
        AddedStaticAntichain(s, ops[0].p);
      }
      AntichainOverRuns(AfterOp(s, ops[0]), ops[1..]);
    }
  }

  /** Adding a prefix adds exactly its addresses to the covered ones. */
  lemma AddedStaticCovers(s: set<Prefix>, p: Prefix, a: Addr)
    ensures Covered(AddedStatic(s, p), a) <==> Covered(s, a) || Contains(p, a)
  {
    var t := AddedStatic(s, p);
    if Blocked(s, p) {
      var v :| v in s && Within(p, v);
      if Contains(p, a) {
        WithinCovers(p, v, a);
      }
    } else {
      assert p in t;
      if v :| v in s && Contains(v, a) && !Contains(p, a) {
        if Overlaps(v, p) {
          OverlapsSymmetric(v, p);
          WithinCovers(v, p, a);
          assert false;
        }
        assert v in t;
      }
    }
  }

  /** What a list of adds leaves behind: prefixes of the list, pairwise
      disjoint, that together hold every prefix of the list. */
  ghost predicate Summary(s: set<Prefix>, ps: set<Prefix>) {
    && s <= ps
    && Antichain(s)
    && forall p | p in ps :: Blocked(s, p)
  }

  lemma AddedStaticSummary(s: set<Prefix>, ps: set<Prefix>, p: Prefix)
    requires Summary(s, ps)
    ensures Summary(AddedStatic(s, p), ps + {p})
  {
    var t := AddedStatic(s, p);
    AddedStaticAntichain(s, p);
    forall q | q in ps + {p}
      ensures Blocked(t, q)
    {
      if q in ps {
        var v :| v in s && Within(q, v);
        if v !in t {
          OverlapsSymmetric(v, p);
          WithinTransitive(q, v, p);
          assert p in t;
        }
      } else if !Blocked(s, p) {
        assert p in t && Within(p, p);
      }
    }
  }

  lemma {:induction false} AddedAllSummary(s: set<Prefix>, seen: set<Prefix>, ps: seq<Prefix>, all: set<Prefix>)
    requires Summary(s, seen)
    requires forall p :: p in all <==> p in seen || p in ps
    ensures Summary(AddedAll(s, ps), all)
    decreases |ps|
  {
    if ps == [] {
      assert all == seen;
    } else {
      AddedStaticSummary(s, seen, ps[0]);
      assert ps == [ps[0]] + ps[1..];
      AddedAllSummary(AddedStatic(s, ps[0]), seen + {ps[0]}, ps[1..], all);
    }
  }

  /** p is one of ps and no strictly shorter prefix of ps holds it. */
  predicate Maximal(p: Prefix, ps: set<Prefix>) {
    p in ps && forall q | q in ps :: Within(p, q) ==> q.bits == p.bits
  }

  /** After any list of adds, the masked prefixes kept are exactly the maximal
      ones of the list, each kept once. */
  lemma AddedAllKeepsMaximal(ps: seq<Prefix>)
    ensures (set v | v in AddedAll({}, ps) :: Masked(v)) ==
            (set p | p in (set q | q in ps) && Maximal(p, set q | q in ps) :: Masked(p))
    ensures forall u, v | u in AddedAll({}, ps) && v in AddedAll({}, ps) && Masked(u) == Masked(v) :: u == v
  {
    var s, all := AddedAll({}, ps), set q | q in ps;
    AddedAllSummary({}, {}, ps, all);
    forall v | v in s
      ensures Maximal(v, all)
    {
      forall q | q in all && Within(v, q)
        ensures q.bits == v.bits
      {
        var u :| u in s && Within(q, u);
        WithinTransitive(v, q, u);
      }
    }
    forall p | p in all && Maximal(p, all)
      ensures exists v | v in s :: Masked(v) == Masked(p)
    {
      var v :| v in s && Within(p, v);
      OverlapsSymmetric(p, v);
      MaskedEqual(v, p);
    }
    forall u, v | u in s && v in s && Masked(u) == Masked(v)
      ensures u == v
    {
      MaskedEqual(u, v);
    }
  }

  /** ... and cover exactly the union of all added addresses. */
  lemma {:induction false} AddedAllCovers(s: set<Prefix>, ps: seq<Prefix>, a: Addr)
    ensures Covered(AddedAll(s, ps), a) <==> Covered(s, a) || exists p | p in ps :: Contains(p, a)
    decreases |ps|
  {
    if ps != [] {
      AddedStaticCovers(s, ps[0], a);
      AddedAllCovers(AddedStatic(s, ps[0]), ps[1..], a);
      assert ps == [ps[0]] + ps[1..];
    }
  }

  /** Neither depends on the order of the calls. */
  lemma AddOrderIrrelevant(ps: seq<Prefix>, qs: seq<Prefix>)
    requires (set p | p in ps) == (set q | q in qs)
    ensures (set v | v in AddedAll({}, ps) :: Masked(v)) == (set v | v in AddedAll({}, qs) :: Masked(v))
  {
    AddedAllKeepsMaximal(ps);
    AddedAllKeepsMaximal(qs);
  }

  /** Removing a prefix does not bring back the ones it replaced: add p, then a
      strictly wider q, then remove q, and p is gone. */
  lemma ReplacedNotRestored(s: set<Prefix>, p: Prefix, q: Prefix)
    requires !Blocked(s, q) && Within(p, q) && p.bits != q.bits
    ensures p !in AfterOps(s, [Add(p), Add(q), Remove(q)])
  {
    var s1 := AddedStatic(s, p);
    assert forall v | v in s1 :: v in s || v == p;
    OverlapsSymmetric(p, q);
    assert p !in AddedStatic(s1, q);
    assert [Add(p), Add(q), Remove(q)][1..] == [Add(q), Remove(q)];
    assert [Add(q), Remove(q)][1..] == [Remove(q)];
    assert AfterOps(AddedStatic(s1, q), [Remove(q)]) == AddedStatic(s1, q) - {q};
  }

  /** A remove undoes an add exactly when the prefix is not there yet and is
      either refused or overlaps nothing: that is, when the add replaces nothing
      and the remove takes away nothing older. */
  lemma RemoveUndoesAddIff(s: set<Prefix>, q: Prefix)
    requires Antichain(s)
    ensures AfterOps(s, [Add(q), Remove(q)]) == s <==>
            q !in s && (Blocked(s, q) || forall v | v in s :: !Overlaps(v, q))
  {
    var t := AddedStatic(s, q);
    assert [Add(q), Remove(q)][1..] == [Remove(q)];
    assert AfterOps(t, [Remove(q)]) == t - {q};
    if q in s {
      assert q !in t - {q};
    } else if !Blocked(s, q) {
      assert t - {q} == set v | v in s && !Overlaps(v, q);
      if v :| v in s && Overlaps(v, q) {
        assert v !in t - {q};
      }
    }
  }

  // ----- specification of the whole table -----

  datatype Table = Table(s: set<Prefix>, d: map<Addr, Entry>)

  /** All entries, static and dynamic, as prefixes. */
  function Entries(t: Table): set<Prefix> {
    t.s + set a | a in t.d :: Single(a)
  }

  lemma EntriesMember(t: Table, p: Prefix)
    ensures p in Entries(t) <==> p in t.s || (IsSingle(p) && p.addr in t.d)
  {
    if IsSingle(p) && p.addr in t.d {
      assert p == Single(p.addr);
    }
  }

  function AddedDynamic(t: Table, a: Addr, ttl: uint32): Table {
    if Covered(t.s, a) then t else t.(d := t.d[a := Fresh(ttl)])
  }

  /** The list of published entries has to change. */
  predicate DynamicIsNew(t: Table, a: Addr) {
    !Covered(t.s, a) && a !in t.d
  }

  function CleanedUp(t: Table): Table {
    t.(d := Cleaned(t.d, EXCLUDES_TIMER))
  }

  // ----- the class -----

  class Excludes {
    var s: set<Prefix>
    var d: map<Addr, Entry>

    ghost predicate Valid()
      reads this
    {
      Antichain(s)
    }

    function View(): Table
      reads this
    {
      Table(s, d)
    }

    constructor ()
      ensures Valid() && View() == Table({}, map[])
    {
      s, d := {}, map[];
    }

    /** The loop visits the map in any order and deletes from it on the way; the
        result is the same for every order. */
    method AddStatic(address: Prefix) returns (ok: bool)
      requires Valid()
      modifies this`s
      ensures Valid()
      ensures s == AddedStatic(old(s), address)
      ensures ok == !Blocked(old(s), address)
      ensures !ok ==> s == old(s)
      ensures forall a :: Covered(s, a) <==> old(Covered(s, a)) || Contains(address, a)
    {
      ghost var before := s;
      AddedStaticAntichain(before, address);
      forall a: Addr
        ensures Covered(AddedStatic(before, address), a) <==> Covered(before, a) || Contains(address, a)
      {
        AddedStaticCovers(before, address, a);
      }
      var todo := s;
      while todo != {}
        invariant todo <= s <= before
        invariant s == set v | v in before && (v in todo || !Overlaps(v, address))
        invariant forall v | v in before && v !in todo :: !Within(address, v)
      {
        var v :| v in todo;
        todo := todo - {v};
        OverlapsSymmetric(v, address);
        if !Overlaps(v, address) {
          continue;
        }
        if v.bits <= address.bits {
          forall u | u in before
            ensures u in s
          {
            OverlapsSymmetric(u, address);
            if u !in s {
              NeverBlockedAndReplacing(before, address, u, v);
            }
          }
          return false;
        }
        s := s - {v};
      }
      s := s + {address};
      return true;
    }

    method AddDynamic(address: Prefix, ttl: uint32) returns (ok: bool)
      modifies this`d
      ensures !IsSingle(address) ==> !ok && d == old(d)
      ensures IsSingle(address) ==> View() == AddedDynamic(old(View()), address.addr, ttl)
      ensures IsSingle(address) ==> ok == DynamicIsNew(old(View()), address.addr)
      ensures ok == (Entries(View()) != old(Entries(View())))
    {
      if !IsSingle(address) {
        return false;
      }
      var a := address.addr;
      var todo := s;
      while todo != {}
        invariant todo <= s
        invariant forall v | v in s - todo :: !Contains(v, a)
      {
        var v :| v in todo;
        todo := todo - {v};
        if Contains(v, a) {
          return false;
        }
      }
      if a in d {
        d := d[a := Entry(ttl, true)];
        assert Entries(View()) == old(Entries(View()));
        return false;
      }
      d := d[a := Entry(ttl, true)];
      assert Single(a) in Entries(View());
      assert Single(a) !in s by {
        if Single(a) in s {
          ContainsOwnAddr(Single(a));
        }
      }
      return true;
    }

    method RemoveStatic(address: Prefix) returns (ok: bool)
      requires Valid()
      modifies this`s
      ensures Valid() && s == old(s) - {address} && ok == (address in old(s))
    {
      if address !in s {
        return false;
      }
      s := s - {address};
      return true;
    }

    method Cleanup() returns (changed: bool)
      modifies this`d
      ensures View() == CleanedUp(old(View()))
      ensures changed == (d.Keys != old(d.Keys))
    {
      ghost var before := d;
      changed := false;
      var todo := d.Keys;
      while todo != {}
        invariant todo <= d.Keys <= before.Keys
        invariant forall a | a in todo :: d[a] == before[a]
        invariant forall a | a in before.Keys - todo :: a in d <==> Tick(before[a], EXCLUDES_TIMER).Some?
        invariant forall a | a in d.Keys - todo :: d[a] == Tick(before[a], EXCLUDES_TIMER).value
        invariant changed == (d.Keys != before.Keys)
      {
        var a :| a in todo;
        todo := todo - {a};
        var e := d[a];
        if e.updated {
          d := d[a := e.(updated := false)];
          continue;
        }
        if e.ttl < EXCLUDES_TIMER {
          d := d - {a};
          changed := true;
          continue;
        }
        d := d[a := e.(ttl := e.ttl - EXCLUDES_TIMER)];
      }
      assert d == Cleaned(before, EXCLUDES_TIMER);
    }

    method GetPrefixes() returns (r: seq<Prefix>)
      ensures (set p | p in r) == Entries(View())
      ensures |r| == |s| + |d|
    {
      r := [];
      var todo := s;
      while todo != {}
        invariant todo <= s
        invariant forall p :: p in r <==> p in s && p !in todo
        invariant |r| + |todo| == |s|
      {
        var v :| v in todo;
        todo := todo - {v};
        r := r + [v];
      }
      var keys := d.Keys;
      while keys != {}
        invariant keys <= d.Keys
        invariant forall p :: p in r <==> p in s || (IsSingle(p) && p.addr in d && p.addr !in keys)
        invariant |r| + |keys| == |s| + |d|
      {
        var a :| a in keys;
        keys := keys - {a};
        r := r + [Single(a)];
      }
      forall p
        ensures p in r <==> p in Entries(View())
      {
        EntriesMember(View(), p);
      }
    }
  }
}
