/** internal/dnsproxy/watches.go: the list of watched domain names.

    A name is its sequence of labels, leftmost first; the root is the empty
    sequence. Matching is by whole labels, as with the label offsets of the
    DNS library. */
module WatchList {
  import opened Aging

  type Name = seq<string>

  /** Clean interval of the temporary watches, in seconds. */
  const CLEAN_INTERVAL: uint32 := 10

  /** Configured watches, temporary CNAME targets, temporary DNAME targets. */
  datatype List = List(m: set<Name>, c: map<Name, Entry>, d: map<Name, Entry>)

  const EMPTY := List({}, map[], map[])

  /** The name, or a name it is a subdomain of, is in s. */
  predicate SuffixIn(s: set<Name>, n: Name) {
    exists i | 0 <= i < |n| :: n[i..] in s
  }

  /** What Contains decides: an exact CNAME target, or a name under a watch or a
      DNAME target; never the root. */
  predicate Accepts(w: List, n: Name) {
    n != [] && (n in w.c || SuffixIn(w.m + w.d.Keys, n))
  }

  function CleanedTemp(w: List, interval: uint32): List {
    w.(c := Cleaned(w.c, interval), d := Cleaned(w.d, interval))
  }

  lemma SuffixInMonotone(s: set<Name>, t: set<Name>, n: Name)
    requires s <= t && SuffixIn(s, n)
    ensures SuffixIn(t, n)
  {}

  class Watches {
    var m: set<Name>
    var c: map<Name, Entry>
    var d: map<Name, Entry>

    function View(): List
      reads this
    {
      List(m, c, d)
    }

    constructor ()
      ensures View() == EMPTY
    {
      m, c, d := {}, map[], map[];
    }

    method Add(domain: Name)
      modifies this
      ensures View() == old(View()).(m := old(m) + {domain})
    {
      m := m + {domain};
    }

    method AddTempCNAME(domain: Name, ttl: uint32)
      modifies this
      ensures View() == old(View()).(c := old(c)[domain := Fresh(ttl)])
    {
      c := c[domain := Entry(ttl, true)];
    }

    method AddTempDNAME(domain: Name, ttl: uint32)
      modifies this
      ensures View() == old(View()).(d := old(d)[domain := Fresh(ttl)])
    {
      d := d[domain := Entry(ttl, true)];
    }

    method Remove(domain: Name)
      modifies this
      ensures View() == List(old(m) - {domain}, old(c) - {domain}, old(d) - {domain})
    {
      m := m - {domain};
      c := c - {domain};
      d := d - {domain};
    }

    /** One of the two loops of cleanTemp, over a map in any order. */
    static method CleanMap(temps: map<Name, Entry>, interval: uint32) returns (r: map<Name, Entry>)
      ensures r == Cleaned(temps, interval)
    {
      r := temps;
      var todo := temps.Keys;
      while todo != {}
        invariant todo <= r.Keys <= temps.Keys
        invariant forall n | n in todo :: r[n] == temps[n]
        invariant forall n | n in temps && n !in todo :: n in r <==> Tick(temps[n], interval).Some?
        invariant forall n | n in r && n !in todo :: r[n] == Tick(temps[n], interval).value
      {
        var n :| n in todo;
        todo := todo - {n};
        var t := r[n];
        if t.updated {
          r := r[n := t.(updated := false)];
          continue;
        }
        if t.ttl < interval {
          r := r - {n};
          continue;
        }
        r := r[n := t.(ttl := t.ttl - interval)];
      }
    }

    method CleanTemp(interval: uint32)
      modifies this
      ensures View() == CleanedTemp(old(View()), interval)
    {
      c := CleanMap(c, interval);
      d := CleanMap(d, interval);
    }

    method Flush()
      modifies this
      ensures View() == EMPTY
    {
      m, c, d := {}, map[], map[];
    }

    method Contains(domain: Name) returns (r: bool)
      ensures r == Accepts(View(), domain)
    {
      if domain == [] {
        return false;
      }
      if domain in c {
        return true;
      }
      for i := 0 to |domain|
        invariant forall j | 0 <= j < i :: domain[j..] !in m && domain[j..] !in d
      {
        if domain[i..] in m || domain[i..] in d {
          assert domain[i..] in m + d.Keys;
          return true;
        }
      }
      return false;
    }

    /** SetWatches of the proxy: flush, then add one by one. */
    method SetWatches(names: seq<Name>)
      modifies this
      ensures View() == List(set n | n in names, map[], map[])
    {
      Flush();
      for i := 0 to |names|
        invariant View() == List(set n | n in names[..i], map[], map[])
      {
        Add(names[i]);
        assert names[..i + 1] == names[..i] + [names[i]];
      }
      assert names[..|names|] == names;
    }
  }
}
