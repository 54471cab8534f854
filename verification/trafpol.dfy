/** internal/trafpol: trafpol.go with allowaddrs.go and allownames.go.

    Traffic policing allows a set of host addresses: the configured ones, those
    added by the daemon, and the resolved addresses of allowed names. While a
    captive portal is detected it also opens the portal ports. */
module TrafPol {
  import opened Prefixes

  /** names: allowed names with their resolved addresses; hosts: the host list
      installed in the packet filter; ports: portal ports are installed. */
  datatype Policy = Policy(addrs: set<Prefix>, names: map<string, seq<Addr>>, hosts: set<Prefix>,
                           capPortal: bool, ports: bool)

  ghost predicate Resolved(names: map<string, seq<Addr>>, a: Addr) {
    exists n :: n in names && a in names[n]
  }

  /** The installed list is the union of allowed and resolved addresses. */
  ghost predicate HostsExact(p: Policy) {
    forall x :: x in p.hosts <==> x in p.addrs || (IsSingle(x) && Resolved(p.names, x.addr))
  }

  function ResolvedHosts(names: map<string, seq<Addr>>): (r: set<Prefix>)
    ensures forall x :: x in r <==> IsSingle(x) && Resolved(names, x.addr)
  {
    var r := set n, a | n in names && a in names[n] :: Single(a);
    assert forall x: Prefix :: IsSingle(x) ==> x == Single(x.addr);
    r
  }

  function Hosts(addrs: set<Prefix>, names: map<string, seq<Addr>>): set<Prefix> {
    addrs + ResolvedHosts(names)
  }

  function New(configured: set<Prefix>, names: map<string, seq<Addr>>): Policy {
    Policy(configured, names, Hosts(configured, names), false, false)
  }

  function Allow(p: Policy, a: Addr): Policy {
    if Single(a) in p.addrs then p
    else p.(addrs := p.addrs + {Single(a)}, hosts := Hosts(p.addrs + {Single(a)}, p.names))
  }

  function Disallow(p: Policy, a: Addr): Policy {
    if Single(a) !in p.addrs then p
    else p.(addrs := p.addrs - {Single(a)}, hosts := Hosts(p.addrs - {Single(a)}, p.names))
  }

  function WithName(p: Policy, name: string, ips: seq<Addr>): Policy {
    p.(names := p.names[name := ips], hosts := Hosts(p.addrs, p.names[name := ips]))
  }

  /** The part of handleCPDReport after the resolver was told, if it has to be. */
  function WithPortal(p: Policy, detected: bool): Policy {
    p.(capPortal := detected, ports := detected)
  }

  datatype Op =
    | AddAddr(a: Addr)
    | RemoveAddr(a: Addr)
    | NameUpdate(name: string, ips: seq<Addr>)
    | PortalReport(detected: bool)

  function AfterOp(p: Policy, op: Op): Policy {
    match op
    case AddAddr(a) => Allow(p, a)
    case RemoveAddr(a) => Disallow(p, a)
    case NameUpdate(n, ips) => WithName(p, n, ips)
    case PortalReport(d) => WithPortal(p, d)
  }

  /** Every handler leaves the installed host list equal to the union, and the
      portal ports installed exactly while a portal is recorded. */
  lemma HandlersKeepFilter(p: Policy, op: Op)
    requires HostsExact(p) && p.ports == p.capPortal
    ensures HostsExact(AfterOp(p, op)) && AfterOp(p, op).ports == AfterOp(p, op).capPortal
  {
    assert forall names, x :: x in ResolvedHosts(names) <==> IsSingle(x) && Resolved(names, x.addr);
  }

  class TrafPol {
    ghost const configured: set<Prefix>
    var addrs: set<Prefix>
    var names: map<string, seq<Addr>>
    var hosts: set<Prefix>
    var capPortal: bool
    var ports: bool

    function View(): Policy
      reads this
    {
      Policy(addrs, names, hosts, capPortal, ports)
    }

    ghost predicate Valid()
      reads this
    {
      HostsExact(View()) && ports == capPortal
    }

    /** NewTrafPol and Start. */
    constructor (configured: set<Prefix>, names: map<string, seq<Addr>>)
      ensures Valid() && this.configured == configured && View() == New(configured, names)
    {
      this.configured := configured;
      addrs, this.names, capPortal, ports := configured, names, false, false;
      hosts := {};
      new;
      hosts := GetAllowedHostsIPs();
    }

    method GetAllowedHostsIPs() returns (ips: set<Prefix>)
      ensures ips == Hosts(addrs, names)
    {
      ips := {};
      var todo := names.Keys;
      while todo != {}
        invariant todo <= names.Keys
        invariant forall x :: x in ips <==> IsSingle(x) && exists n :: n in names && n !in todo && x.addr in names[n]
      {
        var n :| n in todo;
        var list := names[n];
        ghost var before := ips;
        for i := 0 to |list|
          invariant forall x :: x in ips <==> x in before || (IsSingle(x) && x.addr in list[..i])
        {
          assert list[..i + 1] == list[..i] + [list[i]];
          ips := ips + {Single(list[i])};
        }
        assert list[..|list|] == list;
        todo := todo - {n};
      }
      var rest := addrs;
      ghost var resolved := ips;
      while rest != {}
        invariant rest <= addrs && ips == resolved + (addrs - rest)
      {
        var a :| a in rest;
        rest := rest - {a};
        ips := ips + {a};
      }
      assert resolved == ResolvedHosts(names);
    }

    method AddAllowedAddr(a: Addr) returns (ok: bool)
      requires Valid()
      modifies this
      ensures Valid() && View() == Allow(old(View()), a) && ok == (Single(a) !in old(addrs))
    {
      HandlersKeepFilter(View(), AddAddr(a));
      if Single(a) in addrs {
        return false;
      }
      addrs := addrs + {Single(a)};
      hosts := GetAllowedHostsIPs();
      ok := true;
    }

    method RemoveAllowedAddr(a: Addr) returns (ok: bool)
      requires Valid()
      modifies this
      ensures Valid() && View() == Disallow(old(View()), a) && ok == (Single(a) in old(addrs))
    {
      HandlersKeepFilter(View(), RemoveAddr(a));
      if Single(a) !in addrs {
        return false;
      }
      addrs := addrs - {Single(a)};
      hosts := GetAllowedHostsIPs();
      ok := true;
    }

    method HandleResolverUpdate(name: string, ips: seq<Addr>)
      requires Valid()
      modifies this
      ensures Valid() && View() == WithName(old(View()), name, ips)
    {
      HandlersKeepFilter(View(), NameUpdate(name, ips));
      names := names[name := ips];
      hosts := GetAllowedHostsIPs();
    }

    /** resolve: all names have to be resolved again. */
    method HandleCPDReport(detected: bool) returns (changed: bool, resolve: bool)
      requires Valid()
      modifies this
      ensures Valid() && View() == WithPortal(old(View()), detected)
      ensures changed == (detected != old(capPortal)) && resolve == (changed && !detected)
    {
      if !detected {
        if capPortal {
          ports := false;
          capPortal := false;
          return true, true;
        }
        return false, false;
      }
      if !capPortal {
        ports := true;
        capPortal := true;
        return true, false;
      }
      return false, false;
    }
  }
}
