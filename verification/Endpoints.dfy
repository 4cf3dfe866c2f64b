/** Keeping the endpoints of an upstream in step with DNS, and choosing one to connect to. */
module Endpoints {
  import opened Wrappers

  datatype Status = Unknown | Healthy | Available | Unreachable

  // Addresses are compared by their text form.
  datatype Endpoint = Endpoint(address: string, status: Status)

  predicate HasAddress(es: seq<Endpoint>, ip: string) { exists i :: 0 <= i < |es| && es[i].address == ip }

  predicate NoDuplicates(es: seq<Endpoint>) {
    forall i, j :: 0 <= i < j < |es| ==> es[i].address != es[j].address
  }

  // The endpoints whose address is still among `ips`, in order.
  function Survivors(es: seq<Endpoint>, ips: seq<string>): seq<Endpoint> {
    if es == [] then []
    else (if es[0].address in ips then [es[0]] else []) + Survivors(es[1..], ips)
  }

  // ... followed by one new endpoint for each address not yet present.
  function Extended(es: seq<Endpoint>, ips: seq<string>): seq<Endpoint>
    decreases |ips|
  {
    if ips == [] then es
    else Extended(if HasAddress(es, ips[0]) then es else es + [Endpoint(ips[0], Unreachable)], ips[1..])
  }

  function Updated(es: seq<Endpoint>, ips: seq<string>): seq<Endpoint> {
    Extended(Survivors(es, ips), ips)
  }

  class Upstream {
    var endpoints: seq<Endpoint>
    var status: Status
    const mustResolve: bool

    constructor (mustResolve: bool)
      ensures endpoints == [] && status == Unknown && this.mustResolve == mustResolve
    {
      endpoints, status := [], Unknown;
      this.mustResolve := mustResolve;
    }

    method UpdateHostIPs(ips: seq<string>)
      modifies this`endpoints
      ensures endpoints == Updated(old(endpoints), ips)
    {
      var indexToDelete := AbsentIndices(ips);
      DeleteAll(indexToDelete, ips);
      AppendMissing(ips);
    }

    method AbsentIndices(ips: seq<string>) returns (indexToDelete: seq<nat>)
      ensures DescendingAbsent(endpoints, ips, indexToDelete, |endpoints|)
    {
      indexToDelete := [];
      for i := 0 to |endpoints|
        invariant DescendingAbsent(endpoints, ips, indexToDelete, i)
      {
        var found := false;
        for k := 0 to |ips|
          invariant found <==> exists l :: 0 <= l < k && ips[l] == endpoints[i].address
        {
          if ips[k] == endpoints[i].address {
            found := true;
          }
        }
        if !found {
          indexToDelete := [i] + indexToDelete;
        }
      }
    }

    method DeleteAll(indexToDelete: seq<nat>, ghost ips: seq<string>)
      requires DescendingAbsent(endpoints, ips, indexToDelete, |endpoints|)
      modifies this`endpoints
      ensures endpoints == Survivors(old(endpoints), ips)
    {
      ghost var all, rest: nat := endpoints, |endpoints|;
      for d := 0 to |indexToDelete|
        invariant rest <= |all| && DescendingAbsent(all, ips, indexToDelete[d..], rest)
        invariant endpoints == all[..rest] + Survivors(all[rest..], ips)
      {
        var i := indexToDelete[d];
        NextAbsent(all, ips, indexToDelete[d..], rest);
        DeleteNext(all, ips, i, rest);
        endpoints := endpoints[..i] + endpoints[i + 1..];
        rest := i;
        assert indexToDelete[d..][1..] == indexToDelete[d + 1..];
      }
      KeepsPresent(all, ips, indexToDelete[|indexToDelete|..], rest);
    }

    // One round of CheckContinuously.  `resolved` is the answer of DNS, `check` the health check,
    // which also tells whether it reported an error; without one everything counts as healthy.
    method Check(resolved: Option<seq<string>>, check: Option<string -> (Status, bool)>, addr: string)
      returns (ok: bool)
      modifies this
      ensures mustResolve && resolved.None? ==> !ok && endpoints == old(endpoints) && status == old(status)
      ensures mustResolve && resolved.Some? ==>
        && status == old(status) && Checked(endpoints, Updated(old(endpoints), resolved.value), check)
        && (ok <==> forall i :: 0 <= i < |endpoints| ==> Outcome(check, endpoints[i].address).1)
      ensures mustResolve && resolved.Some? ==> forall ip :: HasAddress(endpoints, ip) <==> ip in resolved.value
      ensures check.None? && mustResolve && resolved.Some? ==> ok && forall e :: e in endpoints ==> e.status == Healthy
      ensures check.None? && !mustResolve ==> ok && status == Healthy
      ensures check.Some? && !mustResolve ==> (status, ok) == check.value(addr)
      ensures check.Some? && mustResolve && resolved.Some? ==>
        forall e :: e in endpoints ==> e.status == check.value(e.address).0
      ensures !mustResolve ==> endpoints == old(endpoints) && (status, ok) == Outcome(check, addr)
    {
      if !mustResolve {
        status, ok := Outcome(check, addr).0, Outcome(check, addr).1;
        return;
      }
      if resolved.None? {
        return false;
      }
      UpdateHostIPs(resolved.value);
      UpdateComputesIntendedSet(old(endpoints), resolved.value);
      ghost var updated := endpoints;
      ok := CheckEndpoints(check);
      SameAddresses(updated, endpoints);
    }

    method CheckEndpoints(check: Option<string -> (Status, bool)>) returns (ok: bool)
      modifies this`endpoints
      ensures Checked(endpoints, old(endpoints), check)
      ensures ok <==> forall i :: 0 <= i < |endpoints| ==> Outcome(check, endpoints[i].address).1
    {
      ok := true;
      for i := 0 to |endpoints|
        invariant |endpoints| == |old(endpoints)|
        invariant forall j :: 0 <= j < i ==>
            endpoints[j] == Endpoint(old(endpoints)[j].address, Outcome(check, old(endpoints)[j].address).0)
        invariant forall j :: i <= j < |endpoints| ==> endpoints[j] == old(endpoints)[j]
        invariant ok <==> forall j :: 0 <= j < i ==> Outcome(check, endpoints[j].address).1
      {
        var (s, fine) := Outcome(check, endpoints[i].address);
        endpoints := endpoints[i := endpoints[i].(status := s)];
        ok := ok && fine;
      }
    }

    method Lists(ip: string) returns (found: bool)
      ensures found <==> HasAddress(endpoints, ip)
    {
      for j := 0 to |endpoints|
        invariant forall l :: 0 <= l < j ==> endpoints[l].address != ip
      {
        if endpoints[j].address == ip {
          return true;
        }
      }
      return false;
    }

    method AppendMissing(ips: seq<string>)
      modifies this`endpoints
      ensures endpoints == Extended(old(endpoints), ips)
    {
      for k := 0 to |ips|
        invariant Extended(endpoints, ips[k..]) == Extended(old(endpoints), ips)
      {
        var found := Lists(ips[k]);
        assert ips[k..][1..] == ips[k + 1..];
        if !found {
          endpoints := endpoints + [Endpoint(ips[k], Unreachable)];
        }
      }
    }
  }

  function Outcome(check: Option<string -> (Status, bool)>, addr: string): (Status, bool) {
    match check
    case None => (Healthy, true)
    case Some(c) => c(addr)
  }

  // The same endpoints with the status their check gave.
  ghost predicate Checked(es: seq<Endpoint>, was: seq<Endpoint>, check: Option<string -> (Status, bool)>) {
    |es| == |was| && forall i :: 0 <= i < |es| ==> es[i] == Endpoint(was[i].address, Outcome(check, was[i].address).0)
  }

  lemma SameAddresses(es: seq<Endpoint>, fs: seq<Endpoint>)
    requires |es| == |fs| && forall i :: 0 <= i < |es| ==> es[i].address == fs[i].address
    ensures forall ip :: HasAddress(es, ip) <==> HasAddress(fs, ip)
  {
    forall ip ensures HasAddress(es, ip) <==> HasAddress(fs, ip) {
      if i :| 0 <= i < |es| && es[i].address == ip { assert fs[i].address == ip; }
      if i :| 0 <= i < |fs| && fs[i].address == ip { assert es[i].address == ip; }
    }
  }

  // `ds` lists, in descending order, the indices below `n` of the endpoints that are gone.
  ghost predicate DescendingAbsent(es: seq<Endpoint>, ips: seq<string>, ds: seq<nat>, n: nat) {
    && n <= |es|
    && (forall a, b :: 0 <= a < b < |ds| ==> ds[a] > ds[b])
    && (forall a :: 0 <= a < |ds| ==> ds[a] < n && es[ds[a]].address !in ips)
    && (forall i :: 0 <= i < n && es[i].address !in ips ==> i in ds)
  }

  lemma NextAbsent(es: seq<Endpoint>, ips: seq<string>, ds: seq<nat>, n: nat)
    requires ds != [] && DescendingAbsent(es, ips, ds, n)
    ensures ds[0] < n && es[ds[0]].address !in ips
    ensures forall k :: ds[0] < k < n ==> es[k].address in ips
    ensures DescendingAbsent(es, ips, ds[1..], ds[0])
  {
    assert forall a :: 0 < a < |ds| ==> ds[a] == ds[1..][a - 1];
  }

  lemma Associative<T>(a: seq<T>, b: seq<T>, c: seq<T>)
    ensures a + (b + c) == a + b + c
  {
  }

  lemma {:induction false} SurvivorsAppend(xs: seq<Endpoint>, ys: seq<Endpoint>, ips: seq<string>)
    ensures Survivors(xs + ys, ips) == Survivors(xs, ips) + Survivors(ys, ips)
  {
    if xs == [] {
      assert xs + ys == ys;
    } else {
      assert (xs + ys)[0] == xs[0] && (xs + ys)[1..] == xs[1..] + ys;
      SurvivorsAppend(xs[1..], ys, ips);
      Associative(if xs[0].address in ips then [xs[0]] else [], Survivors(xs[1..], ips), Survivors(ys, ips));
    }
  }

  lemma {:induction false} AllSurvive(es: seq<Endpoint>, ips: seq<string>)
    requires forall i :: 0 <= i < |es| ==> es[i].address in ips
    ensures Survivors(es, ips) == es
  {
    if es != [] {
      AllSurvive(es[1..], ips);
    }
  }

  lemma DropsOnlyPresent(es: seq<Endpoint>, ips: seq<string>, i: nat, n: nat)
    requires i < n <= |es| && es[i].address !in ips
    requires forall k :: i < k < n ==> es[k].address in ips
    ensures Survivors(es[i..], ips) == es[i + 1..n] + Survivors(es[n..], ips)
  {
    AllSurvive(es[i + 1..n], ips);
    SurvivorsAppend(es[i + 1..n], es[n..], ips);
    assert es[i + 1..n] + es[n..] == es[i..][1..];
  }

  // Taking out the next index leaves the survivors from it on behind what comes before it.
  lemma DeleteNext(es: seq<Endpoint>, ips: seq<string>, i: nat, n: nat)
    requires i < n <= |es| && es[i].address !in ips
    requires forall k :: i < k < n ==> es[k].address in ips
    ensures var now := es[..n] + Survivors(es[n..], ips);
      now[..i] + now[i + 1..] == es[..i] + Survivors(es[i..], ips)
  {
    DropsOnlyPresent(es, ips, i, n);
    var now := es[..n] + Survivors(es[n..], ips);
    assert now[..i] == es[..i];
    assert now[i + 1..] == es[i + 1..n] + Survivors(es[n..], ips);
  }

  lemma KeepsPresent(es: seq<Endpoint>, ips: seq<string>, ds: seq<nat>, n: nat)
    requires ds == [] && DescendingAbsent(es, ips, ds, n)
    ensures es[..n] + Survivors(es[n..], ips) == Survivors(es, ips)
  {
    AllSurvive(es[..n], ips);
    SurvivorsAppend(es[..n], es[n..], ips);
    assert es == es[..n] + es[n..];
  }

  /* ---------- the set of endpoints after an update ---------- */

  lemma {:induction false} SurvivorsKept(es: seq<Endpoint>, ips: seq<string>)
    ensures forall e :: e in Survivors(es, ips) <==> e in es && e.address in ips
    ensures NoDuplicates(es) ==> NoDuplicates(Survivors(es, ips))
  {
    if es != [] {
      SurvivorsKept(es[1..], ips);
      assert es == [es[0]] + es[1..];
      if NoDuplicates(es) {
        assert NoDuplicates(es[1..]);
        assert forall e :: e in es[1..] ==> e.address != es[0].address;
      }
    }
  }

  lemma OneMore(es: seq<Endpoint>, e: Endpoint)
    ensures forall ip :: HasAddress(es + [e], ip) <==> HasAddress(es, ip) || ip == e.address
  {
    forall ip ensures HasAddress(es + [e], ip) <==> HasAddress(es, ip) || ip == e.address {
      if HasAddress(es, ip) {
        var i :| 0 <= i < |es| && es[i].address == ip;
        assert (es + [e])[i].address == ip;
      }
      assert (es + [e])[|es|] == e;
    }
  }

  // Extending keeps what is there in front and adds unreachable endpoints behind, so that the
  // addresses are those already there and those asked for.
  lemma {:induction false} ExtendedAdds(es: seq<Endpoint>, ips: seq<string>)
    ensures es <= Extended(es, ips)
    ensures forall i :: |es| <= i < |Extended(es, ips)| ==>
              Extended(es, ips)[i].status == Unreachable && !HasAddress(es, Extended(es, ips)[i].address)
    ensures forall ip :: HasAddress(Extended(es, ips), ip) <==> HasAddress(es, ip) || ip in ips
    ensures NoDuplicates(es) ==> NoDuplicates(Extended(es, ips))
    decreases |ips|
  {
    if ips != [] {
      var next := if HasAddress(es, ips[0]) then es else es + [Endpoint(ips[0], Unreachable)];
      ExtendedAdds(next, ips[1..]);
      if next != es { OneMore(es, Endpoint(ips[0], Unreachable)); }
      assert ips == [ips[0]] + ips[1..];
    }
  }

  // Whatever the upstream held before, after an update it has exactly the given addresses; the
  // endpoints that stay keep their order and status, new ones follow and start unreachable.
  lemma UpdateComputesIntendedSet(es: seq<Endpoint>, ips: seq<string>)
    ensures forall ip :: HasAddress(Updated(es, ips), ip) <==> ip in ips
    ensures Survivors(es, ips) <= Updated(es, ips)
    ensures forall e :: e in Survivors(es, ips) <==> e in es && e.address in ips
    ensures forall i :: |Survivors(es, ips)| <= i < |Updated(es, ips)| ==>
              Updated(es, ips)[i].status == Unreachable && !HasAddress(es, Updated(es, ips)[i].address)
    ensures NoDuplicates(es) ==> NoDuplicates(Updated(es, ips))
  {
    var kept, u := Survivors(es, ips), Updated(es, ips);
    SurvivorsKept(es, ips);
    ExtendedAdds(kept, ips);
    forall ip ensures HasAddress(kept, ip) <==> HasAddress(es, ip) && ip in ips {
      if HasAddress(es, ip) && ip in ips {
        var i :| 0 <= i < |es| && es[i].address == ip;
        assert es[i] in kept;
      }
    }
    forall i | |kept| <= i < |u| ensures !HasAddress(es, u[i].address) {
      assert HasAddress(u, u[i].address);
    }
  }

  lemma {:induction false} NothingMissing(es: seq<Endpoint>, ips: seq<string>)
    requires forall k :: 0 <= k < |ips| ==> HasAddress(es, ips[k])
    ensures Extended(es, ips) == es
    decreases |ips|
  {
    if ips != [] {
      NothingMissing(es, ips[1..]);
    }
  }

  // A second answer with the same addresses, in whatever order and however often, changes nothing.
  lemma UpdateIsIdempotent(es: seq<Endpoint>, ips: seq<string>, again: seq<string>)
    requires forall ip :: ip in again <==> ip in ips
    ensures Updated(Updated(es, ips), again) == Updated(es, ips)
  {
    var u := Updated(es, ips);
    UpdateComputesIntendedSet(es, ips);
    assert forall i :: 0 <= i < |u| ==> HasAddress(u, u[i].address);
    AllSurvive(u, again);
    NothingMissing(u, again);
  }
}
