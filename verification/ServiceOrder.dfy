// The order in which a node starts its services: depth first, dependencies before what needs them (lib/node.js).

module ServiceOrder {
  import opened Bytes

  type Name = string

  datatype Service = Service(name: Name, dependencies: seq<Name>)

  // Services by name; of two with the same name the later one counts.
  function ByName(services: seq<Service>): map<Name, Service>
  {
    if services == [] then map[]
    else var last := services[|services| - 1]; ByName(services[..|services| - 1])[last.name := last]
  }

  // Names can be ranked so that dependencies rank lower: there is no cycle.
  ghost predicate Acyclic(byName: map<Name, Service>, rank: Name -> nat)
  {
    forall n, d :: n in byName && d in byName[n].dependencies ==> rank(d) < rank(n)
  }

  // Every dependency of a service is a service.
  predicate Closed(byName: map<Name, Service>)
  {
    forall n :: n in byName ==> forall d :: d in byName[n].dependencies ==> d in byName
  }

  // The steps from a service to something it needs, directly or not.
  ghost predicate IsChain(byName: map<Name, Service>, chain: seq<Name>)
  {
    && |chain| >= 2
    && (forall i :: 0 <= i < |chain| - 1 ==> chain[i] in byName && chain[i + 1] in byName[chain[i]].dependencies)
  }

  predicate Listed(stack: seq<Service>, n: Name) { exists i :: 0 <= i < |stack| && stack[i].name == n }

  // The first name stands later in the list than the second.
  predicate After(stack: seq<Service>, n: Name, d: Name)
  {
    exists i, j :: 0 <= j < i < |stack| && stack[i].name == n && stack[j].name == d
  }

  // Each name once, the right service under it, and its dependencies before it.
  ghost predicate Ordered(byName: map<Name, Service>, stack: seq<Service>)
  {
    && (forall i :: 0 <= i < |stack| ==> stack[i].name in byName && byName[stack[i].name] == stack[i])
    && (forall i, j :: 0 <= i < j < |stack| ==> stack[i].name != stack[j].name)
    && (forall i :: 0 <= i < |stack| ==> DependenciesBefore(stack, i))
  }

  ghost predicate DependenciesBefore(stack: seq<Service>, i: nat)
    requires i < |stack|
  {
    forall d :: d in stack[i].dependencies ==> Listed(stack[..i], d)
  }

  lemma {:induction false} NamesAreTheirs(services: seq<Service>, n: Name)
    ensures n in ByName(services) ==> ByName(services)[n].name == n
    ensures n in ByName(services) <==> Listed(services, n)
  {
    if services != [] {
      var init := services[..|services| - 1];
      NamesAreTheirs(init, n);
      if Listed(services, n) && services[|services| - 1].name != n {
        var i :| 0 <= i < |services| && services[i].name == n;
        assert init[i].name == n;
      }
      if Listed(init, n) {
        var i :| 0 <= i < |init| && init[i].name == n;
        assert services[i].name == n;
      }
    }
  }

  lemma PrefixOrdered(byName: map<Name, Service>, stack: seq<Service>, s: Service)
    requires Ordered(byName, stack) && !Listed(stack, s.name) && s.name in byName && byName[s.name] == s
    requires forall d :: d in s.dependencies ==> Listed(stack, d)
    ensures Ordered(byName, stack + [s])
  {
    var r := stack + [s];
    forall i | 0 <= i < |r| ensures DependenciesBefore(r, i) {
      if i < |stack| {
        assert DependenciesBefore(stack, i) && r[..i] == stack[..i];
      } else {
        assert r[..i] == stack;
      }
    }
  }

  lemma ListedExtends(stack: seq<Service>, more: seq<Service>, n: Name)
    requires Listed(stack, n) && |stack| <= |more| && more[..|stack|] == stack
    ensures Listed(more, n)
  {
    var i :| 0 <= i < |stack| && stack[i].name == n;
    assert more[i] == stack[i];
  }

  class ServiceStack {
    const byName: map<Name, Service>
    var stackNames: set<Name>
    var stack: seq<Service>

    constructor (byName: map<Name, Service>)
      ensures this.byName == byName && stackNames == {} && stack == []
    {
      this.byName, stackNames, stack := byName, {}, [];
    }

    ghost predicate Valid() reads this
    {
      Ordered(byName, stack) && forall n :: n in stackNames <==> Listed(stack, n)
    }

    // Adds the services of these names behind their dependencies; not ok where one of them does not exist.
    method AddToStack(names: seq<Name>, ghost rank: Name -> nat, ghost bound: nat) returns (ok: bool)
      requires Valid() && Acyclic(byName, rank) && forall n :: n in byName ==> byName[n].name == n
      requires forall n :: n in names ==> rank(n) < bound
      modifies this
      ensures Valid() && |old(stack)| <= |stack| && stack[..|old(stack)|] == old(stack)
      ensures ok ==> forall n :: n in names ==> Listed(stack, n)
      ensures !ok ==> !Closed(byName) || exists n :: n in names && n !in byName
      decreases bound
    {
      for i := 0 to |names|
        invariant Valid() && |old(stack)| <= |stack| && stack[..|old(stack)|] == old(stack)
        invariant forall k :: 0 <= k < i ==> Listed(stack, names[k])
      {
        var name := names[i];
        assert name in names;
        if name !in byName { return false; }
        var service := byName[name];
        ghost var before := stack;
        ok := AddToStack(service.dependencies, rank, rank(name));
        if !ok { return false; }
        forall k | 0 <= k < i ensures Listed(stack, names[k]) {
          ListedExtends(before, stack, names[k]);
        }
        ghost var between := stack;
        if name !in stackNames {
          PrefixOrdered(byName, stack, service);
          Push(service);
          assert stack == between + [service] && stack[|between|].name == name;
        }
        forall k | 0 <= k <= i ensures Listed(stack, names[k]) {
          if k < i { ListedExtends(between, stack, names[k]); }
        }
      }
      return true;
    }

    method Push(service: Service)
      requires Valid() && Ordered(byName, stack + [service])
      modifies this
      ensures Valid() && stack == old(stack) + [service]
    {
      ghost var before := stack;
      stack := stack + [service];
      stackNames := stackNames + {service.name};
      forall n ensures n in stackNames <==> Listed(stack, n) {
        if Listed(before, n) { ListedExtends(before, stack, n); }
        assert stack[|before|].name == service.name;
        if Listed(stack, n) && n != service.name {
          var i :| 0 <= i < |stack| && stack[i].name == n;
          assert before[i].name == n;
        }
      }
    }
  }

  // Every service exactly once, each after all it needs; nothing where a dependency is missing.
  method GetServiceOrder(services: seq<Service>, ghost rank: Name -> nat) returns (order: Option<seq<Service>>)
    requires Acyclic(ByName(services), rank)
    ensures order.Some? <==> Closed(ByName(services))
    ensures order.Some? ==> Ordered(ByName(services), order.value)
    ensures order.Some? ==> forall n :: n in ByName(services) <==> Listed(order.value, n)
  {
    var names: seq<Name> := [];
    var byName: map<Name, Service> := map[];
    ghost var bound: nat := 0;
    for i := 0 to |services|
      invariant byName == ByName(services[..i])
      invariant forall n :: n in names <==> n in byName
      invariant forall n :: n in names ==> rank(n) < bound
    {
      var service := services[i];
      names := names + [service.name];
      byName := byName[service.name := service];
      assert services[..i + 1][..i] == services[..i];
      if rank(service.name) >= bound { bound := rank(service.name) + 1; }
    }
    assert services[..|services|] == services;
    forall n ensures n in byName ==> byName[n].name == n { NamesAreTheirs(services, n); }
    var s := new ServiceStack(byName);
    var ok := s.AddToStack(names, rank, bound);
    if !ok { return None; }
    OrderedIsClosed(byName, s.stack);
    return Some(s.stack);
  }

  lemma OrderedIsClosed(byName: map<Name, Service>, stack: seq<Service>)
    requires Ordered(byName, stack) && forall n :: n in byName ==> Listed(stack, n)
    ensures Closed(byName)
  {
    forall n, d | n in byName && d in byName[n].dependencies ensures d in byName {
      var i :| 0 <= i < |stack| && stack[i].name == n;
      assert DependenciesBefore(stack, i);
      var j :| 0 <= j < i && stack[..i][j].name == d;
      assert stack[j].name == d;
    }
  }

  // Every chain of dependencies runs backwards through the order.
  lemma {:induction false} ChainsRunBackwards(byName: map<Name, Service>, stack: seq<Service>, chain: seq<Name>)
    requires Ordered(byName, stack) && IsChain(byName, chain) && Listed(stack, chain[0])
    ensures After(stack, chain[0], chain[|chain| - 1])
  {
    var i :| 0 <= i < |stack| && stack[i].name == chain[0];
    var j := Position(byName, stack, i, chain);
  }

  lemma {:induction false} Position(byName: map<Name, Service>, stack: seq<Service>, i: nat, chain: seq<Name>) returns (j: nat)
    requires Ordered(byName, stack) && IsChain(byName, chain) && i < |stack| && stack[i].name == chain[0]
    ensures j < i && stack[j].name == chain[|chain| - 1]
    decreases |chain|
  {
    assert DependenciesBefore(stack, i) && chain[1] in stack[i].dependencies;
    var k :| 0 <= k < i && stack[..i][k].name == chain[1];
    j := k;
    if |chain| > 2 {
      j := Position(byName, stack, k, chain[1..]);
    }
  }

  // Stopping visits every dependent before anything it needs.
  lemma StopVisitsDependentsFirst(byName: map<Name, Service>, stack: seq<Service>, chain: seq<Name>)
    requires Ordered(byName, stack) && IsChain(byName, chain) && Listed(stack, chain[0])
    ensures After(Reverse(stack), chain[|chain| - 1], chain[0])
  {
    ChainsRunBackwards(byName, stack, chain);
    var i, j :| 0 <= j < i < |stack| && stack[i].name == chain[0] && stack[j].name == chain[|chain| - 1];
    ReverseElements(stack);
    assert Reverse(stack)[|stack| - 1 - i].name == chain[0];
    assert Reverse(stack)[|stack| - 1 - j].name == chain[|chain| - 1];
  }
}
