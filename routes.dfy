/** The route table `register_resource_routes` builds: for each resource found
    in the data directory, five URL rules, each with its own endpoint name and
    bound to that resource's handler. */
module Routes {

  datatype Verb = GET | POST | PUT | DELETE

  datatype Operation = GetAll | GetOne | Create | Update | Delete

  /** One `add_url_rule(path, endpoint, view, methods=[verb])`; the view is
      operation `op` of the handler of `resource`. */
  datatype Rule = Rule(path: string, endpoint: string, verb: Verb, resource: string, op: Operation)

  /** The endpoint name prefix of each operation. */
  function EndpointPrefix(op: Operation): (p: string)
    ensures 7 <= |p| <= 8 && p[|p| - 1] == '_'
  {
    match op
    case GetAll => "get_all_"
    case GetOne => "get_one_"
    case Create => "create_"
    case Update => "update_"
    case Delete => "delete_"
  }

  /** Registration order of the operations. */
  function OpIndex(op: Operation): (i: nat)
    ensures i < 5
  {
    match op
    case GetAll => 0
    case GetOne => 1
    case Create => 2
    case Update => 3
    case Delete => 4
  }

  /** The endpoint name `f"{prefix}{resource_name}"` of an operation. */
  function EndpointName(op: Operation, name: string): string {
    EndpointPrefix(op) + name
  }

  /** `/{resource_name}` for listing and creating, `/{resource_name}/<item_id>`
      for reading, updating and deleting. */
  function RulePath(op: Operation, name: string): string {
    if op == GetAll || op == Create then "/" + name else "/" + name + "/<item_id>"
  }

  function VerbOf(op: Operation): Verb {
    match op
    case GetAll => GET
    case GetOne => GET
    case Create => POST
    case Update => PUT
    case Delete => DELETE
  }

  /** The rule of one operation of a resource. */
  function RuleFor(name: string, op: Operation): (r: Rule)
    ensures r.resource == name && r.op == op && r.endpoint == EndpointName(op, name)
  {
    Rule(RulePath(op, name), EndpointName(op, name), VerbOf(op), name, op)
  }

  /** The five rules of one resource, one per operation, in registration order. */
  function ResourceRules(name: string): (rs: seq<Rule>)
    ensures |rs| == 5
    ensures forall i :: 0 <= i < 5 ==> OpIndex(rs[i].op) == i
    ensures forall op :: rs[OpIndex(op)] == RuleFor(name, op)
  {
    [RuleFor(name, GetAll), RuleFor(name, GetOne), RuleFor(name, Create),
     RuleFor(name, Update), RuleFor(name, Delete)]
  }

  /** No two rules of one resource share both verb and path, so each request
      to a resource reaches exactly one operation. */
  lemma RulesDispatchUniquely(name: string)
    ensures forall i, j :: 0 <= i < j < 5 ==>
              (ResourceRules(name)[i].verb, ResourceRules(name)[i].path) !=
              (ResourceRules(name)[j].verb, ResourceRules(name)[j].path)
  {
    var collection, item := "/" + name, "/" + name + "/<item_id>";
    assert |collection| != |item|;
    var rs := ResourceRules(name);
    assert rs[0].path == collection && rs[2].path == collection;
    assert rs[1].path == item && rs[3].path == item && rs[4].path == item;
  }

  /** The rules of every discovered resource, in discovery order. */
  function RouteTable(names: seq<string>): (rs: seq<Rule>)
    ensures |rs| == 5 * |names|
  {
    if names == [] then [] else ResourceRules(names[0]) + RouteTable(names[1..])
  }

  /** Every rule of the table is the rule of one operation of a discovered
      resource. */
  lemma {:induction false} RouteTableSound(names: seq<string>, r: Rule)
    requires r in RouteTable(names)
    ensures r.resource in names && r == RuleFor(r.resource, r.op)
  {
    var first := ResourceRules(names[0]);
    if r in first {
      var i :| 0 <= i < 5 && first[i] == r;
      assert first[OpIndex(r.op)] == r;
    } else {
      RouteTableSound(names[1..], r);
    }
  }

  /** Every operation of every discovered resource has its rule in the table. */
  lemma {:induction false} RouteTableComplete(names: seq<string>, n: string, op: Operation)
    requires n in names
    ensures RuleFor(n, op) in RouteTable(names)
  {
    if n == names[0] {
      assert ResourceRules(n)[OpIndex(op)] == RuleFor(n, op);
    } else {
      RouteTableComplete(names[1..], n, op);
    }
  }

  /** An endpoint name determines its operation and its resource. */
  lemma EndpointNameInjective(op1: Operation, n1: string, op2: Operation, n2: string)
    ensures EndpointName(op1, n1) == EndpointName(op2, n2) ==> op1 == op2 && n1 == n2
  {
    var p1, p2 := EndpointPrefix(op1), EndpointPrefix(op2);
    if p1 + n1 == p2 + n2 {
      var e := p1 + n1;
      assert e[0] == p1[0] == p2[0];
      assert e[4] == p1[4] == p2[4];
      assert op1 == op2;
      assert n1 == e[|p1|..] == n2;
    }
  }

  predicate DistinctEndpoints(rs: seq<Rule>) {
    forall a, b :: 0 <= a < b < |rs| ==> rs[a].endpoint != rs[b].endpoint
  }

  /** Distinct resource names give distinct endpoint names across the whole
      table, so no registration clashes with another. */
  lemma {:induction false} EndpointsDistinct(names: seq<string>)
    requires forall i, j :: 0 <= i < j < |names| ==> names[i] != names[j]
    ensures DistinctEndpoints(RouteTable(names))
  {
    if names != [] {
      var first, rest := ResourceRules(names[0]), RouteTable(names[1..]);
      EndpointsDistinct(names[1..]);
      var rs := first + rest;
      forall a, b | 0 <= a < b < |rs|
        ensures rs[a].endpoint != rs[b].endpoint
      {
        var ra, rb := rs[a], rs[b];
        EndpointNameInjective(ra.op, ra.resource, rb.op, rb.resource);
        if b < 5 {
          assert ra == first[a] && rb == first[b];
          assert OpIndex(ra.op) == a && OpIndex(rb.op) == b;
        } else if a < 5 {
          assert ra == first[a] && first[OpIndex(ra.op)] == RuleFor(names[0], ra.op);
          assert rb == rest[b - 5];
          RouteTableSound(names[1..], rb);
        } else {
          assert ra == rest[a - 5] && rb == rest[b - 5];
        }
      }
    }
  }
}
