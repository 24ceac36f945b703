/**
  The protocol every station of the cafeteria follows, stated once over one pair of queues: a demand
  queue of customers and a supply queue of idle resources (employees, drinks machines or seats).

  - A customer joining the station appends itself to the demand queue and, if a resource is idle,
    removes the head of the idle queue to wake it (matching on insert).
  - A resource at the top of its loop takes the head customer, or parks itself in the idle queue
    when nobody waits.

  `Run` replays any interleaving of these moves at one station, keeping count of the resources the
  kernel has been asked to resume (`woken`) and of those holding for a service (`busy`). The lemmas
  below show that, whatever the interleaving, no resource is created or lost, no customer waits next
  to an idle resource unless one has already been woken for it, and customers are served in arrival order.
*/
module Station {
  import opened WaitQueue

  datatype Pair<C, R> = Pair(demand: seq<C>, idle: seq<R>)

  /** The resource a matching step woke, as a list of zero or one. */
  function Woken<R>(w: Option<R>): (s: seq<R>)
    ensures |s| <= 1
  {
    if w.Some? then [w.value] else []
  }

  /** Matching on insert: the customer is appended; an idle resource, if any, is removed from the
      head of the idle queue, to be woken by the caller. */
  function Join<C, R(==)>(p: Pair<C, R>, c: C): (r: (Pair<C, R>, Option<R>))
    ensures r.0.demand == p.demand + [c]
    ensures Woken(r.1) + r.0.idle == p.idle
    ensures r.1.None? <==> p.idle == []
  {
    if p.idle == [] then
      (Pair(p.demand + [c], p.idle), None)
    else
      var resource := p.idle[0];
      (Pair(p.demand + [c], Remove(p.idle, resource)), Some(resource))
  }

  datatype Outcome<C> = Serve(customer: C) | GoIdle

  function Served<C>(o: Outcome<C>): seq<C>
  {
    if o.Serve? then [o.customer] else []
  }

  /** One pass of a resource's loop: with nobody waiting it parks itself in the idle queue,
      otherwise it takes the customer at the head of the demand queue. */
  function Poll<C(==), R>(p: Pair<C, R>, self: R): (r: (Pair<C, R>, Outcome<C>))
    ensures Served(r.1) + r.0.demand == p.demand
    ensures r.0.idle == if r.1.GoIdle? then p.idle + [self] else p.idle
    ensures r.1.GoIdle? <==> p.demand == []
  {
    if p.demand == [] then
      (Pair(p.demand, p.idle + [self]), GoIdle)
    else
      var customer := p.demand[0];
      (Pair(Remove(p.demand, customer), p.idle), Serve(customer))
  }

  /** The moves that touch one station. */
  datatype Event<C, R> =
    | Arrive(customer: C)   // a customer joins, with matching on insert
    | Resume(resource: R)   // a resource the kernel was asked to resume reaches the top of its loop
    | Finish(resource: R)   // a resource's service hold ends; it reactivates its customer and loops

  /** The station's queues, the resources scheduled to resume, those serving, and the customers
      served so far, in order. */
  datatype State<C, R> = State(pair: Pair<C, R>, woken: nat, busy: nat, served: seq<C>)

  /** At the start of a run every resource has been activated with delay 0, none is parked yet,
      and nobody waits. */
  function Start<C, R>(resources: nat): State<C, R>
  {
    State(Pair([], []), resources, 0, [])
  }

  function AfterPoll<C(==), R>(s: State<C, R>, resource: R): State<C, R>
  {
    var (p, o) := Poll(s.pair, resource);
    if o.Serve? then s.(pair := p, busy := s.busy + 1, served := s.served + [o.customer])
    else s.(pair := p)
  }

  /** A Resume or Finish with nobody in that condition cannot be issued by the kernel; it is a no-op. */
  function Apply<C(==), R(==)>(s: State<C, R>, e: Event<C, R>): State<C, R>
  {
    match e
    case Arrive(c) =>
      var (p, w) := Join(s.pair, c);
      s.(pair := p, woken := s.woken + |Woken(w)|)
    case Resume(r) =>
      if s.woken == 0 then s else AfterPoll(s.(woken := s.woken - 1), r)
    case Finish(r) =>
      if s.busy == 0 then s else AfterPoll(s.(busy := s.busy - 1), r)
  }

  function Run<C(==), R(==)>(s: State<C, R>, es: seq<Event<C, R>>): State<C, R>
    decreases |es|
  {
    if es == [] then s else Run(Apply(s, es[0]), es[1..])
  }

  /** Customers of the Arrive events, in order. */
  function Arrivals<C, R>(es: seq<Event<C, R>>): seq<C>
    decreases |es|
  {
    if es == [] then []
    else (if es[0].Arrive? then [es[0].customer] else []) + Arrivals(es[1..])
  }

  function Capacity<C, R>(s: State<C, R>): nat
  {
    |s.pair.idle| + s.woken + s.busy
  }

  /** Resource conservation: every resource is idle, scheduled to resume, or serving, and the
      total never changes. */
  lemma {:induction false} RunConservesResources<C, R>(s: State<C, R>, es: seq<Event<C, R>>)
    ensures Capacity(Run(s, es)) == Capacity(s)
    decreases |es|
  {
    if es != [] {
      var e := es[0];
      var t := Apply(s, e);
      match e {
        case Arrive(c) =>
          var (p, w) := Join(s.pair, c);
          assert |p.idle| + |Woken(w)| == |s.pair.idle|;
        case Resume(r) =>
        case Finish(r) =>
      }
      assert Capacity(t) == Capacity(s);
      RunConservesResources(t, es[1..]);
    }
  }

  /** The matching invariant: while a resource is idle, every waiting customer already has a
      resource woken for it. */
  predicate Matched<C, R>(s: State<C, R>)
  {
    s.pair.idle != [] ==> |s.pair.demand| <= s.woken
  }

  lemma {:induction false} RunKeepsMatched<C, R>(s: State<C, R>, es: seq<Event<C, R>>)
    requires Matched(s)
    ensures Matched(Run(s, es))
    decreases |es|
  {
    if es != [] {
      var t := Apply(s, es[0]);
      match es[0] {
        case Arrive(c) =>
          var (p, w) := Join(s.pair, c);
          assert |Woken(w) + p.idle| == |s.pair.idle|;
        case Resume(r) =>
        case Finish(r) =>
      }
      assert Matched(t);
      RunKeepsMatched(t, es[1..]);
    }
  }

  /** Matching on insert does not keep a customer from waiting next to an idle resource: two
      resources park, then one customer arrives and wakes only the first of them. Until the woken
      resource runs, the customer waits while the second resource is idle. So the invariant above
      counts the resources already woken rather than asking one of the two queues to be empty. */
  lemma WaitingBesideIdle(c: int, r1: int, r2: int)
    requires r1 != r2
    ensures var s := Run(Start<int, int>(2), [Resume(r1), Resume(r2), Arrive(c)]);
            && s.pair.demand == [c] && s.pair.idle == [r2] && s.woken == 1
  {
    var s1 := Apply(Start<int, int>(2), Resume(r1));
    assert s1.pair == Pair([], [r1]) && s1.woken == 1;
    var s2 := Apply(s1, Resume(r2));
    assert s2.pair == Pair([], [r1, r2]) && s2.woken == 0;
    var s3 := Apply(s2, Arrive(c));
    assert s3.pair == Pair([c], [r2]) && s3.woken == 1;
    assert Run(s3, []) == s3;
    assert Run(s2, [Arrive(c)]) == Run(s3, []);
    assert Run(s1, [Resume(r2), Arrive(c)]) == Run(s2, [Arrive(c)]);
  }

  /** One move serves at most the head of the demand queue and appends at most the arriving customer. */
  lemma ApplyServesHead<C, R>(s: State<C, R>, e: Event<C, R>)
    ensures Apply(s, e).served + Apply(s, e).pair.demand
         == s.served + s.pair.demand + (if e.Arrive? then [e.customer] else [])
  {
    match e {
      case Arrive(c) =>
      case Resume(r) =>
        if s.woken > 0 {
          var (p, o) := Poll(s.pair, r);
          assert Served(o) + p.demand == s.pair.demand;
        }
      case Finish(r) =>
        if s.busy > 0 {
          var (p, o) := Poll(s.pair, r);
          assert Served(o) + p.demand == s.pair.demand;
        }
    }
  }

  /** FIFO service: the customers served, followed by those still waiting, are exactly the
      customers that were waiting or arrived, in the same order. */
  lemma {:induction false} RunServesInArrivalOrder<C, R>(s: State<C, R>, es: seq<Event<C, R>>)
    ensures Run(s, es).served + Run(s, es).pair.demand == s.served + s.pair.demand + Arrivals(es)
    decreases |es|
  {
    if es != [] {
      var t := Apply(s, es[0]);
      var arrived := if es[0].Arrive? then [es[0].customer] else [];
      assert Run(s, es) == Run(t, es[1..]);
      assert Arrivals(es) == arrived + Arrivals(es[1..]);
      ApplyServesHead(s, es[0]);
      assert t.served + t.pair.demand == s.served + s.pair.demand + arrived;
      RunServesInArrivalOrder(t, es[1..]);
      var u := Run(t, es[1..]);
      assert u.served + u.pair.demand == (s.served + s.pair.demand + arrived) + Arrivals(es[1..]);
    }
  }

  /** From the initial schedule of `n` resources, every run keeps all three properties. */
  lemma RunFromStart<C, R>(n: nat, es: seq<Event<C, R>>, final: State<C, R>)
    requires final == Run(Start(n), es)
    ensures Capacity(final) == n
    ensures Matched(final)
    ensures final.served + final.pair.demand == Arrivals(es)
  {
    RunConservesResources(Start<C, R>(n), es);
    RunKeepsMatched(Start<C, R>(n), es);
    RunServesInArrivalOrder(Start<C, R>(n), es);
  }
}
