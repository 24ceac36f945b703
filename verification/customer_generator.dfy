/**
  CustomerGenerator.lifeCycle: the process source that keeps the simulation going. Each pass of its
  endless loop creates a customer, schedules it right after the generator, and holds for an
  inter-arrival time drawn from the customer-arrival stream.

  `Run` makes the first |gaps| passes, gaps[i] being the i-th draw.
*/
module GeneratorLifeCycle {
  import opened WaitQueue
  import opened Kernel
  import opened SelfServiceModel

  /** The calls one pass makes: schedule the new customer, then hold until the next arrival. */
  function Pass(customer: CustomerProcess, gap: real): (acts: seq<Action>)
    ensures EndsSuspended(acts)
    ensures acts[0] == ActivateAfter(customer) && acts[1].Hold?
  {
    [ActivateAfter(customer), Hold(gap)]
  }

  /** The calls of successive passes, one customer and one gap per pass. */
  function Arrivals(customers: seq<CustomerProcess>, gaps: seq<real>): seq<Action>
    requires |customers| == |gaps|
    decreases |gaps|
  {
    if gaps == [] then []
    else Arrivals(customers[..|customers| - 1], gaps[..|gaps| - 1])
         + Pass(customers[|customers| - 1], gaps[|gaps| - 1])
  }

  /** Pass i schedules customer i at position 2i and holds for gap i at position 2i + 1: customers
      enter in creation order, each exactly once, and the generator suspends after each of them. */
  lemma {:induction false} ArrivalsInterleave(customers: seq<CustomerProcess>, gaps: seq<real>)
    requires |customers| == |gaps|
    ensures |Arrivals(customers, gaps)| == 2 * |gaps|
    ensures forall i :: 0 <= i < |gaps| ==>
              Arrivals(customers, gaps)[2 * i] == ActivateAfter(customers[i])
              && Arrivals(customers, gaps)[2 * i + 1] == Hold(gaps[i])
    decreases |gaps|
  {
    if gaps != [] {
      var n := |gaps| - 1;
      var init := Arrivals(customers[..n], gaps[..n]);
      ArrivalsInterleave(customers[..n], gaps[..n]);
      assert Arrivals(customers, gaps) == init + Pass(customers[n], gaps[n]);
      forall i | 0 <= i < |gaps|
        ensures Arrivals(customers, gaps)[2 * i] == ActivateAfter(customers[i])
        ensures Arrivals(customers, gaps)[2 * i + 1] == Hold(gaps[i])
      {
        if i < n {
          assert customers[..n][i] == customers[i] && gaps[..n][i] == gaps[i];
        }
      }
    }
  }

  /** The first |gaps| passes of the loop. */
  method Run(gaps: seq<real>) returns (customers: seq<CustomerProcess>, acts: seq<Action>)
    requires forall i :: 0 <= i < |gaps| ==> Sample(CustomerArrival, gaps[i])
    ensures |customers| == |gaps|
    ensures NoDuplicates(customers)
    ensures forall c :: c in customers ==> fresh(c) && c.stage == Arriving
    ensures acts == Arrivals(customers, gaps)
    ensures |acts| == 2 * |gaps|
    ensures forall i :: 0 <= i < |gaps| ==>
              acts[2 * i] == ActivateAfter(customers[i]) && acts[2 * i + 1] == Hold(gaps[i])
  {
    customers := [];
    acts := [];
    var i := 0;
    while i < |gaps|
      invariant 0 <= i <= |gaps|
      invariant |customers| == i
      invariant NoDuplicates(customers)
      invariant forall c :: c in customers ==> fresh(c) && c.stage == Arriving
      invariant acts == Arrivals(customers, gaps[..i])
    {
      var customer := new CustomerProcess();
      assert customers + [customer] == (customers + [customer])[..i + 1];
      assert (customers + [customer])[..i] == customers;
      assert gaps[..i + 1][..i] == gaps[..i];
      acts := acts + Pass(customer, gaps[i]);
      customers := customers + [customer];
      i := i + 1;
    }
    assert gaps[..i] == gaps;
    ArrivalsInterleave(customers, gaps);
  }
}
