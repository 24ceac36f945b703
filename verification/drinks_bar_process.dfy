/**
  DrinksBarProcess.lifeCycle: a drinks machine serves the customers of the drinks bar one at a time
  and parks itself in the idle queue whenever nobody waits. `Resume` runs the code between two
  suspensions of its endless loop.
*/
module DrinksBarLifeCycle {
  import opened WaitQueue
  import opened Kernel
  import Station
  import opened SelfServiceModel

  datatype PassResult = PassResult(queues: Queues, next: ServerPoint, acts: seq<Action>)

  /** One pass of the loop. */
  function Pass(q: Queues, self: DrinksBarProcess, serviceTime: real): (r: PassResult)
    // only the drinks bar's two queues change
    ensures r.queues == q.(drinksBar := r.queues.drinksBar, idleDrinksBar := r.queues.idleDrinksBar)
    // nobody waits: park in the idle queue and passivate
    ensures q.drinksBar == [] ==>
              && r.queues.drinksBar == [] && r.queues.idleDrinksBar == q.idleDrinksBar + [self]
              && r.next == Parked && r.acts == [Passivate]
    // otherwise take the head customer and hold for the service time
    ensures q.drinksBar != [] ==>
              && r.queues.drinksBar == q.drinksBar[1..] && r.queues.idleDrinksBar == q.idleDrinksBar
              && r.next == Serving(q.drinksBar[0]) && r.acts == [Hold(serviceTime)]
  {
    if q.drinksBar == [] then
      PassResult(q.(idleDrinksBar := q.idleDrinksBar + [self]), Parked, [Passivate])
    else
      var customer := q.drinksBar[0];
      PassResult(q.(drinksBar := Remove(q.drinksBar, customer)), Serving(customer), [Hold(serviceTime)])
  }

  /** A pass is the station protocol's poll on the drinks pair: the machine serves whom Poll serves
      and parks exactly when Poll goes idle. */
  lemma PassIsPoll(q: Queues, self: DrinksBarProcess, serviceTime: real)
    ensures var r := Pass(q, self, serviceTime);
            var (p, o) := Station.Poll(q.DrinksPair(), self);
            && r.queues.DrinksPair() == p
            && (r.next == Parked <==> o.GoIdle?)
            && (o.Serve? ==> r.next == Serving(o.customer))
  {
  }

  /** One resumption of the machine by the kernel. */
  method Resume(self: DrinksBarProcess, model: Model, serviceTime: real) returns (acts: seq<Action>)
    requires Sample(DrinksBarService, serviceTime)
    modifies self, model
    ensures var r := Pass(old(model.Snapshot()), self, serviceTime);
            && model.Snapshot() == r.queues
            && self.resume == r.next
            && acts == Release(old(self.resume)) + r.acts
  {
    // the service hold is over: reactivate the customer
    acts := Release(self.resume);

    if model.customerDrinksBarQueue == [] {
      model.idleDrinksBarQueue := model.idleDrinksBarQueue + [self];
      acts := acts + [Passivate];
      self.resume := Parked;
    } else {
      var customer := model.customerDrinksBarQueue[0];
      model.customerDrinksBarQueue := Remove(model.customerDrinksBarQueue, customer);
      acts := acts + [Hold(serviceTime)];
      self.resume := Serving(customer);
    }
  }
}
