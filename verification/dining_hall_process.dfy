/**
  DiningHallProcess.lifeCycle, in the selfservicecafe_p package: a seat of the dining hall lets the
  customers of the dining hall queue rest, one at a time, for a main dish or, when a customer has set
  its mainDish flag to false, for a dessert. After a dessert the seat sets the flag back to true, so a
  false flag changes exactly one rest.
*/
module DiningHallLifeCycle {
  import opened WaitQueue
  import opened Kernel
  import Station
  import opened SelfServiceModel

  datatype PassResult = PassResult(queues: Queues, next: SeatPoint, acts: seq<Action>)

  /** One pass of the loop, with the flag `mainDish` as it is at the top of the loop. */
  function Pass(q: Queues, self: DiningHallProcess, mainDish: bool, mainDishRest: real, dessertRest: real)
    : (r: PassResult)
    // only the dining hall's two queues change
    ensures r.queues == q.(diningHallSeats := r.queues.diningHallSeats,
                           idleDiningHallSeats := r.queues.idleDiningHallSeats)
    // nobody waits: park in the idle queue and passivate
    ensures q.diningHallSeats == [] ==>
              && r.queues.diningHallSeats == []
              && r.queues.idleDiningHallSeats == q.idleDiningHallSeats + [self]
              && r.next == SeatParked && r.acts == [Passivate]
    // otherwise seat the head customer for a main dish or a dessert, as the flag says
    ensures q.diningHallSeats != [] ==>
              && r.queues.diningHallSeats == q.diningHallSeats[1..]
              && r.queues.idleDiningHallSeats == q.idleDiningHallSeats
              && r.next == Resting(mainDish, q.diningHallSeats[0])
              && r.acts == [Hold(if mainDish then mainDishRest else dessertRest)]
  {
    if q.diningHallSeats == [] then
      PassResult(q.(idleDiningHallSeats := q.idleDiningHallSeats + [self]), SeatParked, [Passivate])
    else
      var customer := q.diningHallSeats[0];
      var rest := q.(diningHallSeats := Remove(q.diningHallSeats, customer));
      if mainDish then PassResult(rest, RestingMainDish(customer), [Hold(mainDishRest)])
      else PassResult(rest, RestingDessert(customer), [Hold(dessertRest)])
  }

  /** A pass is the station protocol's poll on the seat pair: the seat seats whom Poll serves and
      parks exactly when Poll goes idle. */
  lemma PassIsPoll(q: Queues, self: DiningHallProcess, mainDish: bool, mainDishRest: real, dessertRest: real)
    ensures var r := Pass(q, self, mainDish, mainDishRest, dessertRest);
            var (p, o) := Station.Poll(q.SeatsPair(), self);
            && r.queues.SeatsPair() == p
            && (r.next == SeatParked <==> o.GoIdle?)
            && (o.Serve? ==> r.next == Resting(mainDish, o.customer))
  {
  }

  /** The flag on resuming: set back to true at the end of a dessert rest, untouched otherwise. */
  function FlagAfter(p: SeatPoint, mainDish: bool): bool
  {
    p.RestingDessert? || mainDish
  }

  /** A false flag changes one rest only: the pass right after a dessert rest never starts another. */
  lemma DessertIsFollowedByMainDish(q: Queues, self: DiningHallProcess, diner: CustomerProcess, mainDish: bool,
                                    mainDishRest: real, dessertRest: real)
    ensures var r := Pass(q, self, FlagAfter(RestingDessert(diner), mainDish), mainDishRest, dessertRest);
            !r.next.RestingDessert? && (q.diningHallSeats != [] ==> r.acts == [Hold(mainDishRest)])
  {
  }

  /** One resumption of the seat by the kernel. */
  method Resume(self: DiningHallProcess, model: Model, mainDishRest: real, dessertRest: real)
    returns (acts: seq<Action>)
    requires Sample(MainDishRest, mainDishRest) && Sample(DessertRest, dessertRest)
    modifies self, model
    // the flag is back to true after a dessert, and untouched otherwise
    ensures self.mainDish == FlagAfter(old(self.resume), old(self.mainDish))
    ensures var r := Pass(old(model.Snapshot()), self, self.mainDish, mainDishRest, dessertRest);
            && model.Snapshot() == r.queues
            && self.resume == r.next
            && acts == ReleaseSeat(old(self.resume)) + r.acts
  {
    // the rest is over: after a dessert the next customer eats a main dish again;
    // then the customer is reactivated
    if self.resume.RestingDessert? {
      self.mainDish := true;
    }
    acts := ReleaseSeat(self.resume);

    if model.customerDiningHallSeatsQueue == [] {
      model.idleDiningHallSeatsQueue := model.idleDiningHallSeatsQueue + [self];
      acts := acts + [Passivate];
      self.resume := SeatParked;
    } else {
      var customer := model.customerDiningHallSeatsQueue[0];
      model.customerDiningHallSeatsQueue := Remove(model.customerDiningHallSeatsQueue, customer);
      if self.mainDish {
        acts := acts + [Hold(mainDishRest)];
        self.resume := RestingMainDish(customer);
      } else {
        acts := acts + [Hold(dessertRest)];
        self.resume := RestingDessert(customer);
      }
    }
  }
}
