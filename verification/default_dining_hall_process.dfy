/**
  DiningHallProcess.lifeCycle, in the default package: a seat serves two queues, the customers
  waiting for a seat and those holding a reservation for their dessert, and gives the reservations
  priority. It parks only when both queues are empty. This copy never sets its mainDish flag back to
  true: once a customer has set it to false, every later rest on that seat is a dessert rest.
*/
module DefaultDiningHallLifeCycle {
  import opened WaitQueue
  import opened Kernel
  import opened SelfServiceModel

  datatype PassResult = PassResult(queues: Queues, next: SeatPoint, acts: seq<Action>)

  /** One pass of the loop. */
  function Pass(q: Queues, self: DiningHallProcess, mainDish: bool, mainDishRest: real, dessertRest: real)
    : (r: PassResult)
    // only the dining hall's three queues change
    ensures r.queues == q.(diningHallSeats := r.queues.diningHallSeats,
                           reservedSeats := r.queues.reservedSeats,
                           idleDiningHallSeats := r.queues.idleDiningHallSeats)
    // the seat parks exactly when nobody waits in either queue
    ensures r.next == SeatParked <==> q.diningHallSeats == [] && q.reservedSeats == []
    ensures r.next == SeatParked ==>
              r.queues == q.(idleDiningHallSeats := q.idleDiningHallSeats + [self]) && r.acts == [Passivate]
    // a reservation is served first, then the customers waiting for a seat, for the rest the flag says
    ensures q.reservedSeats != [] ==>
              && r.queues == q.(reservedSeats := q.reservedSeats[1..])
              && r.next == Resting(mainDish, q.reservedSeats[0])
              && r.acts == [Hold(if mainDish then mainDishRest else dessertRest)]
    ensures q.reservedSeats == [] && q.diningHallSeats != [] ==>
              && r.queues == q.(diningHallSeats := q.diningHallSeats[1..])
              && r.next == Resting(mainDish, q.diningHallSeats[0])
              && r.acts == [Hold(if mainDish then mainDishRest else dessertRest)]
  {
    if q.diningHallSeats == [] && q.reservedSeats == [] then
      PassResult(q.(idleDiningHallSeats := q.idleDiningHallSeats + [self]), SeatParked, [Passivate])
    else
      var (customer, rest) :=
        if q.reservedSeats == [] then
          (q.diningHallSeats[0], q.(diningHallSeats := Remove(q.diningHallSeats, q.diningHallSeats[0])))
        else
          (q.reservedSeats[0], q.(reservedSeats := Remove(q.reservedSeats, q.reservedSeats[0])));
      if mainDish then PassResult(rest, RestingMainDish(customer), [Hold(mainDishRest)])
      else PassResult(rest, RestingDessert(customer), [Hold(dessertRest)])
  }

  /** Once the flag is false every rest on the seat is a dessert rest, whichever queue it serves. */
  lemma FalseFlagSticks(q: Queues, self: DiningHallProcess, mainDishRest: real, dessertRest: real)
    ensures var r := Pass(q, self, false, mainDishRest, dessertRest);
            !r.next.RestingMainDish? && (r.next != SeatParked ==> r.acts == [Hold(dessertRest)])
  {
  }

  /** One resumption of the seat by the kernel. */
  method Resume(self: DiningHallProcess, model: Model, mainDishRest: real, dessertRest: real)
    returns (acts: seq<Action>)
    requires Sample(MainDishRest, mainDishRest) && Sample(DessertRest, dessertRest)
    modifies self, model
    ensures self.mainDish == old(self.mainDish)
    ensures var r := Pass(old(model.Snapshot()), self, self.mainDish, mainDishRest, dessertRest);
            && model.Snapshot() == r.queues
            && self.resume == r.next
            && acts == ReleaseSeat(old(self.resume)) + r.acts
  {
    // the rest is over: reactivate the customer
    acts := ReleaseSeat(self.resume);

    if model.customerDiningHallSeatsQueue == [] && model.customerReservedSeats == [] {
      model.idleDiningHallSeatsQueue := model.idleDiningHallSeatsQueue + [self];
      acts := acts + [Passivate];
      self.resume := SeatParked;
    } else {
      var customer: CustomerProcess;
      if model.customerReservedSeats == [] {
        customer := model.customerDiningHallSeatsQueue[0];
        model.customerDiningHallSeatsQueue := Remove(model.customerDiningHallSeatsQueue, customer);
      } else {
        customer := model.customerReservedSeats[0];
        model.customerReservedSeats := Remove(model.customerReservedSeats, customer);
      }
      if self.mainDish {
        acts := acts + [Hold(mainDishRest)];
        self.resume := RestingMainDish(customer);
      } else {
        acts := acts + [Hold(dessertRest)];
        self.resume := RestingDessert(customer);
      }
    }
  }
}
