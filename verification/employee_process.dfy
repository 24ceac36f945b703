/**
  EmployeeProcess.lifeCycle: an employee fixed to one station serves that station's customers one at
  a time, and parks itself in the station's idle queue whenever nobody waits.

  The Java body is an endless loop that suspends in `hold` (serving) or `passivate` (idle). `Resume`
  runs the code between two suspensions: after a service hold it reactivates the customer it served,
  then it makes one pass of the loop for its station. The two copies of EmployeeProcess.java in the
  repository have the same loop.
*/
module EmployeeLifeCycle {
  import opened WaitQueue
  import opened Kernel
  import Station
  import opened SelfServiceModel

  /** The queues after one pass of the loop, where the employee resumes next, and the kernel calls made. */
  datatype PassResult = PassResult(queues: Queues, next: ServerPoint, acts: seq<Action>)

  /** One pass of the loop. With a station index outside 0..4 the pass touches nothing and does not
      suspend, so the loop goes round again. */
  function Pass(q: Queues, self: EmployeeProcess, serviceTime: real): (r: PassResult)
    ensures !(0 <= self.stationIndex < NUM_STATIONS) ==>
              r.queues == q && r.next == LoopTop && r.acts == []
    ensures 0 <= self.stationIndex < NUM_STATIONS ==>
              var k := self.stationIndex;
              // only the employee's own station is touched
              && (forall j :: 0 <= j < NUM_STATIONS && j != k ==> r.queues.Pair(j) == q.Pair(j))
              && r.queues.DrinksPair() == q.DrinksPair() && r.queues.SeatsPair() == q.SeatsPair()
              && r.queues.reservedSeats == q.reservedSeats
              // nobody waits: park in the idle queue and passivate
              && (q.Pair(k).demand == [] ==>
                    && r.queues.Pair(k) == Station.Pair([], q.Pair(k).idle + [self])
                    && r.next == Parked && r.acts == [Passivate])
              // otherwise take the head customer and hold for the service time
              && (q.Pair(k).demand != [] ==>
                    && r.queues.Pair(k) == Station.Pair(q.Pair(k).demand[1..], q.Pair(k).idle)
                    && r.next == Serving(q.Pair(k).demand[0]) && r.acts == [Hold(serviceTime)])
    ensures EndsSuspended(r.acts) <==> 0 <= self.stationIndex < NUM_STATIONS
  {
    var k := self.stationIndex;
    if 0 <= k < NUM_STATIONS then
      var (p, o) := Station.Poll(q.Pair(k), self);
      if o.Serve? then PassResult(q.WithPair(k, p), Serving(o.customer), [Hold(serviceTime)])
      else PassResult(q.WithPair(k, p), Parked, [Passivate])
    else
      PassResult(q, LoopTop, [])
  }

  /** One resumption of the employee by the kernel. */
  method Resume(self: EmployeeProcess, model: Model, serviceTime: real) returns (acts: seq<Action>)
    requires 0 <= self.stationIndex < NUM_STATIONS ==> Sample(StationService(self.stationIndex), serviceTime)
    modifies self, model
    ensures var r := Pass(old(model.Snapshot()), self, serviceTime);
            && model.Snapshot() == r.queues
            && self.resume == r.next
            && acts == Release(old(self.resume)) + r.acts
  {
    // the service hold is over: reactivate the customer
    acts := Release(self.resume);

    var k := self.stationIndex;
    if 0 <= k < NUM_STATIONS {
      if model.Snapshot().Pair(k).demand == [] {
        model.ParkEmployee(k, self);
        acts := acts + [Passivate];
        self.resume := Parked;
      } else {
        var customer := model.TakeCustomer(k);
        acts := acts + [Hold(serviceTime)];
        self.resume := Serving(customer);
      }
    } else {
      // no such station: the error is reported and the loop goes round again without suspending
      self.resume := LoopTop;
    }
  }
}
