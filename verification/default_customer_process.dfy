/**
  CustomerProcess.lifeCycle, in the default package. The route is the one of the selfservicecafe_p
  copy up to the main dish. It then differs in three places:
  - a customer that wants a dessert first appends itself to the reserved-seats queue, then joins
    the dessert bar;
  - it never sets a seat's mainDish flag;
  - back at the dining hall, it wakes the head of the idle seats but calls remove on the drinks
    machines' idle queue, which does not hold seats. So the seat it wakes stays parked in the idle
    seats queue.

  `Step` is one resumption as a value; `Resume` is the same code on the model object.
*/
module DefaultCustomerLifeCycle {
  import opened WaitQueue
  import opened Kernel
  import opened SelfServiceModel

  /** The reservation: a plain insert, with no matching. */
  function Reserve(q: Queues, c: CustomerProcess): (q1: Queues)
    ensures JoinedAt(q, ReservedSeat, c, q1, None)
  {
    q.(reservedSeats := q.reservedSeats + [c])
  }

  /** The check-out. */
  function CheckOut(q: Queues, c: CustomerProcess): (o: Resumption)
    ensures o.stage == AtCheckOut && o.joined == [Stop.CheckOut] && o.flagged == None
  {
    var (q1, employee) := q.JoinStation(2, c);
    Resumption(q1, AtCheckOut, Wake(employee) + [Passivate], [Stop.CheckOut], None)
  }

  /** Back to the dining hall for the dessert. The seat at the head of the idle queue is woken, but
      the remove goes to the drinks machines' idle queue, so no idle queue changes at all. */
  function Reseat(q: Queues, c: CustomerProcess): (o: Resumption)
    ensures o.stage == AtDessertSeat && o.joined == [DiningHall] && o.flagged == None
    ensures o.queues == q.(diningHallSeats := q.diningHallSeats + [c])
    ensures q.idleDiningHallSeats == [] ==> o.acts == [Passivate]
    ensures q.idleDiningHallSeats != [] ==> o.acts == [ActivateAfter(q.idleDiningHallSeats[0]), Passivate]
  {
    var q1 := q.(diningHallSeats := q.diningHallSeats + [c]);
    if q1.idleDiningHallSeats == [] then
      Resumption(q1, AtDessertSeat, [Passivate], [DiningHall], None)
    else
      var seat := q1.idleDiningHallSeats[0];
      Resumption(q1.(idleDrinksBar := RemoveFromDrinksBar(q1.idleDrinksBar, seat)),
                 AtDessertSeat, [ActivateAfter(seat), Passivate], [DiningHall], None)
  }

  /** The customer's route as a state machine, with the queues left out: from stage st, with draw
      r, the stage it is parked at next and the stops it joins on the way. The route depends on the
      queues only at the dessert bar and the dessert check-out, where the customer goes on without
      suspending when no employee is idle (barIdle and checkOutIdle say whether one is). */
  function Next(st: Stage, r: real, barIdle: bool, checkOutIdle: bool): (n: (Stage, seq<Stop>))
    requires st != Finished
    // the customer moves forward on its route
    ensures Rank(st) < Rank(n.0)
    // it either returns from lifeCycle or joins at least one stop
    ensures n.0 == Finished <==> n.1 == []
    // the three draws
    ensures st == Arriving ==> n.1 == [if r < 0.4 then SandwichBar else MenuBar]
    ensures st == AtFoodBar ==> n.1 == [if r < 0.9 then Stop.DrinksBar else Stop.CheckOut]
    ensures st == AtMainDish ==> (n.0 == Finished <==> r >= 0.1)
    // the reservation comes first, then the dessert bar
    ensures st == AtMainDish && r < 0.1 ==> |n.1| >= 2 && n.1[..2] == [ReservedSeat, Stop.DessertBar]
    // a customer stays at a dessert stop only when an employee was idle there
    ensures n.0 == AtDessertBar ==> n.1 == [ReservedSeat, Stop.DessertBar] && barIdle
    ensures n.0 == AtDessertCheckOut ==> n.1[|n.1| - 1] == Stop.DessertCheckOut && checkOutIdle
  {
    match st
    case Arriving => (AtFoodBar, [if r < 0.4 then SandwichBar else MenuBar])
    case AtFoodBar => if r < 0.9 then (AtDrinksBar, [Stop.DrinksBar]) else (AtCheckOut, [Stop.CheckOut])
    case AtDrinksBar => (AtCheckOut, [Stop.CheckOut])
    case AtCheckOut => (AtMainDish, [DiningHall])
    case AtMainDish =>
      if r < 0.1 then
        var n := FromDessertBar(barIdle, checkOutIdle);
        (n.0, [ReservedSeat] + n.1)
      else (Finished, [])
    case AtDessertBar => FromDessertCheckOut(checkOutIdle)
    case AtDessertCheckOut => (AtDessertSeat, [DiningHall])
    case AtDessertSeat => (Finished, [])
  }

  function FromDessertCheckOut(checkOutIdle: bool): (Stage, seq<Stop>)
  {
    if checkOutIdle then (AtDessertCheckOut, [Stop.DessertCheckOut])
    else (AtDessertSeat, [Stop.DessertCheckOut, DiningHall])
  }

  function FromDessertBar(barIdle: bool, checkOutIdle: bool): (Stage, seq<Stop>)
  {
    if barIdle then (AtDessertBar, [Stop.DessertBar])
    else
      var n := FromDessertCheckOut(checkOutIdle);
      (n.0, [Stop.DessertBar] + n.1)
  }

  /** The dessert check-out, then the dining hall unless an employee was woken. */
  function DessertCheckOut(q: Queues, c: CustomerProcess): (o: Resumption)
    ensures o.flagged == None
    ensures (o.stage, o.joined) == FromDessertCheckOut(q.idleDessertCheckOut != [])
  {
    var (q1, employee) := q.JoinStation(4, c);
    assert employee.Some? <==> q.Pair(4).idle != [];
    if employee.Some? then
      Resumption(q1, AtDessertCheckOut, Wake(employee) + [Passivate], [Stop.DessertCheckOut], None)
    else
      var o := Reseat(q1, c);
      assert [Stop.DessertCheckOut] + o.joined == [Stop.DessertCheckOut, DiningHall];
      After(Stop.DessertCheckOut, o)
  }

  /** The dessert bar, then the dessert check-out unless an employee was woken. */
  function DessertBar(q: Queues, c: CustomerProcess): (o: Resumption)
    ensures o.flagged == None
    ensures (o.stage, o.joined) == FromDessertBar(q.idleDessertBar != [], q.idleDessertCheckOut != [])
  {
    var (q1, employee) := q.JoinStation(3, c);
    if employee.Some? then
      Resumption(q1, AtDessertBar, Wake(employee) + [Passivate], [Stop.DessertBar], None)
    else
      After(Stop.DessertBar, DessertCheckOut(q1, c))
  }

  /** One resumption of customer c parked at st, with r the draw it makes (if it makes one): it
      follows the route state machine, and returning from lifeCycle touches nothing. */
  function Step(q: Queues, c: CustomerProcess, st: Stage, r: real): (o: Resumption)
    requires st != Finished
    ensures (o.stage, o.joined) == Next(st, r, q.idleDessertBar != [], q.idleDessertCheckOut != [])
    ensures o.stage == Finished ==> o.queues == q && o.acts == []
    // no seat's flag is ever set
    ensures o.flagged == None
  {
    match st
    case Arriving =>
      var k := if r < 0.4 then 0 else 1;
      var (q1, employee) := q.JoinStation(k, c);
      Resumption(q1, AtFoodBar, Wake(employee) + [Passivate], [StationStop(k)], None)
    case AtFoodBar =>
      if r < 0.9 then
        var (q1, machine) := q.JoinDrinksBar(c);
        Resumption(q1, AtDrinksBar, Wake(machine) + [Passivate], [Stop.DrinksBar], None)
      else
        CheckOut(q, c)
    case AtDrinksBar =>
      CheckOut(q, c)
    case AtCheckOut =>
      var (q1, seat) := q.JoinDiningHall(c);
      Resumption(q1, AtMainDish, Wake(seat) + [Passivate], [DiningHall], None)
    case AtMainDish =>
      if r < 0.1 then After(ReservedSeat, DessertBar(Reserve(q, c), c))
      else Resumption(q, Finished, [], [], None)
    case AtDessertBar =>
      DessertCheckOut(q, c)
    case AtDessertCheckOut =>
      Reseat(q, c)
    case AtDessertSeat =>
      Resumption(q, Finished, [], [], None)
  }

  /** The seat woken for the dessert is still parked in the idle seats queue afterwards, so a later
      customer can wake it again while it is busy. */
  lemma ReseatLeavesSeatIdle(q: Queues, c: CustomerProcess)
    requires q.idleDiningHallSeats != []
    ensures var o := Reseat(q, c);
            && o.acts[0] == ActivateAfter(q.idleDiningHallSeats[0])
            && q.idleDiningHallSeats[0] in o.queues.idleDiningHallSeats
            && !WakesHead(q, o)
  {
    var s := q.idleDiningHallSeats;
    assert |Idle(q, DiningHall)[1..]| == |s| - 1;
  }

  lemma CheckOutJoins(q: Queues, c: CustomerProcess)
    ensures var o := CheckOut(q, c); Joins(q, c, o) && WakesHead(q, o) && EndsSuspended(o.acts)
  {
    JoinStationIsJoinedAt(q, 2, c);
    var (q1, employee) := q.JoinStation(2, c);
    JoinThenSuspend(q, c, Stop.CheckOut, q1, employee, AtCheckOut);
  }

  lemma ReseatJoins(q: Queues, c: CustomerProcess)
    ensures var o := Reseat(q, c); Joins(q, c, o) && EndsSuspended(o.acts)
  {
    var o := Reseat(q, c);
    forall s
      ensures Demand(o.queues, s) == Demand(q, s) + (if s in o.joined then [c] else [])
    {
    }
  }

  lemma DessertCheckOutJoins(q: Queues, c: CustomerProcess)
    ensures var o := DessertCheckOut(q, c);
            && Joins(q, c, o) && EndsSuspended(o.acts)
            && (o.stage == AtDessertCheckOut ==> WakesHead(q, o))
  {
    JoinStationIsJoinedAt(q, 4, c);
    var (q1, employee) := q.JoinStation(4, c);
    if employee.Some? {
      JoinThenSuspend(q, c, Stop.DessertCheckOut, q1, employee, AtDessertCheckOut);
    } else {
      ReseatJoins(q1, c);
      JoinThenGoOn(q, c, Stop.DessertCheckOut, q1, Reseat(q1, c));
    }
  }

  lemma DessertBarJoins(q: Queues, c: CustomerProcess)
    ensures var o := DessertBar(q, c);
            && Joins(q, c, o) && EndsSuspended(o.acts)
            && (o.stage != AtDessertSeat ==> WakesHead(q, o))
  {
    JoinStationIsJoinedAt(q, 3, c);
    var (q1, employee) := q.JoinStation(3, c);
    if employee.Some? {
      JoinThenSuspend(q, c, Stop.DessertBar, q1, employee, AtDessertBar);
    } else {
      var o := DessertCheckOut(q1, c);
      DessertCheckOutJoins(q1, c);
      assert Stop.DessertBar !in o.joined;
      JoinThenGoOn(q, c, Stop.DessertBar, q1, o);
    }
  }

  /** Every resumption that does not end the lifeCycle appends the customer to each stop it joins,
      goes on past a stop only when nobody was idle there, and passivates once; at every stop but
      the dessert seat it wakes and takes out the head of the idle queue, if any. */
  lemma StepJoins(q: Queues, c: CustomerProcess, st: Stage, r: real)
    requires st != Finished
    ensures var o := Step(q, c, st, r);
            && (o.stage != Finished ==> Joins(q, c, o) && EndsSuspended(o.acts))
            && (o.stage != Finished && o.stage != AtDessertSeat ==> WakesHead(q, o))
  {
    match st {
      case Arriving =>
        var k := if r < 0.4 then 0 else 1;
        JoinStationIsJoinedAt(q, k, c);
        var (q1, employee) := q.JoinStation(k, c);
        JoinThenSuspend(q, c, StationStop(k), q1, employee, AtFoodBar);
      case AtFoodBar =>
        if r < 0.9 {
          JoinDrinksBarIsJoinedAt(q, c);
          var (q1, machine) := q.JoinDrinksBar(c);
          JoinThenSuspend(q, c, Stop.DrinksBar, q1, machine, AtDrinksBar);
        } else {
          CheckOutJoins(q, c);
        }
      case AtDrinksBar =>
        CheckOutJoins(q, c);
      case AtCheckOut =>
        JoinDiningHallIsJoinedAt(q, c);
        var (q1, seat) := q.JoinDiningHall(c);
        JoinThenSuspend(q, c, DiningHall, q1, seat, AtMainDish);
      case AtMainDish =>
        if r < 0.1 {
          var q1 := Reserve(q, c);
          var o := DessertBar(q1, c);
          DessertBarJoins(q1, c);
          assert ReservedSeat !in o.joined;
          JoinThenGoOn(q, c, ReservedSeat, q1, o);
        }
      case AtDessertBar =>
        DessertCheckOutJoins(q, c);
      case AtDessertCheckOut =>
        ReseatJoins(q, c);
      case AtDessertSeat =>
    }
  }

  /** The stops still ahead of a customer parked at st, given its three draws. */
  function Remaining(st: Stage, d: Draws): seq<Stop>
    decreases 8 - Rank(st)
  {
    match st
    case Arriving => [if d.bar < 0.4 then SandwichBar else MenuBar] + Remaining(AtFoodBar, d)
    case AtFoodBar => (if d.drinks < 0.9 then [Stop.DrinksBar] else []) + Remaining(AtDrinksBar, d)
    case AtDrinksBar => [Stop.CheckOut] + Remaining(AtCheckOut, d)
    case AtCheckOut => [DiningHall] + Remaining(AtMainDish, d)
    case AtMainDish =>
      if d.dessert < 0.1 then [ReservedSeat, Stop.DessertBar] + Remaining(AtDessertBar, d) else []
    case AtDessertBar => [Stop.DessertCheckOut] + Remaining(AtDessertCheckOut, d)
    case AtDessertCheckOut => [DiningHall]
    case AtDessertSeat => []
    case Finished => []
  }

  /** A customer's whole route: as in the selfservicecafe_p copy, except that a customer who wants a
      dessert reserves a seat before the dessert bar. */
  function Route(d: Draws): (route: seq<Stop>)
    ensures |route| == (if d.drinks < 0.9 then 4 else 3) + (if d.dessert < 0.1 then 4 else 0)
    ensures route[0] == (if d.bar < 0.4 then SandwichBar else MenuBar)
    ensures Stop.DrinksBar in route <==> d.drinks < 0.9
    ensures ReservedSeat in route <==> d.dessert < 0.1
    ensures var i := if d.drinks < 0.9 then 2 else 1;
            && route[i] == Stop.CheckOut && route[i + 1] == DiningHall
            && Stop.CheckOut !in route[..i] && DiningHall !in route[..i]
    ensures d.dessert < 0.1 ==>
              route[|route| - 4..] == [ReservedSeat, Stop.DessertBar, Stop.DessertCheckOut, DiningHall]
  {
    var drinks := if d.drinks < 0.9 then [Stop.DrinksBar] else [];
    var dessert := if d.dessert < 0.1 then [ReservedSeat, Stop.DessertBar, Stop.DessertCheckOut, DiningHall] else [];
    [if d.bar < 0.4 then SandwichBar else MenuBar] + drinks + [Stop.CheckOut, DiningHall] + dessert
  }

  lemma RemainingAfterMainDish(d: Draws)
    ensures Remaining(AtMainDish, d)
            == if d.dessert < 0.1 then [ReservedSeat, Stop.DessertBar, Stop.DessertCheckOut, DiningHall] else []
  {
    assert Remaining(AtDessertCheckOut, d) == [DiningHall];
    assert Remaining(AtDessertBar, d) == [Stop.DessertCheckOut, DiningHall];
  }

  lemma RouteIsRemaining(d: Draws)
    ensures Remaining(Arriving, d) == Route(d)
  {
    RemainingAfterMainDish(d);
  }

  /** The stage a customer reaches and the stops it joins over successive resumptions, the i-th
      resumption finding the queues as qs[i] says. By the contract of Step, these are the stage and
      the stops of successive Steps. */
  function Walk(qs: seq<Queues>, st: Stage, d: Draws): (Stage, seq<Stop>)
    decreases |qs|
  {
    if st == Finished || qs == [] then (st, [])
    else
      var n := Next(st, DrawAt(st, d), qs[0].idleDessertBar != [], qs[0].idleDessertCheckOut != []);
      var w := Walk(qs[1..], n.0, d);
      (w.0, n.1 + w.1)
  }

  /** Whichever idle queues the customer finds, a step of the route state machine joins the next
      stops of the route and nothing else. */
  lemma NextFollowsRoute(st: Stage, d: Draws, barIdle: bool, checkOutIdle: bool)
    requires st != Finished
    ensures var n := Next(st, DrawAt(st, d), barIdle, checkOutIdle);
            n.1 + Remaining(n.0, d) == Remaining(st, d)
  {
    var n := Next(st, DrawAt(st, d), barIdle, checkOutIdle);
    match st {
      case AtCheckOut =>
        RemainingAfterMainDish(d);
      case AtMainDish =>
        RemainingAfterMainDish(d);
      case _ =>
    }
  }

  /** The stops joined so far followed by those still ahead always make up the route. */
  lemma {:induction false} WalkFollowsRoute(qs: seq<Queues>, st: Stage, d: Draws)
    ensures Walk(qs, st, d).1 + Remaining(Walk(qs, st, d).0, d) == Remaining(st, d)
    decreases |qs|
  {
    if st != Finished && qs != [] {
      var n := Next(st, DrawAt(st, d), qs[0].idleDessertBar != [], qs[0].idleDessertCheckOut != []);
      NextFollowsRoute(st, d, qs[0].idleDessertBar != [], qs[0].idleDessertCheckOut != []);
      var w := Walk(qs[1..], n.0, d);
      WalkFollowsRoute(qs[1..], n.0, d);
      assert Walk(qs, st, d) == (w.0, n.1 + w.1);
      JoinedThenAhead(n.1, w.1, Remaining(w.0, d));
    }
  }

  /** Every resumption moves the customer forward, so eight of them end its lifeCycle. */
  lemma {:induction false} WalkFinishes(qs: seq<Queues>, st: Stage, d: Draws)
    requires Rank(st) + |qs| >= 8
    ensures Walk(qs, st, d).0 == Finished
    decreases |qs|
  {
    if st != Finished && qs != [] {
      var n := Next(st, DrawAt(st, d), qs[0].idleDessertBar != [], qs[0].idleDessertCheckOut != []);
      WalkFinishes(qs[1..], n.0, d);
    }
  }

  /** Resumed often enough to finish, a customer has joined exactly the stops that lay ahead of it. */
  lemma WalkCompletes(qs: seq<Queues>, st: Stage, d: Draws)
    requires Rank(st) + |qs| >= 8
    ensures Walk(qs, st, d) == (Finished, Remaining(st, d))
  {
    var w := Walk(qs, st, d);
    WalkFinishes(qs, st, d);
    WalkFollowsRoute(qs, st, d);
    assert w.1 + Remaining(Finished, d) == w.1;
  }

  /** A customer resumed eight times, whatever it finds in the queues, has joined exactly the stops
      of its route, in order, and finished. */
  lemma CustomerFollowsRoute(qs: seq<Queues>, d: Draws)
    requires |qs| >= 8
    ensures Walk(qs, Arriving, d) == (Finished, Route(d))
  {
    WalkCompletes(qs, Arriving, d);
    RouteIsRemaining(d);
  }

  /** The check-out, on the model object. */
  method CheckOutAt(self: CustomerProcess, model: Model) returns (acts: seq<Action>)
    modifies self, model
    ensures var o := CheckOut(old(model.Snapshot()), self);
            model.Snapshot() == o.queues && self.stage == o.stage && acts == o.acts
  {
    var employee := model.JoinStation(2, self);
    acts := Wake(employee) + [Passivate];
    self.stage := AtCheckOut;
  }

  /** Back to the dining hall for the dessert, on the model object. */
  method ReseatAt(self: CustomerProcess, model: Model) returns (acts: seq<Action>)
    modifies self, model
    ensures var o := Reseat(old(model.Snapshot()), self);
            model.Snapshot() == o.queues && self.stage == o.stage && acts == o.acts
  {
    model.customerDiningHallSeatsQueue := model.customerDiningHallSeatsQueue + [self];
    if model.idleDiningHallSeatsQueue != [] {
      var seat := model.idleDiningHallSeatsQueue[0];
      model.idleDrinksBarQueue := RemoveFromDrinksBar(model.idleDrinksBarQueue, seat);
      acts := [ActivateAfter(seat), Passivate];
    } else {
      acts := [Passivate];
    }
    self.stage := AtDessertSeat;
  }

  /** The dessert check-out, on the model object; passivate there only if an employee was woken. */
  method DessertCheckOutAt(self: CustomerProcess, model: Model) returns (acts: seq<Action>)
    modifies self, model
    ensures var o := DessertCheckOut(old(model.Snapshot()), self);
            model.Snapshot() == o.queues && self.stage == o.stage && acts == o.acts
  {
    var employee := model.JoinStation(4, self);
    if employee.Some? {
      acts := Wake(employee) + [Passivate];
      self.stage := AtDessertCheckOut;
    } else {
      acts := ReseatAt(self, model);
    }
  }

  /** The reservation and the dessert bar, on the model object; passivate at the dessert bar only if
      an employee was woken. */
  method DessertAt(self: CustomerProcess, model: Model) returns (acts: seq<Action>)
    modifies self, model
    ensures var o := After(ReservedSeat, DessertBar(Reserve(old(model.Snapshot()), self), self));
            model.Snapshot() == o.queues && self.stage == o.stage && acts == o.acts
  {
    model.customerReservedSeats := model.customerReservedSeats + [self];
    var employee := model.JoinStation(3, self);
    if employee.Some? {
      acts := Wake(employee) + [Passivate];
      self.stage := AtDessertBar;
    } else {
      acts := DessertCheckOutAt(self, model);
    }
  }

  /** One resumption of the customer by the kernel, with r its draw in [0, 1). */
  method Resume(self: CustomerProcess, model: Model, r: real) returns (acts: seq<Action>)
    requires self.stage != Finished
    requires 0.0 <= r < 1.0
    modifies self, model
    ensures var o := Step(old(model.Snapshot()), self, old(self.stage), r);
            model.Snapshot() == o.queues && self.stage == o.stage && acts == o.acts
  {
    match self.stage {
      case Arriving =>
        // sandwich bar or menu bar
        var employee: Option<EmployeeProcess>;
        if r < 0.4 {
          employee := model.JoinStation(0, self);
        } else {
          employee := model.JoinStation(1, self);
        }
        acts := Wake(employee) + [Passivate];
        self.stage := AtFoodBar;
      case AtFoodBar =>
        // drinks bar for nine customers in ten, then the check-out
        if r < 0.9 {
          var machine := model.JoinDrinksBar(self);
          acts := Wake(machine) + [Passivate];
          self.stage := AtDrinksBar;
        } else {
          acts := CheckOutAt(self, model);
        }
      case AtDrinksBar =>
        acts := CheckOutAt(self, model);
      case AtCheckOut =>
        // dining hall, main dish
        var seat := model.JoinDiningHall(self);
        acts := Wake(seat) + [Passivate];
        self.stage := AtMainDish;
      case AtMainDish =>
        // dessert for one customer in ten; lifeCycle returns for the others
        if r < 0.1 {
          acts := DessertAt(self, model);
        } else {
          acts := [];
          self.stage := Finished;
        }
      case AtDessertBar =>
        acts := DessertCheckOutAt(self, model);
      case AtDessertCheckOut =>
        acts := ReseatAt(self, model);
      case AtDessertSeat =>
        // back from the dessert: lifeCycle returns
        acts := [];
        self.stage := Finished;
    }
  }
}
