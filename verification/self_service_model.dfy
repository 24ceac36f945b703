/**
  The cafeteria model of SelfServiceModel.java: its capacity constants, the value ranges of its random
  streams, its fifteen process queues and how they pair up, init() and doInitialSchedules().

  The state each process class keeps between two suspensions (a customer's stage, an employee's fixed
  station and the customer it is serving, a seat's mainDish flag) is declared here as well, because the
  queues hold those processes and the processes work on the queues. The bodies of their lifeCycle
  methods are in the modules named after their source files.
*/
module SelfServiceModel {
  import opened WaitQueue
  import opened Kernel
  import Station

  // Model parameters.
  const NUM_STATIONS: int := 5
  const EMPLOYEES_PER_STATION: int := 2
  const NUM_DRINKS_MACHINES: int := 2
  const NUM_DINING_HALL_CAPACITY: int := 50

  // ---------------------------------------------------------------------------------------------
  // Random streams. Every stream is a continuous uniform distribution; its samples are inputs to the
  // process bodies, constrained to the stream's range.

  datatype Stream =
    | CustomerArrival
    | SandwichBarService | MenuBarService | DrinksBarService | CheckOutService
    | DessertBarService | DessertCheckOutService
    | MainDishRest | DessertRest

  /** The lower bound of a stream; every bound is positive, so every hold lasts a positive time. */
  function Low(s: Stream): (lo: real)
    ensures 0.0 < lo < High(s)
  {
    match s
    case CustomerArrival => 10.0
    case SandwichBarService => 30.0
    case MenuBarService => 15.0
    case DrinksBarService => 15.0
    case CheckOutService => 15.0
    case DessertBarService => 20.0
    case DessertCheckOutService => 15.0
    case MainDishRest => 600.0
    case DessertRest => 420.0
  }

  function High(s: Stream): real
  {
    match s
    case CustomerArrival => 50.0
    case SandwichBarService => 90.0
    case MenuBarService => 75.0
    case DrinksBarService => 25.0
    case CheckOutService => 35.0
    case DessertBarService => 40.0
    case DessertCheckOutService => 35.0
    case MainDishRest => 1800.0
    case DessertRest => 780.0
  }

  /** x is a value the stream can produce. */
  predicate Sample(s: Stream, x: real)
  {
    Low(s) <= x <= High(s)
  }

  /** The stream an employee of station k samples its service time from
      (0 sandwich bar, 1 menu bar, 2 check-out, 3 dessert bar, 4 dessert check-out). */
  function StationService(k: int): (s: Stream)
    requires 0 <= k < NUM_STATIONS
    ensures s != CustomerArrival && s != DrinksBarService && s != MainDishRest && s != DessertRest
  {
    if k == 0 then SandwichBarService
    else if k == 1 then MenuBarService
    else if k == 2 then CheckOutService
    else if k == 3 then DessertBarService
    else DessertCheckOutService
  }

  // ---------------------------------------------------------------------------------------------
  // The processes' own state.

  /** The passivate a customer's lifeCycle is parked at, that is, where it resumes. */
  datatype Stage =
    | Arriving           // created, not yet run
    | AtFoodBar          // joined the sandwich bar or the menu bar
    | AtDrinksBar        // joined the drinks bar
    | AtCheckOut
    | AtMainDish         // joined the dining hall for the main dish
    | AtDessertBar       // joined the dessert bar and woke an employee there
    | AtDessertCheckOut  // joined the dessert check-out and woke an employee there
    | AtDessertSeat      // joined the dining hall again, for the dessert
    | Finished           // lifeCycle has returned

  /** Stages in the order of the route; every resumption moves strictly forward. */
  function Rank(st: Stage): (n: nat)
    ensures n <= 8 && (n == 8 <==> st == Finished) && (n == 0 <==> st == Arriving)
  {
    match st
    case Arriving => 0
    case AtFoodBar => 1
    case AtDrinksBar => 2
    case AtCheckOut => 3
    case AtMainDish => 4
    case AtDessertBar => 5
    case AtDessertCheckOut => 6
    case AtDessertSeat => 7
    case Finished => 8
  }

  class CustomerProcess {
    var stage: Stage

    constructor()
      ensures stage == Arriving
    {
      stage := Arriving;
    }
  }

  /** Where an employee or a drinks machine resumes: at the top of its loop (before its first pass),
      parked in its idle queue, or at the end of the hold serving a customer. */
  datatype ServerPoint = LoopTop | Parked | Serving(customer: CustomerProcess)

  /** What a server does on resuming before it goes round its loop: reactivate the customer it served. */
  function Release(p: ServerPoint): (acts: seq<Action>)
    ensures |acts| <= 1 && NeverSuspends(acts)
  {
    if p.Serving? then [Activate(p.customer, 0.0)] else []
  }

  class EmployeeProcess {
    // 0 sandwich bar, 1 menu bar, 2 check-out, 3 dessert bar, 4 dessert check-out
    const stationIndex: int
    var resume: ServerPoint

    constructor(stationIndex: int)
      ensures this.stationIndex == stationIndex && resume == LoopTop
    {
      this.stationIndex := stationIndex;
      resume := LoopTop;
    }
  }

  class DrinksBarProcess {
    var resume: ServerPoint

    constructor()
      ensures resume == LoopTop
    {
      resume := LoopTop;
    }
  }

  /** Where a seat resumes; a seat resting a customer remembers which of the two holds it is in. */
  datatype SeatPoint =
    | SeatLoopTop
    | SeatParked
    | RestingMainDish(diner: CustomerProcess)
    | RestingDessert(diner: CustomerProcess)

  /** Where a seat resumes after seating `diner` with the flag `mainDish`. */
  function Resting(mainDish: bool, diner: CustomerProcess): SeatPoint
  {
    if mainDish then RestingMainDish(diner) else RestingDessert(diner)
  }

  function ReleaseSeat(p: SeatPoint): (acts: seq<Action>)
    ensures |acts| <= 1 && NeverSuspends(acts)
  {
    if p.RestingMainDish? || p.RestingDessert? then [Activate(p.diner, 0.0)] else []
  }

  /** One seat of the dining hall. */
  class DiningHallProcess {
    var mainDish: bool
    var resume: SeatPoint

    constructor()
      ensures mainDish && resume == SeatLoopTop
    {
      mainDish := true;
      resume := SeatLoopTop;
    }

    method SetMainDish(mainDish: bool)
      modifies this
      ensures this.mainDish == mainDish && resume == old(resume)
    {
      this.mainDish := mainDish;
    }
  }

  class CustomerGenerator {
    constructor() { }
  }

  /** The kernel call that wakes a resource found by matching on insert, if any. */
  function Wake(w: Option<object>): (acts: seq<Action>)
    ensures |acts| <= 1 && NeverSuspends(acts)
    ensures w.None? ==> acts == []
    ensures w.Some? ==> acts == [ActivateAfter(w.value)]
  {
    if w.Some? then [ActivateAfter(w.value)] else []
  }

  // ---------------------------------------------------------------------------------------------
  // The fifteen queues, as a value.

  datatype Queues = Queues(
    // customers (demand)
    sandwichBar: seq<CustomerProcess>,
    menuBar: seq<CustomerProcess>,
    drinksBar: seq<CustomerProcess>,
    checkOut: seq<CustomerProcess>,
    dessertBar: seq<CustomerProcess>,
    dessertCheckOut: seq<CustomerProcess>,
    diningHallSeats: seq<CustomerProcess>,
    reservedSeats: seq<CustomerProcess>,
    // idle resources (supply)
    idleSandwichBar: seq<EmployeeProcess>,
    idleMenuBar: seq<EmployeeProcess>,
    idleCheckOut: seq<EmployeeProcess>,
    idleDessertBar: seq<EmployeeProcess>,
    idleDessertCheckOut: seq<EmployeeProcess>,
    idleDrinksBar: seq<DrinksBarProcess>,
    idleDiningHallSeats: seq<DiningHallProcess>)
  {
    /** The demand and idle queue of employee station k. */
    function Pair(k: int): Station.Pair<CustomerProcess, EmployeeProcess>
      requires 0 <= k < NUM_STATIONS
    {
      if k == 0 then Station.Pair(sandwichBar, idleSandwichBar)
      else if k == 1 then Station.Pair(menuBar, idleMenuBar)
      else if k == 2 then Station.Pair(checkOut, idleCheckOut)
      else if k == 3 then Station.Pair(dessertBar, idleDessertBar)
      else Station.Pair(dessertCheckOut, idleDessertCheckOut)
    }

    /** Replacing the queue pair of station k touches no other queue. */
    function WithPair(k: int, p: Station.Pair<CustomerProcess, EmployeeProcess>): (r: Queues)
      requires 0 <= k < NUM_STATIONS
      ensures r.Pair(k) == p
      ensures forall j :: 0 <= j < NUM_STATIONS && j != k ==> r.Pair(j) == Pair(j)
      ensures r.DrinksPair() == DrinksPair() && r.SeatsPair() == SeatsPair()
      ensures r.reservedSeats == reservedSeats
    {
      if k == 0 then this.(sandwichBar := p.demand, idleSandwichBar := p.idle)
      else if k == 1 then this.(menuBar := p.demand, idleMenuBar := p.idle)
      else if k == 2 then this.(checkOut := p.demand, idleCheckOut := p.idle)
      else if k == 3 then this.(dessertBar := p.demand, idleDessertBar := p.idle)
      else this.(dessertCheckOut := p.demand, idleDessertCheckOut := p.idle)
    }

    function DrinksPair(): Station.Pair<CustomerProcess, DrinksBarProcess>
    {
      Station.Pair(drinksBar, idleDrinksBar)
    }

    function SeatsPair(): Station.Pair<CustomerProcess, DiningHallProcess>
    {
      Station.Pair(diningHallSeats, idleDiningHallSeats)
    }

    /** Matching on insert at employee station k. */
    function JoinStation(k: int, c: CustomerProcess): (Queues, Option<EmployeeProcess>)
      requires 0 <= k < NUM_STATIONS
    {
      var (p, w) := Station.Join(Pair(k), c);
      (WithPair(k, p), w)
    }

    /** Matching on insert at the drinks bar. */
    function JoinDrinksBar(c: CustomerProcess): (Queues, Option<DrinksBarProcess>)
    {
      var (p, w) := Station.Join(DrinksPair(), c);
      (this.(drinksBar := p.demand, idleDrinksBar := p.idle), w)
    }

    /** Matching on insert at the dining hall. */
    function JoinDiningHall(c: CustomerProcess): (Queues, Option<DiningHallProcess>)
    {
      var (p, w) := Station.Join(SeatsPair(), c);
      (this.(diningHallSeats := p.demand, idleDiningHallSeats := p.idle), w)
    }
  }

  // ---------------------------------------------------------------------------------------------
  // The customer's side.

  /** The queues a customer inserts itself into. */
  datatype Stop = SandwichBar | MenuBar | DrinksBar | CheckOut | DiningHall | DessertBar | DessertCheckOut | ReservedSeat

  /** The customer queue of a stop. */
  function Demand(q: Queues, s: Stop): seq<CustomerProcess>
  {
    match s
    case SandwichBar => q.sandwichBar
    case MenuBar => q.menuBar
    case DrinksBar => q.drinksBar
    case CheckOut => q.checkOut
    case DiningHall => q.diningHallSeats
    case DessertBar => q.dessertBar
    case DessertCheckOut => q.dessertCheckOut
    case ReservedSeat => q.reservedSeats
  }

  /** The idle queue a customer looks into after joining a stop; a reservation wakes nobody. */
  function Idle(q: Queues, s: Stop): seq<object>
  {
    match s
    case SandwichBar => q.idleSandwichBar
    case MenuBar => q.idleMenuBar
    case DrinksBar => q.idleDrinksBar
    case CheckOut => q.idleCheckOut
    case DiningHall => q.idleDiningHallSeats
    case DessertBar => q.idleDessertBar
    case DessertCheckOut => q.idleDessertCheckOut
    case ReservedSeat => []
  }

  /** The stop of employee station k. */
  function StationStop(k: int): Stop
    requires 0 <= k < NUM_STATIONS
  {
    if k == 0 then SandwichBar
    else if k == 1 then MenuBar
    else if k == 2 then CheckOut
    else if k == 3 then DessertBar
    else DessertCheckOut
  }

  /** Matching on insert at stop s, stated on all queues: q1 is q with customer c appended to the
      customer queue of s; if a resource was idle at s, the head of that idle queue is taken out and
      returned in w; no other queue changes. */
  predicate JoinedAt(q: Queues, s: Stop, c: CustomerProcess, q1: Queues, w: Option<object>)
  {
    && (forall t :: Demand(q1, t) == Demand(q, t) + (if t == s then [c] else []))
    && (forall t :: t != s ==> Idle(q1, t) == Idle(q, t))
    && (Idle(q, s) == [] ==> w == None && Idle(q1, s) == [])
    && (Idle(q, s) != [] ==> w == Some(Idle(q, s)[0]) && Idle(q1, s) == Idle(q, s)[1..])
  }

  /** The three Math.random() draws of one customer: food bar, drinks, dessert. */
  datatype Draws = Draws(bar: real, drinks: real, dessert: real)

  /** The draw a resumption at stage st makes, if it makes one. */
  function DrawAt(st: Stage, d: Draws): real
  {
    match st
    case Arriving => d.bar
    case AtFoodBar => d.drinks
    case AtMainDish => d.dessert
    case _ => 0.0
  }

  /** What one resumption of a customer does: the queues afterwards, where it is parked next, the
      kernel calls it makes, the stops it joins in order, and the seat whose flag it sets to false. */
  datatype Resumption = Resumption(queues: Queues, stage: Stage, acts: seq<Action>, joined: seq<Stop>,
                                   flagged: Option<DiningHallProcess>)

  /** Stops joined over two stretches of a route, then those still ahead, group either way. */
  lemma JoinedThenAhead(first: seq<Stop>, later: seq<Stop>, ahead: seq<Stop>)
    ensures (first + later) + ahead == first + (later + ahead)
  {
  }

  /** A resumption that joined stop s and then went on without suspending. */
  function After(s: Stop, o: Resumption): Resumption
  {
    o.(joined := [s] + o.joined)
  }

  /** The queue changes of customer c joining the stops o.joined, in order: it is appended to the
      customer queue of each of them and of no other; it went on past every stop but the last only
      because nobody was idle there; and no idle queue but the last stop's changed. */
  predicate Joins(q: Queues, c: CustomerProcess, o: Resumption)
  {
    && o.joined != []
    && (forall s :: Demand(o.queues, s) == Demand(q, s) + (if s in o.joined then [c] else []))
    && (forall i :: 0 <= i < |o.joined| - 1 ==> Idle(q, o.joined[i]) == [])
    && (forall s :: s != o.joined[|o.joined| - 1] ==> Idle(o.queues, s) == Idle(q, s))
  }

  /** Matching on insert at the last stop joined: the head of its idle queue, if there is one, is
      taken out and woken, then the customer passivates. */
  predicate WakesHead(q: Queues, o: Resumption)
    requires o.joined != []
  {
    var s := o.joined[|o.joined| - 1];
    && (Idle(q, s) == [] ==> o.acts == [Passivate] && Idle(o.queues, s) == [])
    && (Idle(q, s) != [] ==>
          o.acts == [ActivateAfter(Idle(q, s)[0]), Passivate] && Idle(o.queues, s) == Idle(q, s)[1..])
  }

  /** Each of the three join operations is matching on insert at its stop. */
  lemma JoinStationIsJoinedAt(q: Queues, k: int, c: CustomerProcess)
    requires 0 <= k < NUM_STATIONS
    ensures JoinedAt(q, StationStop(k), c, q.JoinStation(k, c).0, q.JoinStation(k, c).1)
  {
    var (p, w) := Station.Join(q.Pair(k), c);
    var q1 := q.WithPair(k, p);
    var s := StationStop(k);
    assert Demand(q1, s) == Demand(q, s) + [c];
    assert Idle(q, s) == q.Pair(k).idle && Idle(q1, s) == p.idle;
    forall t | t != s
      ensures Demand(q1, t) == Demand(q, t) && Idle(q1, t) == Idle(q, t)
    {
      match t {
        case SandwichBar => assert k != 0;
        case MenuBar => assert k != 1;
        case CheckOut => assert k != 2;
        case DessertBar => assert k != 3;
        case DessertCheckOut => assert k != 4;
        case _ =>
      }
    }
  }

  lemma JoinDrinksBarIsJoinedAt(q: Queues, c: CustomerProcess)
    ensures JoinedAt(q, Stop.DrinksBar, c, q.JoinDrinksBar(c).0, q.JoinDrinksBar(c).1)
  {
  }

  lemma JoinDiningHallIsJoinedAt(q: Queues, c: CustomerProcess)
    ensures JoinedAt(q, DiningHall, c, q.JoinDiningHall(c).0, q.JoinDiningHall(c).1)
  {
  }

  /** Joining a stop and passivating there. */
  lemma JoinThenSuspend(q: Queues, c: CustomerProcess, s: Stop, q1: Queues, w: Option<object>, next: Stage)
    requires JoinedAt(q, s, c, q1, w)
    ensures var o := Resumption(q1, next, Wake(w) + [Passivate], [s], None);
            Joins(q, c, o) && WakesHead(q, o) && EndsSuspended(o.acts)
  {
  }

  /** Joining a stop where nobody is idle and going on to the stops of o. */
  lemma JoinThenGoOn(q: Queues, c: CustomerProcess, s: Stop, q1: Queues, o: Resumption)
    requires JoinedAt(q, s, c, q1, None) && Joins(q1, c, o) && s !in o.joined
    ensures Joins(q, c, After(s, o))
    ensures WakesHead(q1, o) ==> WakesHead(q, After(s, o))
  {
    var o' := After(s, o);
    var last := o.joined[|o.joined| - 1];
    assert o'.joined[|o'.joined| - 1] == last;
    assert last != s;
    forall t
      ensures Demand(o'.queues, t) == Demand(q, t) + (if t in o'.joined then [c] else [])
    {
      assert Demand(o.queues, t) == Demand(q1, t) + (if t in o.joined then [c] else []);
      assert Demand(q1, t) == Demand(q, t) + (if t == s then [c] else []);
      assert t in o'.joined <==> t == s || t in o.joined;
    }
    forall i | 0 <= i < |o'.joined| - 1
      ensures Idle(q, o'.joined[i]) == []
    {
      if i > 0 {
        assert o'.joined[i] == o.joined[i - 1];
        assert Idle(q1, o.joined[i - 1]) == [];
      }
    }
    forall t | t != last
      ensures Idle(o'.queues, t) == Idle(q, t)
    {
      assert Idle(o.queues, t) == Idle(q1, t);
      if t != s {
        assert Idle(q1, t) == Idle(q, t);
      }
    }
    assert Idle(q1, last) == Idle(q, last);
  }

  function EmptyQueues(): Queues
  {
    Queues([], [], [], [], [], [], [], [], [], [], [], [], [], [], [])
  }

  /** ProcessQueue.remove on the drinks machines' idle queue, called with a process of any class. */
  function RemoveFromDrinksBar(q: seq<DrinksBarProcess>, p: object): (r: seq<DrinksBarProcess>)
    ensures r == Remove<object>(q, p)
  {
    if q == [] then []
    else if q[0] == p then q[1..]
    else [q[0]] + RemoveFromDrinksBar(q[1..], p)
  }

  /** How many of the employees work at station k. */
  function Headcount(employees: seq<EmployeeProcess>, k: int): (n: nat)
    ensures n <= |employees|
  {
    if employees == [] then 0
    else
      Headcount(employees[..|employees| - 1], k)
      + (if employees[|employees| - 1].stationIndex == k then 1 else 0)
  }

  /** `activate(new TimeSpan(0.0))` for each process, in order. */
  function ActivateAll(ps: seq<object>): (acts: seq<Action>)
    ensures |acts| == |ps|
    ensures forall i :: 0 <= i < |ps| ==> acts[i] == Activate(ps[i], 0.0)
  {
    seq(|ps|, i requires 0 <= i < |ps| => Activate(ps[i], 0.0))
  }

  // ---------------------------------------------------------------------------------------------
  // The model object.

  class Model {
    // queues for customers
    var customerSandwichBarQueue: seq<CustomerProcess>
    var customerMenuBarQueue: seq<CustomerProcess>
    var customerDrinksBarQueue: seq<CustomerProcess>
    var customerCheckOutQueue: seq<CustomerProcess>
    var customerDessertBarQueue: seq<CustomerProcess>
    var customerDessertCheckOutQueue: seq<CustomerProcess>
    var customerDiningHallSeatsQueue: seq<CustomerProcess>
    var customerReservedSeats: seq<CustomerProcess>
    // queues for employees
    var idleSandwichBarEmployeesQueue: seq<EmployeeProcess>
    var idleMenuBarEmployeesQueue: seq<EmployeeProcess>
    var idleCheckOutEmployeesQueue: seq<EmployeeProcess>
    var idleDessertBarEmployeesQueue: seq<EmployeeProcess>
    var idleDessertCheckOutEmployeesQueue: seq<EmployeeProcess>
    // queues for the drinks bar and the dining hall
    var idleDrinksBarQueue: seq<DrinksBarProcess>
    var idleDiningHallSeatsQueue: seq<DiningHallProcess>

    function Snapshot(): Queues
      reads this
    {
      Queues(customerSandwichBarQueue, customerMenuBarQueue, customerDrinksBarQueue,
             customerCheckOutQueue, customerDessertBarQueue, customerDessertCheckOutQueue,
             customerDiningHallSeatsQueue, customerReservedSeats,
             idleSandwichBarEmployeesQueue, idleMenuBarEmployeesQueue, idleCheckOutEmployeesQueue,
             idleDessertBarEmployeesQueue, idleDessertCheckOutEmployeesQueue,
             idleDrinksBarQueue, idleDiningHallSeatsQueue)
    }

    /** The seat at the head of the idle seat queue, if any: the only seat a customer touches. */
    function IdleSeatHead(): set<DiningHallProcess>
      reads this
    {
      if idleDiningHallSeatsQueue == [] then {} else {idleDiningHallSeatsQueue[0]}
    }

    /** init(): every queue starts empty. */
    constructor Init()
      ensures Snapshot() == EmptyQueues()
    {
      customerSandwichBarQueue := [];
      customerMenuBarQueue := [];
      customerDrinksBarQueue := [];
      customerCheckOutQueue := [];
      customerDessertBarQueue := [];
      customerDessertCheckOutQueue := [];
      customerDiningHallSeatsQueue := [];
      customerReservedSeats := [];
      idleSandwichBarEmployeesQueue := [];
      idleMenuBarEmployeesQueue := [];
      idleCheckOutEmployeesQueue := [];
      idleDessertBarEmployeesQueue := [];
      idleDessertCheckOutEmployeesQueue := [];
      idleDrinksBarQueue := [];
      idleDiningHallSeatsQueue := [];
    }

    /** A customer joins employee station k: insert, then wake the first idle employee if there is one. */
    method JoinStation(k: int, c: CustomerProcess) returns (woken: Option<EmployeeProcess>)
      requires 0 <= k < NUM_STATIONS
      modifies this
      ensures (Snapshot(), woken) == old(Snapshot()).JoinStation(k, c)
    {
      ghost var q := Snapshot();
      InsertCustomer(k, c);
      if Snapshot().Pair(k).idle != [] {
        var employee := TakeEmployee(k);
        woken := Some(employee);
      } else {
        woken := None;
      }
      assert Snapshot() == q.WithPair(k, Station.Join(q.Pair(k), c).0);
    }

    /** A customer inserts itself into the queue of station k. */
    method InsertCustomer(k: int, c: CustomerProcess)
      requires 0 <= k < NUM_STATIONS
      modifies this
      ensures Snapshot() == old(Snapshot()).WithPair(k, Station.Pair(old(Snapshot()).Pair(k).demand + [c],
                                                                    old(Snapshot()).Pair(k).idle))
    {
      if k == 0 {
        customerSandwichBarQueue := customerSandwichBarQueue + [c];
      } else if k == 1 {
        customerMenuBarQueue := customerMenuBarQueue + [c];
      } else if k == 2 {
        customerCheckOutQueue := customerCheckOutQueue + [c];
      } else if k == 3 {
        customerDessertBarQueue := customerDessertBarQueue + [c];
      } else {
        customerDessertCheckOutQueue := customerDessertCheckOutQueue + [c];
      }
    }

    /** A customer takes the employee at the head of the idle queue of station k, to wake it. */
    method TakeEmployee(k: int) returns (employee: EmployeeProcess)
      requires 0 <= k < NUM_STATIONS && Snapshot().Pair(k).idle != []
      modifies this
      ensures employee == old(Snapshot()).Pair(k).idle[0]
      ensures Snapshot() == old(Snapshot()).WithPair(k, Station.Pair(old(Snapshot()).Pair(k).demand,
                                                                    old(Snapshot()).Pair(k).idle[1..]))
    {
      if k == 0 {
        employee := idleSandwichBarEmployeesQueue[0];
        idleSandwichBarEmployeesQueue := Remove(idleSandwichBarEmployeesQueue, employee);
      } else if k == 1 {
        employee := idleMenuBarEmployeesQueue[0];
        idleMenuBarEmployeesQueue := Remove(idleMenuBarEmployeesQueue, employee);
      } else if k == 2 {
        employee := idleCheckOutEmployeesQueue[0];
        idleCheckOutEmployeesQueue := Remove(idleCheckOutEmployeesQueue, employee);
      } else if k == 3 {
        employee := idleDessertBarEmployeesQueue[0];
        idleDessertBarEmployeesQueue := Remove(idleDessertBarEmployeesQueue, employee);
      } else {
        employee := idleDessertCheckOutEmployeesQueue[0];
        idleDessertCheckOutEmployeesQueue := Remove(idleDessertCheckOutEmployeesQueue, employee);
      }
    }

    /** An employee of station k with nobody to serve parks itself in the station's idle queue. */
    method ParkEmployee(k: int, employee: EmployeeProcess)
      requires 0 <= k < NUM_STATIONS
      modifies this
      ensures Snapshot() == old(Snapshot()).WithPair(k, Station.Pair(old(Snapshot()).Pair(k).demand,
                                                                    old(Snapshot()).Pair(k).idle + [employee]))
    {
      if k == 0 {
        idleSandwichBarEmployeesQueue := idleSandwichBarEmployeesQueue + [employee];
      } else if k == 1 {
        idleMenuBarEmployeesQueue := idleMenuBarEmployeesQueue + [employee];
      } else if k == 2 {
        idleCheckOutEmployeesQueue := idleCheckOutEmployeesQueue + [employee];
      } else if k == 3 {
        idleDessertBarEmployeesQueue := idleDessertBarEmployeesQueue + [employee];
      } else {
        idleDessertCheckOutEmployeesQueue := idleDessertCheckOutEmployeesQueue + [employee];
      }
    }

    /** An employee of station k takes the customer at the head of the station's queue. */
    method TakeCustomer(k: int) returns (customer: CustomerProcess)
      requires 0 <= k < NUM_STATIONS && Snapshot().Pair(k).demand != []
      modifies this
      ensures customer == old(Snapshot()).Pair(k).demand[0]
      ensures Snapshot() == old(Snapshot()).WithPair(k, Station.Pair(old(Snapshot()).Pair(k).demand[1..],
                                                                    old(Snapshot()).Pair(k).idle))
    {
      if k == 0 {
        customer := customerSandwichBarQueue[0];
        customerSandwichBarQueue := Remove(customerSandwichBarQueue, customer);
      } else if k == 1 {
        customer := customerMenuBarQueue[0];
        customerMenuBarQueue := Remove(customerMenuBarQueue, customer);
      } else if k == 2 {
        customer := customerCheckOutQueue[0];
        customerCheckOutQueue := Remove(customerCheckOutQueue, customer);
      } else if k == 3 {
        customer := customerDessertBarQueue[0];
        customerDessertBarQueue := Remove(customerDessertBarQueue, customer);
      } else {
        customer := customerDessertCheckOutQueue[0];
        customerDessertCheckOutQueue := Remove(customerDessertCheckOutQueue, customer);
      }
    }

    /** A customer joins the drinks bar: insert, then wake the first idle machine if there is one. */
    method JoinDrinksBar(c: CustomerProcess) returns (woken: Option<DrinksBarProcess>)
      modifies this
      ensures (Snapshot(), woken) == old(Snapshot()).JoinDrinksBar(c)
    {
      woken := None;
      customerDrinksBarQueue := customerDrinksBarQueue + [c];
      if idleDrinksBarQueue != [] {
        var machine := idleDrinksBarQueue[0];
        idleDrinksBarQueue := Remove(idleDrinksBarQueue, machine);
        woken := Some(machine);
      }
    }

    /** A customer joins the dining hall: insert, then take the first idle seat if there is one. */
    method JoinDiningHall(c: CustomerProcess) returns (woken: Option<DiningHallProcess>)
      modifies this
      ensures (Snapshot(), woken) == old(Snapshot()).JoinDiningHall(c)
    {
      woken := None;
      customerDiningHallSeatsQueue := customerDiningHallSeatsQueue + [c];
      if idleDiningHallSeatsQueue != [] {
        var seat := idleDiningHallSeatsQueue[0];
        idleDiningHallSeatsQueue := Remove(idleDiningHallSeatsQueue, seat);
        woken := Some(seat);
      }
    }

    /** doInitialSchedules(): create the resource processes and the generator and activate each of
        them at once; these are the only resources the run will ever have. */
    method DoInitialSchedules()
      returns (employees: seq<EmployeeProcess>, machines: seq<DrinksBarProcess>,
               seats: seq<DiningHallProcess>, generator: CustomerGenerator, schedule: seq<Action>)
      ensures |employees| == NUM_STATIONS * EMPLOYEES_PER_STATION
      ensures forall k :: 0 <= k < NUM_STATIONS ==> Headcount(employees, k) == EMPLOYEES_PER_STATION
      ensures forall e :: e in employees ==> fresh(e) && 0 <= e.stationIndex < NUM_STATIONS && e.resume == LoopTop
      ensures |machines| == NUM_DRINKS_MACHINES
      ensures forall m :: m in machines ==> fresh(m) && m.resume == LoopTop
      ensures |seats| == NUM_DINING_HALL_CAPACITY
      ensures forall s :: s in seats ==> fresh(s) && s.mainDish && s.resume == SeatLoopTop
      ensures fresh(generator)
      ensures NoDuplicates(employees) && NoDuplicates(machines) && NoDuplicates(seats)
      ensures schedule == ActivateAll(employees) + ActivateAll(machines) + ActivateAll(seats)
                          + [Activate(generator, 0.0)]
      ensures forall i :: 0 <= i < |schedule| ==> schedule[i].Activate? && schedule[i].delay == 0.0
    {
      // employees, EMPLOYEES_PER_STATION for each station
      employees := [];
      for i := 0 to NUM_STATIONS
        invariant |employees| == i * EMPLOYEES_PER_STATION
        invariant forall k :: 0 <= k < NUM_STATIONS ==>
                    Headcount(employees, k) == if k < i then EMPLOYEES_PER_STATION else 0
        invariant forall e :: e in employees ==> fresh(e) && 0 <= e.stationIndex < i && e.resume == LoopTop
        invariant NoDuplicates(employees)
      {
        for j := 0 to EMPLOYEES_PER_STATION
          invariant |employees| == i * EMPLOYEES_PER_STATION + j
          invariant forall k :: 0 <= k < NUM_STATIONS ==>
                      Headcount(employees, k) == if k < i then EMPLOYEES_PER_STATION else if k == i then j else 0
          invariant forall e :: e in employees ==> fresh(e) && 0 <= e.stationIndex <= i && e.resume == LoopTop
          invariant NoDuplicates(employees)
        {
          var employee := new EmployeeProcess(i);
          assert (employees + [employee])[..|employees|] == employees;
          employees := employees + [employee];
        }
      }

      // the drinks bar machines
      machines := [];
      for i := 0 to NUM_DRINKS_MACHINES
        invariant |machines| == i
        invariant forall m :: m in machines ==> fresh(m) && m.resume == LoopTop
        invariant forall e :: e in employees ==> fresh(e) && e.resume == LoopTop
        invariant NoDuplicates(machines)
      {
        var machine := new DrinksBarProcess();
        machines := machines + [machine];
      }

      // the dining hall seats
      seats := [];
      for i := 0 to NUM_DINING_HALL_CAPACITY
        invariant |seats| == i
        invariant forall s :: s in seats ==> fresh(s) && s.mainDish && s.resume == SeatLoopTop
        invariant forall e :: e in employees ==> fresh(e) && e.resume == LoopTop
        invariant forall m :: m in machines ==> fresh(m) && m.resume == LoopTop
        invariant NoDuplicates(seats)
      {
        var seat := new DiningHallProcess();
        seats := seats + [seat];
      }

      // the customer generator
      generator := new CustomerGenerator();
      schedule := ActivateAll(employees) + ActivateAll(machines) + ActivateAll(seats)
                  + [Activate(generator, 0.0)];
    }
  }
}
