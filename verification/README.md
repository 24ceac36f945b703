# Self-service cafeteria, modelled in Dafny

The repository simulates a self-service cafeteria as a DESMO-J process-interaction model. Customers
arrive from a generator. Each one joins the sandwich bar or the menu bar, maybe the drinks bar, then
the check-out and a dining-hall seat. One in ten goes on to the dessert bar, the dessert check-out and
a seat again. Three kinds of resource process serve them:

- employees, two fixed to each of five stations;
- two drinks machines;
- fifty seats.

Every meeting of a customer and a resource goes through a pair of process queues: a queue of waiting
customers and a queue of idle resources. A customer inserts itself into the customer queue and, if a
resource is idle, removes the head of the idle queue and wakes it ("matching on insert"). A resource at
the top of its loop takes the head customer, or parks itself in its idle queue when nobody waits.

The repository has two variants. The `selfservicecafe_p` package holds CustomerProcess,
DiningHallProcess and EmployeeProcess. The default package holds another copy of those three, plus
SelfServiceModel, DrinksBarProcess and CustomerGenerator.

The model has these parts:

- `WaitQueue`: the FIFO process queue, as a sequence.
- `Kernel`: the scheduling calls a process makes, as abstract actions.
- `Station`: the protocol of one customer queue and its idle queue, with matching on insert and
  serve-or-park. It comes with whole-run properties: resource conservation, the matching invariant,
  and service in arrival order. The protocol is followed by the five employee stations, by the drinks
  bar, and by the dining hall of the `selfservicecafe_p` package. It is not followed by the dining
  hall of the default package (see "Left out").
- `SelfServiceModel`: the model object with its fifteen queues, the constants and stream ranges,
  `init` and `doInitialSchedules`, and the state each process keeps between two suspensions.
- One module per `lifeCycle` body.

Each `lifeCycle` becomes two things:

- a function for one resumption: the code from one suspension to the next, on a value of the queues;
- a `Resume` method that runs the same code on the model object and is proved equal to that function.

For a customer, the route is a state machine (`Next`), and the route properties are proved about it.

## Model

| member | source | states |
|---|---|---|
| WaitQueue.Remove | selfservicecafe_p/src/selfservicecafe_p/CustomerProcess.java:47 | removing the head of a queue leaves its tail; removing a present process shortens the queue by one; removing an absent one changes nothing |
| Station.Join | selfservicecafe_p/src/selfservicecafe_p/CustomerProcess.java:42-50 | matching on insert: the customer is appended; the woken resource followed by the new idle queue is the old idle queue; a resource is woken exactly when one was idle |
| Station.Poll | selfservicecafe_p/src/DrinksBarProcess.java:40-48 | a resource serves the head customer, and the served customer followed by the rest is the old queue; it parks at the end of the idle queue exactly when nobody waits |
| Station.RunConservesResources | selfservicecafe_p/src/SelfServiceModel.java:120-139 | over any interleaving of arrivals, resumptions and finished services, idle plus scheduled plus serving resources stays constant |
| Station.RunKeepsMatched | selfservicecafe_p/src/selfservicecafe_p/CustomerProcess.java:85-94 | while a resource is idle, no more customers wait than resources already woken for them, over any interleaving |
| Station.WaitingBesideIdle | selfservicecafe_p/src/selfservicecafe_p/CustomerProcess.java:42-50 | a customer can wait while a resource is idle: two resources park, one customer arrives and wakes only the first; so the invariant counts woken resources and cannot ask for one queue to be empty |
| Station.ApplyServesHead | selfservicecafe_p/src/selfservicecafe_p/EmployeeProcess.java:59-67 | a single move serves at most the head of the queue and appends at most the arriving customer |
| Station.RunServesInArrivalOrder | selfservicecafe_p/src/selfservicecafe_p/EmployeeProcess.java:59-67 | the customers served, followed by those still waiting, are the customers that waited or arrived, in arrival order |
| Station.RunFromStart | selfservicecafe_p/src/SelfServiceModel.java:120-139 | from the initial schedule of n resources, every run keeps n resources, keeps the matching invariant and serves in arrival order |
| SelfServiceModel.Low | selfservicecafe_p/src/SelfServiceModel.java:160-246 | every stream's lower bound is positive and below its upper bound, so every hold lasts a positive time |
| SelfServiceModel.StationService | selfservicecafe_p/src/SelfServiceModel.java:21-67 | an employee station samples a station service stream, never the arrival, drinks or rest streams |
| SelfServiceModel.Rank | selfservicecafe_p/src/selfservicecafe_p/CustomerProcess.java:38-161 | the stages of a customer's route are ordered, from Arriving (0) to Finished (8) |
| SelfServiceModel.Release | selfservicecafe_p/src/selfservicecafe_p/EmployeeProcess.java:64-66 | after a service hold, the server reactivates the customer it served, and does so without suspending |
| SelfServiceModel.ReleaseSeat | selfservicecafe_p/src/selfservicecafe_p/DiningHallProcess.java:74 | after a rest, the seat reactivates the customer it seated, and does so without suspending |
| SelfServiceModel.Wake | selfservicecafe_p/src/selfservicecafe_p/CustomerProcess.java:49 | a resource found idle is woken with activateAfter; otherwise no call is made |
| SelfServiceModel.CustomerProcess.constructor | selfservicecafe_p/src/CustomerGenerator.java:34 | a new customer has not run yet |
| SelfServiceModel.EmployeeProcess.constructor | selfservicecafe_p/src/selfservicecafe_p/EmployeeProcess.java:32-37 | an employee is fixed to the station index it is given and starts at the top of its loop |
| SelfServiceModel.DrinksBarProcess.constructor | selfservicecafe_p/src/DrinksBarProcess.java:19-22 | a machine starts at the top of its loop |
| SelfServiceModel.DiningHallProcess.constructor | selfservicecafe_p/src/selfservicecafe_p/DiningHallProcess.java:22-29 | a seat starts with mainDish true |
| SelfServiceModel.DiningHallProcess.SetMainDish | selfservicecafe_p/src/selfservicecafe_p/DiningHallProcess.java:37-39 | setMainDish sets the flag and changes nothing else |
| SelfServiceModel.Queues.WithPair | selfservicecafe_p/src/SelfServiceModel.java:70-88 | each employee station has its own customer queue and idle queue; replacing one station's pair leaves the other stations, the drinks pair, the seat pair and the reservations as they were |
| SelfServiceModel.JoinStationIsJoinedAt | selfservicecafe_p/src/selfservicecafe_p/CustomerProcess.java:131-141 | joining an employee station appends the customer to that station's queue only, and removes and returns the head of its idle queue if there is one |
| SelfServiceModel.JoinDrinksBarIsJoinedAt | selfservicecafe_p/src/selfservicecafe_p/CustomerProcess.java:70-78 | the same for the drinks bar |
| SelfServiceModel.JoinDiningHallIsJoinedAt | selfservicecafe_p/src/selfservicecafe_p/CustomerProcess.java:99-107 | the same for the dining hall |
| SelfServiceModel.JoinThenSuspend | selfservicecafe_p/src/selfservicecafe_p/CustomerProcess.java:85-94 | joining a stop, waking what was found and passivating is matching on insert at that stop, and suspends |
| SelfServiceModel.JoinThenGoOn | selfservicecafe_p/src/selfservicecafe_p/CustomerProcess.java:116-141 | joining a stop where nobody was idle and going on leaves the customer in that queue too and leaves the idle queues alone |
| SelfServiceModel.RemoveFromDrinksBar | selfservicecafe_p/src/CustomerProcess.java:160 | remove on the drinks machines' idle queue is plain ProcessQueue.remove, whatever the class of its argument |
| SelfServiceModel.Headcount | selfservicecafe_p/src/SelfServiceModel.java:122-127 | a station cannot have more employees than there are |
| SelfServiceModel.ActivateAll | selfservicecafe_p/src/SelfServiceModel.java:125 | each process is activated with delay 0, in order |
| SelfServiceModel.Model.Init | selfservicecafe_p/src/SelfServiceModel.java:257-372 | after init all eight customer queues and all seven idle queues are empty |
| SelfServiceModel.Model.JoinStation | selfservicecafe_p/src/selfservicecafe_p/CustomerProcess.java:85-93 | the insert, first and remove on the model's fields are matching on insert at the station's pair |
| SelfServiceModel.Model.InsertCustomer | selfservicecafe_p/src/selfservicecafe_p/CustomerProcess.java:85 | a customer inserted at station k is appended to that station's queue; no other queue changes |
| SelfServiceModel.Model.TakeEmployee | selfservicecafe_p/src/selfservicecafe_p/CustomerProcess.java:88-90 | the employee taken is the head of the station's idle queue, and it leaves that queue only |
| SelfServiceModel.Model.ParkEmployee | selfservicecafe_p/src/selfservicecafe_p/EmployeeProcess.java:55-58 | an employee with nobody to serve is appended to its own station's idle queue; nothing else changes |
| SelfServiceModel.Model.TakeCustomer | selfservicecafe_p/src/selfservicecafe_p/EmployeeProcess.java:59-61 | the customer taken is the head of the station's queue, and it leaves that queue only |
| SelfServiceModel.Model.JoinDrinksBar | selfservicecafe_p/src/selfservicecafe_p/CustomerProcess.java:70-77 | matching on insert at the drinks bar, on the model's fields |
| SelfServiceModel.Model.JoinDiningHall | selfservicecafe_p/src/selfservicecafe_p/CustomerProcess.java:99-106 | matching on insert at the dining hall, on the model's fields |
| SelfServiceModel.Model.DoInitialSchedules | selfservicecafe_p/src/SelfServiceModel.java:120-144 | 5 × 2 employees with exactly two at each station 0..4, 2 machines and 50 seats, all distinct, fresh and at the top of their loops, each seat with mainDish true; every resource and then the generator is activated with delay 0 |
| EmployeeLifeCycle.Pass | selfservicecafe_p/src/selfservicecafe_p/EmployeeProcess.java:53-127 | an employee touches only its own station's pair; with nobody waiting it parks and passivates, otherwise it takes the head customer and holds one service time; it suspends exactly when its station index is in 0..4, and otherwise changes nothing |
| EmployeeLifeCycle.Resume | selfservicecafe_p/src/EmployeeProcess.java:30-107 | a resumption reactivates the customer it served, then makes one pass on the model object exactly as Pass says |
| DrinksBarLifeCycle.Pass | selfservicecafe_p/src/DrinksBarProcess.java:39-49 | a machine touches only the drinks pair; with nobody waiting it parks and passivates, otherwise it takes the head customer and holds one service time |
| DrinksBarLifeCycle.PassIsPoll | selfservicecafe_p/src/DrinksBarProcess.java:40-48 | a machine's pass is Station.Poll on the drinks pair: it serves whom Poll serves and parks exactly when Poll goes idle |
| DrinksBarLifeCycle.Resume | selfservicecafe_p/src/DrinksBarProcess.java:38-51 | a resumption reactivates the customer it served, then makes one pass on the model object exactly as Pass says |
| DiningHallLifeCycle.Pass | selfservicecafe_p/src/selfservicecafe_p/DiningHallProcess.java:56-75 | a seat touches only the seat pair; with nobody waiting it parks, otherwise it seats the head customer for the rest its flag picks |
| DiningHallLifeCycle.PassIsPoll | selfservicecafe_p/src/selfservicecafe_p/DiningHallProcess.java:57-65 | a seat's pass is Station.Poll on the seat pair: it seats whom Poll serves and parks exactly when Poll goes idle |
| DiningHallLifeCycle.DessertIsFollowedByMainDish | selfservicecafe_p/src/selfservicecafe_p/DiningHallProcess.java:67-71 | after a dessert rest the flag is true again, so the next pass never starts a dessert rest: a false flag changes exactly one rest |
| DiningHallLifeCycle.Resume | selfservicecafe_p/src/selfservicecafe_p/DiningHallProcess.java:55-77 | a resumption resets the flag after a dessert, reactivates the customer, then makes one pass on the model object exactly as Pass says |
| DefaultDiningHallLifeCycle.Pass | selfservicecafe_p/src/DiningHallProcess.java:37-62 | a seat parks exactly when both the seat queue and the reservations are empty; a reservation is served before the seat queue; one customer leaves exactly one queue; the rest is the one the flag picks |
| DefaultDiningHallLifeCycle.FalseFlagSticks | selfservicecafe_p/src/DiningHallProcess.java:52-56 | this copy never resets its flag, so once it is false every rest on that seat is a dessert rest |
| DefaultDiningHallLifeCycle.Resume | selfservicecafe_p/src/DiningHallProcess.java:35-65 | a resumption leaves the flag alone, reactivates the customer, then makes one pass on the model object exactly as Pass says |
| CustomerLifeCycle.Reseat | selfservicecafe_p/src/selfservicecafe_p/CustomerProcess.java:146-156 | back at the dining hall, the seat woken, which is the head of the idle seats, is the one whose flag is set to false |
| CustomerLifeCycle.Next | selfservicecafe_p/src/selfservicecafe_p/CustomerProcess.java:38-161 | every resumption moves the customer forward and joins at least one stop unless the lifeCycle returns; the three draws pick the food bar (< 0.4), drinks (< 0.9) and dessert (< 0.1); the customer stays at a dessert stop only when an employee was idle there |
| CustomerLifeCycle.DessertCheckOut | selfservicecafe_p/src/selfservicecafe_p/CustomerProcess.java:131-156 | the customer passivates at the dessert check-out only if it woke an employee there, otherwise it goes straight on to the dining hall |
| CustomerLifeCycle.DessertBar | selfservicecafe_p/src/selfservicecafe_p/CustomerProcess.java:116-156 | the customer passivates at the dessert bar only if it woke an employee there, otherwise it goes straight on to the dessert check-out |
| CustomerLifeCycle.Step | selfservicecafe_p/src/selfservicecafe_p/CustomerProcess.java:38-161 | one resumption follows the route state machine; returning from lifeCycle touches nothing; a seat's flag is set exactly when the customer is reseated for dessert and a seat was idle, and it is the head seat |
| CustomerLifeCycle.StepJoins | selfservicecafe_p/src/selfservicecafe_p/CustomerProcess.java:41-156 | every resumption that does not return appends the customer to each stop it joins and to no other queue; it goes on past a stop only when nobody was idle there; at the last stop it wakes the head of the idle queue, if any, and passivates |
| CustomerLifeCycle.Route | selfservicecafe_p/src/selfservicecafe_p/CustomerProcess.java:39-156 | a route starts at the food bar the draw picks; it holds the drinks bar iff drinks were drawn and the dessert bar iff dessert was drawn; the check-out comes right before the first seat and after no other check-out or seat; a dessert route ends with the dessert bar, the dessert check-out and a seat |
| CustomerLifeCycle.NextFollowsRoute | selfservicecafe_p/src/selfservicecafe_p/CustomerProcess.java:38-161 | whatever idle queues it finds, one resumption joins the next stops of the route and nothing else |
| CustomerLifeCycle.WalkFollowsRoute | selfservicecafe_p/src/selfservicecafe_p/CustomerProcess.java:38-161 | after any number of resumptions, the stops joined followed by those still ahead make up the route |
| CustomerLifeCycle.WalkFinishes | selfservicecafe_p/src/selfservicecafe_p/CustomerProcess.java:38-161 | eight resumptions end every customer's lifeCycle |
| CustomerLifeCycle.CustomerFollowsRoute | selfservicecafe_p/src/selfservicecafe_p/CustomerProcess.java:38-161 | a customer resumed eight times has joined exactly the stops of its route, in order, and finished, whatever it found in the queues |
| CustomerLifeCycle.ReseatAt | selfservicecafe_p/src/selfservicecafe_p/CustomerProcess.java:146-156 | on the model object, the seat woken gets its flag set to false and is otherwise untouched |
| CustomerLifeCycle.Resume | selfservicecafe_p/src/selfservicecafe_p/CustomerProcess.java:38-161 | a resumption on the model object does what Step says, sets the flag of the seat Step names and touches no other seat |
| DefaultCustomerLifeCycle.Reserve | selfservicecafe_p/src/CustomerProcess.java:124 | the reservation appends the customer to the reserved seats and wakes nobody |
| DefaultCustomerLifeCycle.Reseat | selfservicecafe_p/src/CustomerProcess.java:155-167 | back at the dining hall the customer is appended to the seat queue and the head idle seat is woken, but no idle queue changes and no flag is set |
| DefaultCustomerLifeCycle.ReseatLeavesSeatIdle | selfservicecafe_p/src/CustomerProcess.java:158-163 | the seat woken for dessert stays in the idle seats queue, so this step is not matching on insert |
| DefaultCustomerLifeCycle.Next | selfservicecafe_p/src/CustomerProcess.java:36-174 | the route state machine of this copy: as in the package copy, except that the dessert resumption first joins the reserved seats, then the dessert bar |
| DefaultCustomerLifeCycle.Step | selfservicecafe_p/src/CustomerProcess.java:36-174 | one resumption follows the route state machine; returning from lifeCycle touches nothing; no seat flag is ever set |
| DefaultCustomerLifeCycle.StepJoins | selfservicecafe_p/src/CustomerProcess.java:38-167 | every resumption that does not return appends the customer to each stop it joins and to no other queue, goes on past a stop only when nobody was idle there, and suspends; except when it ends at the dessert seat, it takes out and wakes the head of the last stop's idle queue |
| DefaultCustomerLifeCycle.Route | selfservicecafe_p/src/CustomerProcess.java:38-167 | as in the package copy, with the reservation placed right before the dessert bar |
| DefaultCustomerLifeCycle.NextFollowsRoute | selfservicecafe_p/src/CustomerProcess.java:36-174 | whatever idle queues it finds, one resumption joins the next stops of the route and nothing else |
| DefaultCustomerLifeCycle.CustomerFollowsRoute | selfservicecafe_p/src/CustomerProcess.java:36-174 | a customer resumed eight times has joined exactly the stops of its route, in order, and finished |
| DefaultCustomerLifeCycle.DessertAt | selfservicecafe_p/src/CustomerProcess.java:122-135 | on the model object, the dessert branch appends the customer to the reserved seats and to the dessert bar before any matching |
| DefaultCustomerLifeCycle.ReseatAt | selfservicecafe_p/src/CustomerProcess.java:155-167 | on the model object, reseating calls remove on the drinks machines' idle queue and so leaves every idle queue as it was |
| DefaultCustomerLifeCycle.Resume | selfservicecafe_p/src/CustomerProcess.java:36-174 | a resumption on the model object does what Step says |
| GeneratorLifeCycle.Pass | selfservicecafe_p/src/CustomerGenerator.java:28-39 | one pass schedules the new customer right after the generator, then holds, so it suspends |
| GeneratorLifeCycle.ArrivalsInterleave | selfservicecafe_p/src/CustomerGenerator.java:28-39 | pass i schedules customer i and then holds for gap i, so k passes make 2k calls |
| GeneratorLifeCycle.Run | selfservicecafe_p/src/CustomerGenerator.java:24-40 | k passes create k distinct new customers, schedule them in creation order, and hold for the k sampled gaps between them |

## Left out

- The DESMO-J kernel is not part of this model: the experiment, the clock, the event list, and what activate, activateAfter, hold and passivate do to it. Its calls are recorded as `Kernel.Action` values.
- ProcessQueue's source is not part of this model. The model takes it to be a FIFO sequence: insert appends, first reads the head, remove deletes the first occurrence.
- The Quasar fibers that suspend a lifeCycle are replaced by an explicit resume point in each process.
- Random numbers: Math.random() draws and ContDistUniform samples are inputs. A sample is constrained to its stream's range; floating point is read as real arithmetic.
- Reporting and I/O are left out: main, the experiment setup, trace notes, reports and printStackTrace. So is the stop time of 14400, which bounds a run's length but not any queue.
- EmployeeLifeCycle.Pass: an endless loop becomes one pass per call. With a station index outside 0..4 the Java loop goes round forever without suspending; the model makes one such pass, which changes nothing.
- EmployeeLifeCycle.Resume: the two copies of EmployeeProcess.java have the same loop, so they are modelled once.
- GeneratorLifeCycle.Run: models the first |gaps| passes of the endless loop, not an infinite run.
- DefaultCustomerLifeCycle.Step: the default CustomerProcess.java (lines 104 and 155) and the default DiningHallProcess.java (lines 38 and 45-46) use `customerDiningHallSeats`. SelfServiceModel.java declares no field of that name, only `customerDiningHallSeatsQueue`, and the model reads it as that queue.
- DefaultCustomerLifeCycle.StepJoins: does not claim that the last stop's idle head is taken out when a resumption ends at the dessert seat, because the source does not take it out there (ReseatLeavesSeatIdle).
- CustomerLifeCycle.WalkFollowsRoute: Walk chains the route state machine `Next`, not Step. Step's contract states that each Step's stage and stops are those of Next.
- DefaultDiningHallLifeCycle.Pass: the default dining hall is not an instance of `Station`, so the station lemmas (conservation, matching, arrival order) are not stated for it. It serves two customer queues, with the reservations first. A reservation wakes no seat. A reseat for dessert wakes a seat without taking it out of the idle queue, so a seat can be woken while it is busy (DefaultCustomerLifeCycle.ReseatLeavesSeatIdle).
- Interleavings: only the runs of a single `Station` pair are modelled (an employee station, the drinks bar, or the dining hall of the `selfservicecafe_p` package). No lemma covers the whole cafeteria running at once, and none covers a run of the default dining hall.
