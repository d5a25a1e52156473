/**
 One first-come-first-served server, computed in two unlike ways: the time-stepped reference
 of the experiment runner and the reservation made by the workstation on each arrival. Both
 are proved to give the one schedule of the recurrence, and the reference is proved to find
 its horizon too short exactly when the recurrence says so.
 */
module Scheduler {
  import opened Outcomes

  datatype Job = Job(sequence: nat, arrival: int, service: int)

  datatype Completion = Completion(job: Job, start: int, finish: int, wait: int)

  // --- The recurrence -----------------------------------------------------------------------

  function Max(a: int, b: int): int { if a < b then b else a }

  function Arrival(i: nat): int { i + 2 }

  function Start(services: seq<int>, i: nat): int
    requires i < |services|
    decreases i, 0
  {
    if i == 0 then Arrival(0) else Max(Arrival(i), Finish(services, i - 1))
  }

  function Finish(services: seq<int>, i: nat): int
    requires i < |services|
    decreases i, 1
  {
    Start(services, i) + services[i]
  }

  function JobOf(services: seq<int>, i: nat): Job
    requires i < |services|
  {
    Job(i + 1, Arrival(i), services[i])
  }

  function Row(services: seq<int>, i: nat): Completion
    requires i < |services|
  {
    var start := Start(services, i);
    Completion(JobOf(services, i), start, start + services[i], start - Arrival(i))
  }

  function Rows(services: seq<int>, n: nat): (r: seq<Completion>)
    requires n <= |services|
    ensures |r| == n && forall i :: 0 <= i < n ==> r[i] == Row(services, i)
  {
    seq(n, i requires 0 <= i < n => Row(services, i))
  }

  function Jobs(services: seq<int>, first: nat, end: nat): (r: seq<Job>)
    requires first <= end <= |services|
    ensures |r| == end - first && forall i :: 0 <= i < end - first ==> r[i] == JobOf(services, first + i)
  {
    seq(end - first, i requires 0 <= i < end - first => JobOf(services, first + i))
  }

  ghost predicate Positive(services: seq<int>) { forall i :: 0 <= i < |services| ==> services[i] >= 1 }

  lemma {:induction false} FinishIncreases(services: seq<int>, i: nat, j: nat)
    requires Positive(services) && i <= j < |services|
    ensures Finish(services, i) <= Finish(services, j)
    decreases j
  {
    if i < j { FinishIncreases(services, i, j - 1); }
  }

  // --- The time-stepped reference -----------------------------------------------------------

  function Horizon(n: nat): int { 3 * n + 3 }

  /** Jobs that have arrived before the tick `now`. */
  function Arrived(n: nat, now: int): nat
    requires now >= 1
  {
    if now < 2 then 0 else if now - 2 < n then now - 2 else n
  }

  /** Before the tick `now`: finished jobs, the job in service, and the jobs in line, in order. */
  ghost predicate Stepped(services: seq<int>, now: int, pending: seq<Job>, active: Option<Completion>, completed: seq<Completion>)
    requires now >= 1
  {
    var k, a := |completed|, Arrived(|services|, now);
    && k <= a && completed == Rows(services, k)
    && (forall i :: 0 <= i < k ==> services[i] >= 1 && Finish(services, i) < now)
    && (active.None? ==> k == a && pending == [])
    && (active.Some? ==>
          && k < a && active.value == Row(services, k) && pending == Jobs(services, k + 1, a)
          && (services[k] <= 0 || Finish(services, k) >= now) && Start(services, k) < now)
  }

  /** `reference`: completion, arrival and start, tick by tick. Services may be any integers. */
  method Reference(services: seq<int>) returns (r: Result<seq<Completion>>)
    ensures r.Ok? <==> Positive(services) && (services != [] ==> Finish(services, |services| - 1) <= Horizon(|services|))
    ensures r.Ok? ==> r.value == Rows(services, |services|)
  {
    var n := |services|;
    var pending: seq<Job>, active: Option<Completion>, completed: seq<Completion> := [], None, [];
    for now := 1 to 3 * n + 4
      invariant Stepped(services, now, pending, active, completed)
    {
      pending, active, completed := Tick(services, now, pending, active, completed);
    }
    if |completed| != n {
      StuckJob(services, pending, active, completed);
      return Error;
    }
    r := Ok(completed);
  }

  lemma StartsNow(services: seq<int>, k: nat, now: int)
    requires k < |services| && Arrival(k) <= now && (k > 0 ==> Finish(services, k - 1) <= now)
    requires Arrival(k) == now || (k > 0 && Finish(services, k - 1) == now)
    ensures Start(services, k) == now
  {}

  /** Within the tick `now`, after completion and arrival: whoever is next in line starts now. */
  ghost predicate MidTick(services: seq<int>, now: int, pending: seq<Job>, active: Option<Completion>, completed: seq<Completion>)
    requires now >= 1
  {
    var k, a := |completed|, Arrived(|services|, now + 1);
    && k <= a && completed == Rows(services, k)
    && (forall i :: 0 <= i < k ==> services[i] >= 1 && Finish(services, i) <= now)
    && (active.None? ==>
          && pending == Jobs(services, k, a)
          && (k < a ==> Arrival(k) == now || (k > 0 && Finish(services, k - 1) == now)))
    && (active.Some? ==>
          && k < a && active.value == Row(services, k) && pending == Jobs(services, k + 1, a)
          && (services[k] <= 0 || Finish(services, k) > now) && Start(services, k) < now)
  }

  /** One tick: completion, arrival, start. */
  method Tick(services: seq<int>, now: int, pending: seq<Job>, active: Option<Completion>, completed: seq<Completion>)
      returns (pending': seq<Job>, active': Option<Completion>, completed': seq<Completion>)
    requires now >= 1 && Stepped(services, now, pending, active, completed)
    ensures Stepped(services, now + 1, pending', active', completed')
  {
    pending', active', completed' := LeaveAndArrive(services, now, pending, active, completed);
    if active'.None? && pending' != [] {
      var job := pending'[0];
      StartsNow(services, |completed'|, now);
      pending' := pending'[1..];
      active' := Some(Completion(job, now, now + job.service, now - job.arrival));
    }
  }

  method LeaveAndArrive(services: seq<int>, now: int, pending: seq<Job>, active: Option<Completion>, completed: seq<Completion>)
      returns (pending': seq<Job>, active': Option<Completion>, completed': seq<Completion>)
    requires now >= 1 && Stepped(services, now, pending, active, completed)
    ensures MidTick(services, now, pending', active', completed')
  {
    pending', active', completed' := pending, active, completed;
    if active'.Some? && active'.value.finish == now {
      completed' := completed' + [active'.value];
      active' := None;
    }
    assert completed' == Rows(services, |completed'|);
    ghost var first := |completed'| + if active'.Some? then 1 else 0;
    assert pending' == Jobs(services, first, Arrived(|services|, now));
    if 2 <= now <= |services| + 1 {
      pending' := pending' + [Job(now - 1, now, services[now - 2])];
    }
    assert pending' == Jobs(services, first, Arrived(|services|, now + 1));
  }

  /** A job that has not left by the end is one that never can, or one beyond the horizon. */
  lemma StuckJob(services: seq<int>, pending: seq<Job>, active: Option<Completion>, completed: seq<Completion>)
    requires Stepped(services, 3 * |services| + 4, pending, active, completed) && |completed| != |services|
    ensures !Positive(services) || Finish(services, |services| - 1) > Horizon(|services|)
  {
    if Positive(services) {
      FinishIncreases(services, |completed|, |services| - 1);
    }
  }

  /** The horizon is never too short for the services that the experiments use. */
  lemma {:induction false} ShortServicesFit(services: seq<int>, i: nat)
    requires i < |services| && forall k :: 0 <= k < |services| ==> 1 <= services[k] <= 3
    ensures Finish(services, i) <= 3 * i + 5
    ensures i == |services| - 1 ==> Finish(services, i) <= Horizon(|services|)
  {
    if i > 0 { ShortServicesFit(services, i - 1); }
  }

  // --- The workstation ----------------------------------------------------------------------

  /** `workstation.Server`: it reserves the service of each job when it arrives. */
  class Server {
    var available: int
    var lastArrival: int
    var count: nat

    constructor ()
      ensures available == 0 && lastArrival == 0 && count == 0
    {
      available, lastArrival, count := 0, 0, 0;
    }

    method Accept(job: Job) returns (r: Result<Completion>)
      modifies this
      ensures r.Error? <==> job.service == 0 || job.sequence != old(count) + 1 || job.arrival < old(lastArrival)
      ensures r.Error? ==> available == old(available) && lastArrival == old(lastArrival) && count == old(count)
      ensures r.Ok? ==>
                && r.value.job == job && r.value.start == Max(old(available), job.arrival)
                && r.value.finish == r.value.start + job.service && r.value.wait == r.value.start - job.arrival
                && available == r.value.finish && lastArrival == job.arrival && count == job.sequence
    {
      if job.service == 0 || job.sequence != count + 1 || job.arrival < lastArrival { return Error; }
      var start := Max(available, job.arrival);
      var row := Completion(job, start, start + job.service, start - job.arrival);
      available, lastArrival, count := row.finish, job.arrival, job.sequence;
      r := Ok(row);
    }
  }

  /** The workstation fed with the jobs as they arrive. */
  method Reserve(services: seq<int>) returns (rows: seq<Completion>)
    requires Positive(services)
    ensures rows == Rows(services, |services|)
  {
    rows := [];
    var server := new Server();
    for i := 0 to |services|
      invariant rows == Rows(services, i)
      invariant server.count == i && server.lastArrival <= Arrival(i)
      invariant server.available == if i == 0 then 0 else Finish(services, i - 1)
    {
      var row := server.Accept(JobOf(services, i));
      rows := rows + [row.value];
    }
  }

  /** What `compare` checks of a run: the two computations agree in every field of every job. */
  method Compare(services: seq<int>) returns (agree: bool)
    requires forall k :: 0 <= k < |services| ==> 1 <= services[k] <= 3
    ensures agree
  {
    if services != [] { ShortServicesFit(services, |services| - 1); }
    var expected := Reference(services);
    var rows := Reserve(services);
    agree := expected == Ok(rows);
  }

  // --- The departures -----------------------------------------------------------------------

  ghost predicate Ascending(rows: seq<Completion>) {
    forall i, j :: 0 <= i < j < |rows| ==> rows[i].finish <= rows[j].finish
  }

  ghost predicate StrictlyAscending(rows: seq<Completion>) {
    forall i, j :: 0 <= i < j < |rows| ==> rows[i].finish < rows[j].finish
  }

  lemma RowsAscend(services: seq<int>)
    requires Positive(services)
    ensures StrictlyAscending(Rows(services, |services|))
  {
    forall i, j | 0 <= i < j < |services| ensures Finish(services, i) < Finish(services, j) {
      FinishIncreases(services, i, j - 1);
    }
    forall i, j | 0 <= i < j < |services| ensures Rows(services, |services|)[i].finish < Rows(services, |services|)[j].finish {
      assert Row(services, i).finish == Finish(services, i) && Row(services, j).finish == Finish(services, j);
    }
  }

  lemma WithoutLast(a: seq<Completion>)
    requires a != []
    ensures a == a[..|a| - 1] + [a[|a| - 1]]
    ensures multiset(a[..|a| - 1]) == multiset(a) - multiset{a[|a| - 1]}
    ensures Ascending(a) ==> Ascending(a[..|a| - 1])
    ensures StrictlyAscending(a) ==> StrictlyAscending(a[..|a| - 1])
  {
    assert a == a[..|a| - 1] + [a[|a| - 1]];
  }

  lemma LastIsLast(rows: seq<Completion>, arrived: seq<Completion>)
    requires StrictlyAscending(rows) && Ascending(arrived) && multiset(arrived) == multiset(rows) && rows != []
    ensures |arrived| == |rows| && arrived[|arrived| - 1] == rows[|rows| - 1]
  {
    assert |multiset(arrived)| == |arrived| && |multiset(rows)| == |rows|;
    var x, y := arrived[|arrived| - 1], rows[|rows| - 1];
    assert x in multiset(rows) && y in multiset(arrived);
    var i :| 0 <= i < |rows| && rows[i] == x;
    var j :| 0 <= j < |arrived| && arrived[j] == y;
  }

  /** There is one way of putting distinct finish times in order. */
  lemma {:induction false} OneOrder(rows: seq<Completion>, arrived: seq<Completion>)
    requires StrictlyAscending(rows) && Ascending(arrived) && multiset(arrived) == multiset(rows)
    ensures arrived == rows
    decreases |rows|
  {
    if rows == [] {
      assert |multiset(arrived)| == |arrived|;
    } else {
      LastIsLast(rows, arrived);
      WithoutLast(rows);
      WithoutLast(arrived);
      OneOrder(rows[..|rows| - 1], arrived[..|rows| - 1]);
    }
  }

  /** Completion messages that come once each and in timestamp order reach the sink as the reference
      lists them, job by job. */
  lemma DeparturesMatch(services: seq<int>, arrived: seq<Completion>)
    requires Positive(services) && Ascending(arrived) && multiset(arrived) == multiset(Rows(services, |services|))
    ensures |arrived| == |services|
    ensures forall i :: 0 <= i < |services| ==> arrived[i].job.sequence == i + 1 && arrived[i].finish == Finish(services, i)
  {
    RowsAscend(services);
    OneOrder(Rows(services, |services|), arrived);
  }

  // --- The schedule -------------------------------------------------------------------------

  function Total(services: seq<int>, first: nat, end: nat): int
    requires first <= end <= |services|
    decreases end
  {
    if first == end then 0 else Total(services, first, end - 1) + services[end - 1]
  }

  /** A job cannot finish before any earlier arrival plus all the work from there on. */
  lemma {:induction false} WorkloadBounds(services: seq<int>, i: nat, j: nat)
    requires j <= i < |services|
    ensures Finish(services, i) >= Arrival(j) + Total(services, j, i + 1)
    decreases i
  {
    if j == i {
      assert Total(services, i, i) == 0;
    } else {
      WorkloadBounds(services, i - 1, j);
    }
  }

  /** And it finishes exactly then for the job that began the current busy period: the server
      idles only when nobody is there. */
  lemma {:induction false} WorkloadAttained(services: seq<int>, i: nat) returns (b: nat)
    requires i < |services|
    ensures b <= i && Finish(services, i) == Arrival(b) + Total(services, b, i + 1)
    decreases i
  {
    assert Total(services, i, i) == 0;
    if i == 0 || Arrival(i) >= Finish(services, i - 1) {
      b := i;
    } else {
      b := WorkloadAttained(services, i - 1);
    }
  }
}
