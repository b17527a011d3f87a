/**
  The dashboard statistics of the home page: four counts over the task list,
  with the clock (`new Date()`) as the parameter `now`.
 */
module HomePage {
  import opened TaskTypes
  import opened Seqs

  datatype Stats = Stats(totalTasks: nat, inProgress: nat, completed: nat, overdue: nat)

  function HasStatus(st: Status): Task -> bool {
    (t: Task) => t.status == st
  }

  /** Not done and due strictly before `now`. */
  function IsOverdue(now: Time): Task -> bool {
    (t: Task) => t.status != Done && t.dueDate < now
  }

  function ComputeStats(ts: seq<Task>, now: Time): (r: Stats)
    ensures r.totalTasks == |ts|
    ensures r.inProgress + r.completed <= r.totalTasks
    ensures r.overdue + r.completed <= r.totalTasks
    ensures r.inProgress <= r.totalTasks && r.overdue <= r.totalTasks
  {
    FilterExclusive(ts, HasStatus(InProgress), HasStatus(Done));
    FilterExclusive(ts, IsOverdue(now), HasStatus(Done));
    Stats(|ts|, |Filter(ts, HasStatus(InProgress))|, |Filter(ts, HasStatus(Done))|,
          |Filter(ts, IsOverdue(now))|)
  }

  /** Counting, one task at a time: the contribution of a single task. */
  function StatsOfOne(t: Task, now: Time): Stats {
    Stats(1, if t.status == InProgress then 1 else 0, if t.status == Done then 1 else 0,
          if t.status != Done && t.dueDate < now then 1 else 0)
  }

  function Plus(a: Stats, b: Stats): Stats {
    Stats(a.totalTasks + b.totalTasks, a.inProgress + b.inProgress, a.completed + b.completed,
          a.overdue + b.overdue)
  }

  /** The empty list has all four counts zero. */
  lemma StatsOfEmpty(now: Time)
    ensures ComputeStats([], now) == Stats(0, 0, 0, 0)
  {
  }

  /** The statistics of a list are the sums of the contributions of its tasks. */
  lemma {:induction false} StatsAppend(ts: seq<Task>, t: Task, now: Time)
    ensures ComputeStats(ts + [t], now) == Plus(ComputeStats(ts, now), StatsOfOne(t, now))
  {
    FilterConcat(ts, [t], HasStatus(InProgress));
    FilterSingleton(t, HasStatus(InProgress));
    FilterConcat(ts, [t], HasStatus(Done));
    FilterSingleton(t, HasStatus(Done));
    FilterConcat(ts, [t], IsOverdue(now));
    FilterSingleton(t, IsOverdue(now));
  }

  /** A done task is never counted as overdue; every overdue task is not done and past due. */
  lemma OverdueNeverDone(ts: seq<Task>, now: Time)
    ensures forall t :: t in Filter(ts, IsOverdue(now)) ==> t.status != Done && t.dueDate < now
    ensures forall t :: t in Filter(ts, IsOverdue(now)) ==> t !in Filter(ts, HasStatus(Done))
  {
    FilterCounts(ts, IsOverdue(now));
    FilterCounts(ts, HasStatus(Done));
  }

  /** Moving the clock forward never lowers the overdue count. */
  lemma OverdueGrowsWithTime(ts: seq<Task>, now: Time, later: Time)
    requires now <= later
    ensures ComputeStats(ts, now).overdue <= ComputeStats(ts, later).overdue
  {
    FilterMonotone(ts, IsOverdue(now), IsOverdue(later));
  }
}
