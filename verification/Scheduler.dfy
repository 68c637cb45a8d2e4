/** One-shot and recurring tasks: src/scheduler.c. */
module Scheduler {
  import opened Options
  import opened Calendar

  /** An entry of scheduler.json; the texts that are only shown are left out. */
  datatype Task = Task(id: string, runAt: Option<string>, recurring: Option<string>)

  const WEEK: int := 604800
  const HORIZON: int := MAX_TIME - WEEK  // up to here every next slot is in a year of four digits

  /** How run times are parsed from text, and printed again. */
  datatype TimeText = TimeText(parse: string -> int, show: nat -> string)

  function Utc(local: Tm -> int): TimeText {
    TimeText(s => ParseTime(s, local), (t: nat) => FormatUtc(t))
  }

  ghost predicate Faithful(z: TimeText) {
    forall t: nat | 0 < t <= MAX_TIME :: z.parse(z.show(t)) == t
  }

  lemma UtcIsFaithful(local: Tm -> int)
    ensures Faithful(Utc(local))
  {
    forall t: nat | 0 < t <= MAX_TIME
      ensures Utc(local).parse(Utc(local).show(t)) == t
    {
      RoundTrip(t, local);
    }
  }

  predicate Given(s: Option<string>) {
    s.Some? && s.value != ""
  }

  /** interval_seconds: 0 for none or an unknown name. */
  function IntervalSeconds(name: Option<string>): (secs: int)
    ensures 0 <= secs <= WEEK
  {
    match name
    case None => 0
    case Some(n) =>
      if n == "every_30min" then 1800
      else if n == "hourly" then 3600
      else if n == "every_6h" then 21600
      else if n == "every_12h" then 43200
      else if n == "daily" then 86400
      else if n == "weekly" then WEEK
      else 0
  }

  function RunTime(t: Task, z: TimeText): int {
    if t.runAt.None? then 0 else z.parse(t.runAt.value)
  }

  //
  // Slots.
  //

  /** The slots of a task that starts at `base` and recurs every `secs` seconds. */
  function Slot(base: int, secs: int, k: nat): int {
    base + k * secs
  }

  ghost predicate OnSlot(base: int, secs: int, t: int) {
    exists k: nat :: t == Slot(base, secs, k)
  }

  /** The first time after `now` that is reached from `t` in steps of `secs`; `t` itself if it is later. */
  function NextSlot(t: int, now: int, secs: int): (next: int)
    requires secs > 0
    ensures next > now && next >= t
    ensures t <= now ==> next <= now + secs
    decreases if t > now then 0 else now - t + 1
  {
    if t > now then t else NextSlot(t + secs, now, secs)
  }

  lemma SlotsGrow(base: int, secs: int, m: nat, n: nat)
    requires secs > 0 && m <= n
    ensures Slot(base, secs, m) <= Slot(base, secs, n)
  {
    assert (n - m) * secs >= 0;
  }

  lemma {:induction false} NextSlotIndex(base: int, secs: int, k: nat, now: int) returns (n: nat)
    requires secs > 0
    ensures k <= n && NextSlot(Slot(base, secs, k), now, secs) == Slot(base, secs, n)
    ensures n > k ==> Slot(base, secs, n - 1) <= now
    decreases var t := Slot(base, secs, k); if t > now then 0 else now - t + 1
  {
    n := k;
    if Slot(base, secs, k) <= now {
      assert Slot(base, secs, k) + secs == Slot(base, secs, k + 1);
      n := NextSlotIndex(base, secs, k + 1, now);
    }
  }

  /** The next slot is a slot, and the least one strictly after `now` when the task was due. */
  lemma NextSlotIsLeast(base: int, secs: int, t: int, now: int)
    requires secs > 0 && OnSlot(base, secs, t)
    ensures OnSlot(base, secs, NextSlot(t, now, secs))
    ensures t <= now ==> forall u | OnSlot(base, secs, u) && u > now :: NextSlot(t, now, secs) <= u
  {
    var k: nat :| t == Slot(base, secs, k);
    var n := NextSlotIndex(base, secs, k, now);
    if t <= now {
      forall u | OnSlot(base, secs, u) && u > now
        ensures Slot(base, secs, n) <= u
      {
        var m: nat :| u == Slot(base, secs, m);
        if m < n {
          SlotsGrow(base, secs, m, n - 1);
        } else {
          SlotsGrow(base, secs, n, m);
        }
      }
    }
  }

  method Advance(t: int, now: int, secs: int) returns (next: int)
    requires secs > 0
    ensures next == NextSlot(t, now, secs)
  {
    next := t;
    while next <= now
      invariant NextSlot(next, now, secs) == NextSlot(t, now, secs)
      decreases now - next
    {
      next := next + secs;
    }
  }

  //
  // The task list.
  //

  /** find_task: the index of the first task with this id, -1 when there is none. */
  function Find(tasks: seq<Task>, id: string): (i: int)
    ensures -1 <= i < |tasks|
    ensures i >= 0 ==> tasks[i].id == id
    ensures i < 0 ==> forall j | 0 <= j < |tasks| :: tasks[j].id != id
  {
    if tasks == [] then -1
    else if tasks[0].id == id then 0
    else
      var i := Find(tasks[1..], id);
      assert forall j | 0 < j < |tasks| :: tasks[j] == tasks[1..][j - 1];
      if i < 0 then -1 else i + 1
  }

  predicate IsDue(t: Task, now: int, z: TimeText) {
    0 < RunTime(t, z) <= now
  }

  function Due(tasks: seq<Task>, now: int, z: TimeText): seq<Task> {
    if tasks == [] then []
    else
      var n := |tasks| - 1;
      Due(tasks[..n], now, z) + if IsDue(tasks[n], now, z) then [tasks[n]] else []
  }

  function Later(t: Task, now: int, z: TimeText): Task
    requires now >= 0 && IntervalSeconds(t.recurring) > 0
  {
    t.(runAt := Some(z.show(NextSlot(RunTime(t, z), now, IntervalSeconds(t.recurring)))))
  }

  /** One-shot tasks go away, recurring ones move to their next run. */
  function MarkOne(tasks: seq<Task>, id: string, now: int, z: TimeText): seq<Task>
    requires now >= 0
  {
    var i := Find(tasks, id);
    if i < 0 then tasks
    else if IntervalSeconds(tasks[i].recurring) <= 0 then tasks[..i] + tasks[i + 1..]
    else tasks[i := Later(tasks[i], now, z)]
  }

  function MarkAll(tasks: seq<Task>, ids: seq<string>, now: int, z: TimeText): seq<Task>
    requires now >= 0
  {
    if ids == [] then tasks
    else MarkOne(MarkAll(tasks, ids[..|ids| - 1], now, z), ids[|ids| - 1], now, z)
  }

  datatype Checked = Refused | Accepted(runAt: Option<string>)

  /** check_task: a past one-shot time is refused, a past recurring start moves to its next occurrence. */
  function CheckTask(runAt: Option<string>, interval: Option<string>, now: int, z: TimeText): Checked
    requires now >= 0
  {
    var t := if Given(runAt) then z.parse(runAt.value) else 0;
    if Given(runAt) && t == 0 then Refused
    else if Given(interval) && IntervalSeconds(interval) == 0 then Refused
    else if t != 0 && t <= now then
      if !Given(interval) then Refused
      else Accepted(Some(z.show(NextSlot(t, now, IntervalSeconds(interval)))))
    else Accepted(runAt)
  }

  /** sched_add, with the id it drew; the task list itself when it refuses. */
  function Add(tasks: seq<Task>, id: string, runAt: Option<string>, interval: Option<string>, now: int, z: TimeText)
    : seq<Task>
    requires now >= 0
  {
    var c := CheckTask(runAt, interval, now, z);
    if !Given(runAt) || c.Refused? then tasks
    else tasks + [Task(id, c.runAt, if Given(interval) then interval else None)]
  }

  /** sched_update: absent arguments keep what the task has. */
  function Update(tasks: seq<Task>, id: string, runAt: Option<string>, interval: Option<string>, now: int, z: TimeText)
    : seq<Task>
    requires now >= 0
  {
    var i := Find(tasks, id);
    if i < 0 then tasks
    else
      var c := CheckTask(runAt, if interval.Some? then interval else tasks[i].recurring, now, z);
      if c.Refused? then tasks
      else
        var t := if Given(c.runAt) then tasks[i].(runAt := c.runAt) else tasks[i];
        tasks[i := if interval.None? then t else t.(recurring := if Given(interval) then interval else None)]
  }

  /** sched_cancel */
  function Cancel(tasks: seq<Task>, id: string): seq<Task> {
    var i := Find(tasks, id);
    if i < 0 then tasks else tasks[..i] + tasks[i + 1..]
  }

  /** The scheduler: its task list, loaded and saved whole. */
  class TaskFile {
    var tasks: seq<Task>

    constructor ()
      ensures tasks == []
    {
      tasks := [];
    }

    method GetDue(now: int, z: TimeText) returns (due: seq<Task>)
      ensures due == Due(tasks, now, z)
    {
      due := [];
      for i := 0 to |tasks|
        invariant due == Due(tasks[..i], now, z)
      {
        var t := RunTime(tasks[i], z);
        assert tasks[..i + 1][..i] == tasks[..i];
        if t > 0 && t <= now {
          due := due + [tasks[i]];
        }
      }
      assert tasks[..|tasks|] == tasks;
    }

    method MarkDone(ids: seq<string>, now: int, z: TimeText)
      requires now >= 0
      modifies this
      ensures tasks == MarkAll(old(tasks), ids, now, z)
    {
      for k := 0 to |ids|
        invariant tasks == MarkAll(old(tasks), ids[..k], now, z)
      {
        assert ids[..k + 1][..k] == ids[..k];
        var i := Find(tasks, ids[k]);
        if i >= 0 {
          var secs := IntervalSeconds(tasks[i].recurring);
          if secs <= 0 {
            tasks := tasks[..i] + tasks[i + 1..];
          } else {
            var next := Advance(RunTime(tasks[i], z), now, secs);
            tasks := tasks[i := tasks[i].(runAt := Some(z.show(next)))];
          }
        }
      }
      assert ids[..|ids|] == ids;
    }
  }
}
