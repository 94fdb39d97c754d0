/** The auto_tasks registry (bot.py, start_auto, start_auto15, start_auto60,
    stop_auto): a dict from the period "15", "30" or "60" to the running
    auto_loop task. A task is recorded by the chat it reports to and its
    period; running and cancelling it is not modelled. */
module AutoTasks {

  /** An auto_loop task: the chat it sends to and its period in minutes. */
  datatype Job = Job(chatId: int, intervalMinutes: nat)

  /** The period key the handler for `minutes` uses: "15", "30" or "60". */
  function PeriodKey(minutes: nat): string
  {
    if minutes == 15 then "15" else if minutes == 30 then "30" else "60"
  }

  /** Every key is a period and its task runs at that period. */
  predicate WellKeyed(tasks: map<string, Job>)
  {
    forall key :: key in tasks ==>
      (key == "15" && tasks[key].intervalMinutes == 15) ||
      (key == "30" && tasks[key].intervalMinutes == 30) ||
      (key == "60" && tasks[key].intervalMinutes == 60)
  }

  /** The registry after asking to start `job` under `key`: unchanged when
      the key is taken, otherwise extended by exactly that entry. */
  function Started(tasks: map<string, Job>, key: string, job: Job): map<string, Job>
  {
    if key in tasks then tasks else tasks[key := job]
  }

  /** There is at most one task per period, so at most three in all. */
  lemma AtMostThree(tasks: map<string, Job>)
    requires WellKeyed(tasks)
    ensures |tasks| <= 3
  {
    var periods: set<string> := {"15", "30", "60"};
    assert tasks.Keys <= periods;
    SubsetCardinality(tasks.Keys, periods);
    assert |periods| == 3;
  }

  /** A subset is no larger than its superset. */
  lemma {:induction false} SubsetCardinality(a: set<string>, b: set<string>)
    requires a <= b
    ensures |a| <= |b|
    decreases |b|
  {
    if a != {} {
      var x :| x in a;
      SubsetCardinality(a - {x}, b - {x});
    }
  }

  /** Asking again for a period that is already running changes nothing:
      the first task, with its chat, stays. */
  lemma StartIdempotent(tasks: map<string, Job>, key: string, first: Job, second: Job)
    ensures Started(Started(tasks, key, first), key, second) == Started(tasks, key, first)
    ensures key in Started(tasks, key, first)
    ensures key !in tasks ==> Started(tasks, key, first)[key] == first
  {
  }

  /** Starting keeps the registry well keyed when the job runs at the
      period of its key. */
  lemma StartedWellKeyed(tasks: map<string, Job>, minutes: nat, job: Job)
    requires WellKeyed(tasks)
    requires minutes == 15 || minutes == 30 || minutes == 60
    requires job.intervalMinutes == minutes
    ensures WellKeyed(Started(tasks, PeriodKey(minutes), job))
  {
  }

  class Registry {
    /** auto_tasks */
    var tasks: map<string, Job>

    ghost predicate Valid()
      reads this
    {
      WellKeyed(tasks)
    }

    constructor()
      ensures Valid() && tasks == map[]
    {
      tasks := map[];
    }

    /** The body shared by the start_auto handlers: start a task for `chatId`
        every `minutes` minutes unless one with that period already runs.
        `started` says whether the confirmation is sent. */
    method Start(minutes: nat, chatId: int) returns (started: bool)
      requires Valid()
      requires minutes == 15 || minutes == 30 || minutes == 60
      modifies this
      ensures Valid()
      ensures started <==> PeriodKey(minutes) !in old(tasks)
      ensures tasks == Started(old(tasks), PeriodKey(minutes), Job(chatId, minutes))
    {
      var key := PeriodKey(minutes);
      started := false;
      if key !in tasks {
        tasks := tasks[key := Job(chatId, minutes)];
        started := true;
      }
    }

    /** start_auto (/auto30). */
    method StartAuto(chatId: int) returns (started: bool)
      requires Valid()
      modifies this
      ensures Valid()
      ensures started <==> "30" !in old(tasks)
      ensures tasks == Started(old(tasks), "30", Job(chatId, 30))
    {
      started := Start(30, chatId);
    }

    /** start_auto15 (/auto15). */
    method StartAuto15(chatId: int) returns (started: bool)
      requires Valid()
      modifies this
      ensures Valid()
      ensures started <==> "15" !in old(tasks)
      ensures tasks == Started(old(tasks), "15", Job(chatId, 15))
    {
      started := Start(15, chatId);
    }

    /** start_auto60 (/auto60). */
    method StartAuto60(chatId: int) returns (started: bool)
      requires Valid()
      modifies this
      ensures Valid()
      ensures started <==> "60" !in old(tasks)
      ensures tasks == Started(old(tasks), "60", Job(chatId, 60))
    {
      started := Start(60, chatId);
    }

    /** stop_auto: cancel every task, one at a time, then clear the
        registry. `cancelled` holds the tasks that were cancelled. */
    method StopAuto() returns (cancelled: map<string, Job>)
      requires Valid()
      modifies this
      ensures Valid()
      ensures cancelled == old(tasks)
      ensures tasks == map[]
    {
      cancelled := map[];
      var remaining := tasks;
      while remaining != map[]
        invariant forall k :: k in tasks <==> k in cancelled || k in remaining
        invariant forall k :: k in cancelled ==> k !in remaining && cancelled[k] == tasks[k]
        invariant forall k :: k in remaining ==> remaining[k] == tasks[k]
        decreases |remaining|
      {
        var key :| key in remaining;
        cancelled := cancelled[key := remaining[key]];
        remaining := remaining - {key};
      }
      assert cancelled.Keys == tasks.Keys;
      tasks := map[];
    }
  }
}
