/**
 The job queue of the print daemon, refer_code/apue.2e/ipp/printd.c: a doubly linked list that
 client threads append to and the printer thread takes jobs from, putting a job it could not
 print back at the front.  Each operation holds joblock throughout, so a run of the daemon is a
 sequence of whole operations, in any order the threads make of it.
 */
module PrintQueue {
  import opened Basics

  class Job {
    const id: int
    var next: Job?
    var prev: Job?

    constructor (id: int)
      ensures this.id == id
    {
      this.id, next, prev := id, null, null;
    }
  }

  function Ids(jobs: seq<Job>): (s: seq<int>)
    ensures |s| == |jobs|
  {
    seq(|jobs|, i requires 0 <= i < |jobs| => jobs[i].id)
  }

  /** The job at position k, or null past either end. */
  function At(jobs: seq<Job>, k: int): Job? {
    if 0 <= k < |jobs| then jobs[k] else null
  }

  /** Job k of the list points to its neighbours. */
  predicate Linked(jobs: seq<Job>, k: nat)
    requires k < |jobs|
    reads jobs
  {
    jobs[k].next == At(jobs, k + 1) && jobs[k].prev == At(jobs, k - 1)
  }

  class Queue {
    var head: Job?
    var tail: Job?
    ghost var jobs: seq<Job>

    /** Following next from head, or prev from tail, gives exactly the jobs, in order. */
    ghost predicate Valid()
      reads this, jobs
    {
      && NoDup(jobs)
      && head == At(jobs, 0) && tail == At(jobs, |jobs| - 1)
      && forall k: nat :: k < |jobs| ==> Linked(jobs, k)
    }

    constructor ()
      ensures Valid() && jobs == []
    {
      head, tail, jobs := null, null, [];
    }

    /** add_job */
    method AddJob(jp: Job)
      requires Valid() && jp !in jobs
      modifies this, jobs, jp
      ensures Valid() && jobs == old(jobs) + [jp]
    {
      jp.next := null;
      jp.prev := tail;
      if tail == null {
        head := jp;
      } else {
        tail.next := jp;
      }
      tail := jp;
      jobs := jobs + [jp];
      forall k: nat | k < |jobs|
        ensures Linked(jobs, k)
      {
        if k < |jobs| - 1 {
          assert old(Linked(jobs, k));
        }
      }
    }

    /** replace_job */
    method ReplaceJob(jp: Job)
      requires Valid() && jp !in jobs
      modifies this, jobs, jp
      ensures Valid() && jobs == [jp] + old(jobs)
    {
      jp.prev := null;
      jp.next := head;
      if head == null {
        tail := jp;
      } else {
        head.prev := jp;
      }
      head := jp;
      jobs := [jp] + jobs;
      forall k: nat | k < |jobs|
        ensures Linked(jobs, k)
      {
        if k > 0 {
          assert old(Linked(jobs, k - 1));
        }
      }
    }

    /** remove_job: any job of the list */
    method RemoveJob(target: Job, ghost k: nat)
      requires Valid() && k < |jobs| && jobs[k] == target
      modifies this, jobs
      ensures Valid() && jobs == Omit(old(jobs), k)
    {
      assert Linked(jobs, k) && (k > 0 ==> Linked(jobs, k - 1)) && (k + 1 < |jobs| ==> Linked(jobs, k + 1));
      if target.next != null {
        target.next.prev := target.prev;
      } else {
        tail := target.prev;
      }
      if target.prev != null {
        target.prev.next := target.next;
      } else {
        head := target.next;
      }
      jobs := Omit(jobs, k);
      forall j: nat | j < |jobs|
        ensures Linked(jobs, j)
      {
        assert old(Linked(jobs, if j < k then j else j + 1));
      }
    }
  }

  // ---------- the daemon ----------

  /** A client adds a job; the printer thread takes the first, finishes or cancels it, or defers it. */
  datatype Event = Add(id: int) | Take | Finish | Defer

  class Daemon {
    const queue: Queue
    var hand: Job?
    /** The jobs printed or cancelled, and all the jobs ever added, in order. */
    ghost var finished: seq<int>
    ghost var added: seq<int>

    ghost function Footprint(): set<object>
      reads this, queue
    {
      {this, queue} + (set j | j in queue.jobs) + (if hand != null then {hand} else {})
    }

    ghost function InHand(): seq<int>
      reads this
    {
      if hand != null then [hand.id] else []
    }

    /** No job is lost, duplicated or overtaken. */
    ghost predicate Valid()
      reads this, queue, queue.jobs
    {
      && queue.Valid() && (hand != null ==> hand !in queue.jobs)
      && finished + InHand() + Ids(queue.jobs) == added
    }

    constructor ()
      ensures Valid() && fresh(Footprint()) && added == [] && finished == [] && hand == null
    {
      var q := new Queue();
      queue, hand, finished, added := q, null, [], [];
    }

    method AddJob(id: int)
      requires Valid()
      modifies Footprint()
      ensures Valid() && fresh(Footprint() - old(Footprint()))
      ensures added == old(added) + [id] && hand == old(hand) && finished == old(finished)
    {
      var jp := new Job(id);
      queue.AddJob(jp);
      added := added + [id];
      assert Ids(queue.jobs) == Ids(old(queue.jobs)) + [id];
    }

    /** The printer thread picks up the first job; with none it waits. */
    method TakeJob() returns (waits: bool)
      requires Valid() && hand == null
      modifies Footprint()
      ensures Valid() && fresh(Footprint() - old(Footprint())) && added == old(added) && finished == old(finished)
      ensures waits <==> old(queue.jobs) == []
      ensures !waits ==> hand == old(queue.jobs)[0] && queue.jobs == old(queue.jobs)[1..]
    {
      waits := queue.head == null;
      if !waits {
        var jp := queue.head;
        queue.RemoveJob(jp, 0);
        hand := jp;
        assert Ids(old(queue.jobs)) == [jp.id] + Ids(queue.jobs);
      }
    }

    /** The job is printed, or cancelled because its file cannot be opened. */
    method FinishJob()
      requires Valid() && hand != null
      modifies Footprint()
      ensures Valid() && fresh(Footprint() - old(Footprint())) && added == old(added)
      ensures hand == null && queue.jobs == old(queue.jobs) && finished == old(finished) + [old(hand).id]
    {
      finished := finished + [hand.id];
      hand := null;
    }

    /** The printer could not be reached: the job goes back to the front. */
    method DeferJob()
      requires Valid() && hand != null
      modifies Footprint()
      ensures Valid() && fresh(Footprint() - old(Footprint())) && added == old(added) && finished == old(finished)
      ensures hand == null && queue.jobs == [old(hand)] + old(queue.jobs)
    {
      queue.ReplaceJob(hand);
      hand := null;
      assert Ids(queue.jobs) == [old(hand).id] + Ids(old(queue.jobs));
    }

    ghost function Now(): Tally
      reads this
    {
      Tally(|finished|, hand != null)
    }

    /** One event; the printer thread takes a job only with empty hands and finishes or defers only what it holds. */
    method Do(e: Event)
      requires Valid()
      modifies Footprint()
      ensures Valid() && fresh(Footprint() - old(Footprint()))
      ensures added == old(added) + (if e.Add? then [e.id] else [])
      ensures Now() == Next(old(Now()), |old(added)|, e)
    {
      assert |added| == |finished| + |InHand()| + |queue.jobs|;
      match e
      case Add(id) =>
        AddJob(id);
      case Take =>
        if hand == null {
          var _ := TakeJob();
        }
      case Finish =>
        if hand != null {
          FinishJob();
        }
      case Defer =>
        if hand != null {
          DeferJob();
        }
    }

    /**
     Any interleaving of clients and the printer thread: the jobs leave in the order they were added, one for each
     Finish that meets a job in hand; the next is in hand if it was taken since, and the others wait.
     */
    method Run(events: seq<Event>)
      requires Valid() && added == [] && hand == null && finished == []
      modifies Footprint()
      ensures Valid() && added == Adds(events)
      ensures var (t, all) := (After(events), Adds(events));
              && t.done + (if t.holding then 1 else 0) <= |all|
              && finished == all[..t.done]
              && InHand() == (if t.holding then [all[t.done]] else [])
              && Ids(queue.jobs) == all[t.done + (if t.holding then 1 else 0)..]
    {
      hide Next, Valid, InHand, Ids;
      for n := 0 to |events|
        invariant Valid() && fresh(Footprint() - old(Footprint()))
        invariant added == Adds(events[..n]) && Now() == After(events[..n])
      {
        assert events[..n + 1][..n] == events[..n];
        Do(events[n]);
      }
      assert events[..|events|] == events;
      Parts();
    }

    /** The jobs added, cut in three. */
    lemma Parts()
      requires Valid()
      ensures var (n, k) := (|finished|, |finished| + |InHand()|);
              && k <= |added| && finished == added[..n] && InHand() == added[n..k] && Ids(queue.jobs) == added[k..]
      ensures InHand() == if hand != null then [added[|finished|]] else []
      ensures |InHand()| == if hand != null then 1 else 0
    {
    }
  }

  function Adds(events: seq<Event>): seq<int> {
    if events == [] then []
    else
      var n := |events| - 1;
      Adds(events[..n]) + if events[n].Add? then [events[n].id] else []
  }

  /** How many jobs are done, and whether the printer thread holds the next. */
  datatype Tally = Tally(done: nat, holding: bool)

  /** An event when so many jobs have been added. */
  function Next(t: Tally, added: nat, e: Event): Tally {
    match e
    case Add(_) => t
    case Take => t.(holding := t.holding || t.done < added)
    case Finish => Tally(if t.holding then t.done + 1 else t.done, false)
    case Defer => t.(holding := false)
  }

  function After(events: seq<Event>): Tally {
    if events == [] then Tally(0, false)
    else
      var n := |events| - 1;
      Next(After(events[..n]), |Adds(events[..n])|, events[n])
  }
}
