/** The proxy's own job list: bounded log buffers, one active slot, eight finished jobs kept. */
module JobManagers {
  import opened Wrappers

  type Id = string

  const LOG_HEAD_CAP: nat := 100
  const LOG_TAIL_CAP: nat := 400
  const RETAINED_FINISHED_JOBS: nat := 8

  datatype Status = Running | Succeeded | Failed

  // ----- the bounded log ----------------------------------------------------

  // What is kept of an unbounded log: its first lines, its last lines, how many went missing between.
  function HeadOf(log: seq<string>): seq<string> {
    if |log| <= LOG_HEAD_CAP then log else log[..LOG_HEAD_CAP]
  }

  function TailOf(log: seq<string>): seq<string> {
    if |log| <= LOG_HEAD_CAP then []
    else if |log| <= LOG_HEAD_CAP + LOG_TAIL_CAP then log[LOG_HEAD_CAP..]
    else log[|log| - LOG_TAIL_CAP..]
  }

  function DroppedOf(log: seq<string>): nat {
    if |log| <= LOG_HEAD_CAP + LOG_TAIL_CAP then 0 else |log| - LOG_HEAD_CAP - LOG_TAIL_CAP
  }

  datatype Buffers = Buffers(head: seq<string>, tail: seq<string>, dropped: nat)

  function Kept(log: seq<string>): Buffers { Buffers(HeadOf(log), TailOf(log), DroppedOf(log)) }

  // Head, the dropped lines and tail are the whole log: nothing is kept twice and nothing else is lost.
  predicate Whole(b: Buffers, log: seq<string>) {
    && |b.head| + b.dropped + |b.tail| == |log|
    && |b.head| == (if |log| < 100 then |log| else 100)
    && |b.tail| == (if |log| < 100 then 0 else if |log| < 500 then |log| - 100 else 400)
    && log == b.head + log[|b.head|..|b.head| + b.dropped] + b.tail
  }

  lemma LogIsHeadDroppedTail(log: seq<string>)
    ensures Whole(Kept(log), log)
  {
  }

  predicate HeadFull(b: Buffers) { |b.head| >= LOG_HEAD_CAP }

  function ToTail(b: Buffers, line: string): Buffers {
    if |b.tail| < LOG_TAIL_CAP then b.(tail := b.tail + [line])
    else b.(tail := b.tail[1..] + [line], dropped := b.dropped + 1)
  }

  lemma KeptByHead(log: seq<string>, line: string)
    requires !HeadFull(Kept(log))
    ensures Kept(log + [line]) == Kept(log).(head := Kept(log).head + [line])
  {
  }

  lemma KeptByTail(log: seq<string>, line: string)
    requires HeadFull(Kept(log))
    ensures Kept(log + [line]) == ToTail(Kept(log), line)
  {
    var all := log + [line];
    assert HeadOf(all) == HeadOf(log);
    assert ToTail(Kept(log), line).tail == TailOf(all);
  }

  // An append has two sections, each under its own lock: a line goes to the head while that
  // has room; else, with the head's lock already released, to the tail. `waiting` are the
  // lines that found the head full and are yet to reach the tail; `log` are the lines that
  // have arrived, in the order they did.
  datatype Log = Log(kept: Buffers, waiting: multiset<string>, log: seq<string>)

  datatype LogStep = AtHead(line: string) | AtTail(line: string)

  predicate CanAppend(s: Log, a: LogStep) { a.AtTail? ==> a.line in s.waiting }

  function Appended(s: Log, a: LogStep): Log {
    match a
    case AtHead(line) =>
      if HeadFull(s.kept) then s.(waiting := s.waiting + multiset{line})
      else s.(kept := s.kept.(head := s.kept.head + [line]), log := s.log + [line])
    case AtTail(line) =>
      s.(kept := ToTail(s.kept, line), waiting := s.waiting - multiset{line}, log := s.log + [line])
  }

  ghost predicate LogRun(ss: seq<Log>, acts: seq<LogStep>) {
    && |ss| == |acts| + 1 && ss[0] == Log(Buffers([], [], 0), multiset{}, [])
    && forall i :: 0 <= i < |acts| ==> CanAppend(ss[i], acts[i]) && ss[i + 1] == Appended(ss[i], acts[i])
  }

  // The lines whose append has begun.
  function Begun(acts: seq<LogStep>): multiset<string> {
    if acts == [] then multiset{}
    else
      var a := acts[|acts| - 1];
      Begun(acts[..|acts| - 1]) + if a.AtHead? then multiset{a.line} else multiset{}
  }

  /**
   However appends to one log overlap, the buffers are those of the log in the order in
   which the lines arrived, head, dropped lines and tail being all of it; each line has
   arrived once or waits for the tail; and none waits before the head is full. So
   overlapping appends are appends one after the other.
   */
  lemma {:induction false} OverlappingAppends(ss: seq<Log>, acts: seq<LogStep>, i: nat)
    requires LogRun(ss, acts) && i <= |acts|
    ensures ss[i].kept == Kept(ss[i].log)
    ensures multiset(ss[i].log) + ss[i].waiting == Begun(acts[..i])
    ensures ss[i].waiting != multiset{} ==> HeadFull(ss[i].kept)
    ensures Whole(ss[i].kept, ss[i].log)
  {
    hide Kept; hide Appended; hide HeadFull; hide Whole;
    LogIsHeadDroppedTail(ss[i].log);
    if i == 0 {
      NothingKept();
    } else {
      OverlappingAppends(ss, acts, i - 1);
      assert acts[..i][..i - 1] == acts[..i - 1];
      AppendedInOrder(ss[i - 1], acts[i - 1]);
      AppendedOnce(ss[i - 1], acts[i - 1]);
    }
  }

  lemma AppendedInOrder(s: Log, a: LogStep)
    requires CanAppend(s, a) && s.kept == Kept(s.log) && (s.waiting != multiset{} ==> HeadFull(s.kept))
    ensures var v := Appended(s, a); v.kept == Kept(v.log) && (v.waiting != multiset{} ==> HeadFull(v.kept))
  {
    hide Kept; hide ToTail;
    if a.AtTail? {
      KeptByTail(s.log, a.line);
      TailLeavesHead(s.kept, a.line);
    } else if !HeadFull(s.kept) {
      KeptByHead(s.log, a.line);
    }
  }

  lemma AppendedOnce(s: Log, a: LogStep)
    requires CanAppend(s, a)
    ensures var v := Appended(s, a);
      multiset(v.log) + v.waiting ==
      multiset(s.log) + s.waiting + if a.AtHead? then multiset{a.line} else multiset{}
  {
    hide ToTail; hide HeadFull;
  }

  lemma NothingKept()
    ensures Kept([]) == Buffers([], [], 0)
  {
  }

  lemma TailLeavesHead(b: Buffers, line: string)
    ensures ToTail(b, line).head == b.head
  {
  }

  class ManagedJob {
    const id: Id
    var status: Status
    var error: Option<string>
    var head: seq<string>
    var tail: seq<string>
    var dropped: nat
    ghost var log: seq<string>

    ghost predicate Valid()
      reads this
    {
      Buffers(head, tail, dropped) == Kept(log)
    }

    constructor (id: Id)
      ensures Valid() && log == [] && this.id == id && status == Running && error == None
    {
      this.id, status, error := id, Running, None;
      head, tail, dropped, log := [], [], 0, [];
    }

    // The section under the head's lock.
    method TryHead(line: string) returns (arrived: bool)
      requires Valid()
      modifies `head, `log
      ensures Valid() && arrived == !HeadFull(Kept(old(log)))
      ensures log == if arrived then old(log) + [line] else old(log)
    {
      arrived := |head| < LOG_HEAD_CAP;
      if arrived {
        KeptByHead(log, line);
        head, log := head + [line], log + [line];
      }
    }

    // The section under the tail's lock: whatever has happened since, the head is still full.
    method PushTail(line: string)
      requires Valid() && HeadFull(Kept(log))
      modifies `tail, `dropped, `log
      ensures Valid() && log == old(log) + [line]
    {
      KeptByTail(log, line);
      log := log + [line];
      if |tail| < LOG_TAIL_CAP {
        tail := tail + [line];
      } else {
        tail := tail[1..];
        tail := tail + [line];
        dropped := dropped + 1;
      }
    }

    /** Append one line; the buffers stay what the unbounded log says they are. */
    method AppendLog(line: string)
      requires Valid()
      modifies `head, `tail, `dropped, `log
      ensures Valid() && log == old(log) + [line]
    {
      var arrived := TryHead(line);
      if !arrived {
        PushTail(line);
      }
    }
  }

  // ----- the books ----------------------------------------------------------

  datatype Books = Books(jobs: set<Id>, order: seq<Id>, active: Option<Id>)

  function Last8(s: seq<Id>): seq<Id> {
    if |s| <= RETAINED_FINISHED_JOBS then s else s[|s| - RETAINED_FINISHED_JOBS..]
  }

  function Elements(s: seq<Id>): set<Id> { set x | x in s }

  predicate Unique(s: seq<Id>) { forall i, j :: 0 <= i < j < |s| ==> s[i] != s[j] }

  // The map holds the kept finished jobs and the active one, each of them once.
  predicate Balanced(b: Books) {
    && Unique(b.order) && |b.order| <= RETAINED_FINISHED_JOBS
    && (b.active.Some? ==> b.active.value !in b.order)
    && b.jobs == Elements(b.order) + if b.active.Some? then {b.active.value} else {}
  }

  function Submitted(b: Books, id: Id): Books {
    if b.active.Some? then b else b.(jobs := b.jobs + {id}, active := Some(id))
  }

  function Finished(b: Books, id: Id): Books {
    var all := b.order + [id];
    var out := all[..|all| - |Last8(all)|];
    Books(b.jobs - Elements(out), Last8(all), None)
  }

  // At most one job is evicted: the oldest, when there are eight already.
  lemma FinishUnfolds(b: Books, id: Id)
    requires |b.order| <= RETAINED_FINISHED_JOBS
    ensures var full := |b.order| == RETAINED_FINISHED_JOBS;
      Finished(b, id) == Books(if full then b.jobs - {b.order[0]} else b.jobs,
                               if full then b.order[1..] + [id] else b.order + [id], None)
  {
    var all := b.order + [id];
    if |b.order| == RETAINED_FINISHED_JOBS {
      assert all[..1] == [b.order[0]] && all[1..] == b.order[1..] + [id];
      assert Elements([b.order[0]]) == {b.order[0]};
    } else {
      assert all[..0] == [] && b.jobs - Elements([]) == b.jobs;
    }
  }

  lemma ActiveFinish(b: Books, id: Id)
    requires Balanced(b) && b.active == Some(id)
    ensures Balanced(Finished(b, id))
  {
    FinishUnfolds(b, id);
    hide Finished;
    var f := Finished(b, id);
    assert Unique(f.order);
    if |b.order| == RETAINED_FINISHED_JOBS {
      assert b.order == [b.order[0]] + b.order[1..];
      assert forall x :: x in f.order <==> x in b.order[1..] || x == id;
      assert b.order[0] !in b.order[1..];
    }
    assert f.jobs == Elements(f.order);
  }

  /**
   `finish` keeps the books exactly if it is called for the active job; a second finish, or a
   foreign one, breaks them.
   */
  lemma FinishBalancesExactly(b: Books, id: Id)
    requires Balanced(b)
    ensures Balanced(Finished(b, id)) <==> b.active == Some(id)
  {
    FinishUnfolds(b, id);
    var f := Finished(b, id);
    assert f.order[|f.order| - 1] == id;
    if b.active == Some(id) {
      ActiveFinish(b, id);
    } else if id in b.order {
      SecondFinish(b, id);
    } else if b.active.Some? {
      var a := b.active.value;
      assert a in f.jobs && a !in f.order;
    } else {
      assert id !in f.jobs && id in f.order;
    }
    hide Finished;
  }

  lemma SecondFinish(b: Books, id: Id)
    requires Balanced(b) && id in b.order
    ensures !Balanced(Finished(b, id))
  {
    FinishUnfolds(b, id);
    hide Finished;
    var f := Finished(b, id);
    var i :| 0 <= i < |b.order| && b.order[i] == id;
    assert f.order[|f.order| - 1] == id;
    if |b.order| < RETAINED_FINISHED_JOBS {
      assert f.order[i] == id;
    } else if i > 0 {
      assert f.order[i - 1] == id;
    } else {
      assert id !in f.jobs && id in f.order;
    }
  }

  // ----- the manager --------------------------------------------------------

  datatype Submission = Accepted(job: ManagedJob) | AlreadyRunning(id: Id)

  class JobManager {
    var jobs: map<Id, ManagedJob>
    var finishedOrder: seq<Id>
    var active: Option<Id>

    function Now(): Books
      reads this
    {
      Books(jobs.Keys, finishedOrder, active)
    }

    predicate Named()
      reads this
    {
      forall id :: id in jobs ==> jobs[id].id == id
    }

    constructor ()
      ensures Now() == Books({}, [], None) && Named()
    {
      jobs, finishedOrder, active := map[], [], None;
    }

    /** Take the one active slot, or say who holds it. */
    method Submit(id: Id) returns (r: Submission)
      requires Named()
      modifies this
      ensures Named() && Now() == Submitted(old(Now()), id)
      ensures if old(active).Some? then r == AlreadyRunning(old(active).value)
              else r.Accepted? && fresh(r.job) && r.job.id == id && r.job.Valid() && r.job.log == []
                   && jobs == old(jobs)[id := r.job]
    {
      var job := new ManagedJob(id);
      if active.Some? {
        return AlreadyRunning(active.value);
      }
      active := Some(id);
      jobs := jobs[id := job];
      r := Accepted(job);
    }

    /** End a job: its record is final, the slot is free, and all but the eight newest finished jobs are forgotten. */
    method Finish(job: ManagedJob, status: Status, error: Option<string>)
      requires Named() && |finishedOrder| <= RETAINED_FINISHED_JOBS
      modifies this, job`status, job`error
      ensures Named() && |finishedOrder| <= RETAINED_FINISHED_JOBS
      ensures job.status == status && job.error == error
      ensures Now() == Finished(old(Now()), job.id)
      ensures forall id :: id in jobs ==> id in old(jobs) && jobs[id] == old(jobs)[id]
    {
      job.status, job.error := status, error;
      active := None;
      finishedOrder := finishedOrder + [job.id];
      ghost var all := finishedOrder;
      var n := 0;
      assert old(jobs).Keys - Elements(all[..0]) == old(jobs).Keys;
      while |finishedOrder| > RETAINED_FINISHED_JOBS
        invariant n <= |all| && finishedOrder == all[n..] && active == None
        invariant n > 0 ==> |finishedOrder| >= RETAINED_FINISHED_JOBS
        invariant jobs.Keys == old(jobs).Keys - Elements(all[..n])
        invariant forall id :: id in jobs ==> id in old(jobs) && jobs[id] == old(jobs)[id]
        decreases |finishedOrder|
        modifies this
      {
        var evict := finishedOrder[0];
        assert all[..n + 1] == all[..n] + [evict];
        finishedOrder := finishedOrder[1..];
        jobs := jobs - {evict};
        n := n + 1;
      }
      assert finishedOrder == Last8(all);
    }
  }

  // ----- runs ---------------------------------------------------------------

  // The sections of `submit` and `finish`, each under its own lock: take the slot, enter the
  // map; free the slot, file the job among the finished ones.
  datatype Section = Take(id: Id) | Enter(id: Id) | Free(id: Id) | File(id: Id)

  // The books, the jobs between two sections, every id `submit` accepted, and every id filed in order.
  datatype Desk = Desk(books: Books, entering: set<Id>, leaving: set<Id>, accepted: set<Id>, filed: seq<Id>)

  // Ids are fresh; a job is finished once, by someone who was handed it.
  predicate Proper(d: Desk, c: Section) {
    match c
    case Take(id) => id !in d.accepted
    case Enter(id) => id in d.entering
    case Free(id) => id in d.accepted && id !in d.entering && id !in d.leaving && id !in d.filed
    case File(id) => id in d.leaving
  }

  function Filed(b: Books, id: Id): Books { Finished(b, id).(active := b.active) }

  function Step(d: Desk, c: Section): Desk {
    match c
    case Take(id) =>
      if d.books.active.Some? then d
      else d.(books := d.books.(active := Some(id)), entering := d.entering + {id}, accepted := d.accepted + {id})
    case Enter(id) => d.(books := d.books.(jobs := d.books.jobs + {id}), entering := d.entering - {id})
    case Free(id) => d.(books := d.books.(active := None), leaving := d.leaving + {id})
    case File(id) => d.(books := Filed(d.books, id), leaving := d.leaving - {id}, filed := d.filed + [id])
  }

  /** A call of `submit` or `finish` with nobody in between is its sections one after the other. */
  lemma CallsAreSections(d: Desk, id: Id)
    ensures Proper(d, Take(id)) ==>
      var t := Step(d, Take(id));
      (if d.books.active.Some? then t else Step(t, Enter(id))).books == Submitted(d.books, id)
    ensures Proper(d, Free(id)) ==> Step(Step(d, Free(id)), File(id)).books == Finished(d.books, id)
  {
  }

  ghost predicate Run(ds: seq<Desk>, cs: seq<Section>) {
    && |ds| == |cs| + 1 && ds[0] == Desk(Books({}, [], None), {}, {}, {}, [])
    && forall i :: 0 <= i < |cs| ==> Proper(ds[i], cs[i]) && ds[i + 1] == Step(ds[i], cs[i])
  }

  function Slot(b: Books): set<Id> { if b.active.Some? then {b.active.value} else {} }

  // Every accepted job is in the slot, on its way out or filed, and is in just one of these
  // places; the map holds those that have entered, less the filed ones that were evicted.
  predicate InStep(d: Desk) {
    && d.books.order == Last8(d.filed) && Unique(d.filed)
    && d.accepted == Elements(d.filed) + d.leaving + Slot(d.books)
    && Elements(d.filed) !! d.leaving && Elements(d.filed) !! Slot(d.books) && d.leaving !! Slot(d.books)
    && d.entering <= Slot(d.books)
    && d.books.jobs == Elements(d.books.order) + d.leaving + (Slot(d.books) - d.entering)
  }

  lemma TakeInStep(d: Desk, id: Id)
    requires InStep(d) && id !in d.accepted
    ensures InStep(Step(d, Take(id)))
  {
    hide Last8; hide Elements; hide Unique;
  }

  lemma EnterInStep(d: Desk, id: Id)
    requires InStep(d) && id in d.entering
    ensures InStep(Step(d, Enter(id)))
  {
    hide Last8; hide Elements; hide Unique;
  }

  // Whoever is freed is in the slot: so nobody else is put out of it.
  lemma FreeInStep(d: Desk, id: Id)
    requires InStep(d) && Proper(d, Free(id))
    ensures InStep(Step(d, Free(id))) && d.books.active == Some(id)
  {
    assert id !in Elements(d.filed);
    hide Last8; hide Elements; hide Unique;
  }

  lemma FileInStep(d: Desk, id: Id)
    requires InStep(d) && id in d.leaving
    ensures InStep(Step(d, File(id)))
  {
    var s, v := d.filed, Step(d, File(id));
    assert id !in s by { assert id !in Elements(s); }
    Last8Append(s, id);
    assert Elements(s + [id]) == Elements(s) + {id};
    FinishUnfolds(d.books, id);
    hide Finished;
    if |s| >= RETAINED_FINISHED_JOBS {
      OldestLeaves(s, id);
      assert Last8(s)[0] in s;
    } else {
      assert Last8(s + [id]) == s + [id];
    }
  }

  lemma Last8Append(s: seq<Id>, id: Id)
    ensures Last8(Last8(s) + [id]) == Last8(s + [id]) && |Last8(s)| <= RETAINED_FINISHED_JOBS
  {
  }

  // The eight newest lose their oldest, which is none of the others.
  lemma OldestLeaves(s: seq<Id>, id: Id)
    requires |s| >= RETAINED_FINISHED_JOBS && Unique(s) && id !in s
    ensures var kept := Last8(s);
      && |kept| == RETAINED_FINISHED_JOBS && Last8(s + [id]) == kept[1..] + [id]
      && Elements(kept) - {kept[0]} + {id} == Elements(kept[1..] + [id])
  {
    var kept := Last8(s);
    assert forall i :: 0 <= i < |kept| ==> kept[i] == s[|s| - RETAINED_FINISHED_JOBS + i];
    assert kept == [kept[0]] + kept[1..];
    assert kept[0] !in kept[1..];
    forall x ensures x in Elements(kept) - {kept[0]} + {id} <==> x in Elements(kept[1..] + [id]) {
      assert x in kept <==> x == kept[0] || x in kept[1..];
    }
  }

  /**
   However the calls overlap, if every accepted job is finished once: each accepted job is
   in the slot, on its way out or finished; and whenever no call is between two sections,
   the map holds exactly the job in the slot and the eight that were filed last.
   */
  lemma {:induction false} MapIsActivePlusLastEight(ds: seq<Desk>, cs: seq<Section>, i: nat)
    requires Run(ds, cs) && i <= |cs|
    ensures InStep(ds[i])
    ensures ds[i].entering == {} && ds[i].leaving == {} ==>
      && ds[i].books.jobs == Elements(Last8(ds[i].filed)) + Slot(ds[i].books)
      && |Last8(ds[i].filed)| <= 8 && Elements(Last8(ds[i].filed)) <= Elements(ds[i].filed)
      && (|ds[i].filed| > 8 ==> ds[i].filed[|ds[i].filed| - 8..] == Last8(ds[i].filed))
      && ds[i].accepted == Elements(ds[i].filed) + Slot(ds[i].books)
  {
    hide Last8;
    if i == 0 {
      assert Last8([]) == [] by { NoneFiled(); }
    } else {
      MapIsActivePlusLastEight(ds, cs, i - 1);
      hide InStep;
      match cs[i - 1] {
        case Take(id) => TakeInStep(ds[i - 1], id);
        case Enter(id) => EnterInStep(ds[i - 1], id);
        case Free(id) => FreeInStep(ds[i - 1], id);
        case File(id) => FileInStep(ds[i - 1], id);
      }
      if ds[i].entering == {} && ds[i].leaving == {} { InStepAtRest(ds[i]); }
    }
  }

  lemma NoneFiled()
    ensures Last8([]) == []
  {
  }

  lemma InStepAtRest(d: Desk)
    requires InStep(d) && d.entering == {} && d.leaving == {}
    ensures d.books.jobs == Elements(Last8(d.filed)) + Slot(d.books)
    ensures |Last8(d.filed)| <= 8 && Elements(Last8(d.filed)) <= Elements(d.filed)
    ensures |d.filed| > 8 ==> d.filed[|d.filed| - 8..] == Last8(d.filed)
    ensures d.accepted == Elements(d.filed) + Slot(d.books)
  {
  }
}
