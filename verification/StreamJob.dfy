/** The job stream of the daemon's API: the replayed snapshot, then the live events of the one job. */
module StreamJob {
  import opened Wrappers
  import opened Jobs
  import opened JobEvents
  import opened JobAnswers

  // The events at which the stream closes: a cancelled job's is not among them.
  predicate Ending(e: Event) { e.status.Succeeded? || e.status.Failed? }

  // The events up to and including the first at which the stream closes.
  function UpToEnding(es: seq<Event>): seq<Event> {
    if es == [] then []
    else if Ending(es[0]) then [es[0]]
    else [es[0]] + UpToEnding(es[1..])
  }

  predicate ReplayEnds(history: seq<Event>) { history != [] && Ending(history[|history| - 1]) }

  // All that is delivered once the receiver has been handed `live`, and whether the stream has closed.
  function Delivered(history: seq<Event>, live: seq<Event>): seq<Event> {
    if ReplayEnds(history) then history else history + UpToEnding(live)
  }

  predicate HasEnding(es: seq<Event>) { exists e :: e in es && Ending(e) }

  predicate StreamCloses(history: seq<Event>, live: seq<Event>) { ReplayEnds(history) || HasEnding(live) }

  lemma {:induction false} NoEndingYet(es: seq<Event>, more: seq<Event>)
    requires !HasEnding(es)
    ensures UpToEnding(es + more) == es + UpToEnding(more)
  {
    hide Ending;
    if es == [] {
      assert es + more == more;
    } else {
      assert es[0] in es;
      assert forall e :: e in es[1..] ==> e in es;
      NoEndingYet(es[1..], more);
      hide HasEnding;
      assert (es + more)[1..] == es[1..] + more;
    }
  }

  /** The stream of one subscriber, given its snapshot and everything the channel has carried since. */
  method Stream(id: Id, history: seq<Event>, broadcast: seq<Event>) returns (out: seq<Event>, closed: bool)
    ensures out == Delivered(history, Of(broadcast, id))
    ensures closed <==> StreamCloses(history, Of(broadcast, id))
    ensures closed <==>
      || (history != [] && (history[|history| - 1].status == Succeeded || history[|history| - 1].status == Failed))
      || exists e :: e in Of(broadcast, id) && (e.status == Succeeded || e.status == Failed)
  {
    hide UpToEnding; hide Of;
    out, closed := [], false;
    for n := 0 to |history|
      invariant out == history[..n] && closed == ReplayEnds(history[..n])
    {
      out, closed := out + [history[n]], Ending(history[n]);
    }
    assert history[..|history|] == history;
    if !closed {
      var n := 0;
      NothingHeard(id);
      assert broadcast[..0] == [] && history + [] == history;
      while n < |broadcast|
        invariant 0 <= n <= |broadcast|
        invariant !HasEnding(Of(broadcast[..n], id)) && out == history + Of(broadcast[..n], id)
      {
        var e := broadcast[n];
        SplitAt(broadcast, n, id);
        if e.id == id {
          out := out + [e];
          if Ending(e) {
            NoEndingYet(Of(broadcast[..n], id), [e] + Of(broadcast[n + 1..], id));
            EndsHere(e, Of(broadcast[n + 1..], id));
            assert e in Of(broadcast, id);
            return out, true;
          }
        }
        n := n + 1;
      }
      assert broadcast[..n] == broadcast;
      NoEndingYet(Of(broadcast, id), []);
      assert Of(broadcast, id) + [] == Of(broadcast, id);
    }
  }

  lemma NothingHeard(id: Id)
    ensures Of([], id) == [] && UpToEnding([]) == []
  {
  }

  lemma EndsHere(e: Event, rest: seq<Event>)
    requires Ending(e)
    ensures UpToEnding([e] + rest) == [e]
  {
  }

  lemma SplitAt(s: seq<Event>, n: nat, id: Id)
    requires n < |s|
    ensures var here := if s[n].id == id then [s[n]] else [];
      && Of(s[..n + 1], id) == Of(s[..n], id) + here
      && Of(s, id) == Of(s[..n], id) + (here + Of(s[n + 1..], id))
  {
    assert s[..n + 1] == s[..n] + [s[n]];
    OfAppend(s[..n], s[n], id);
    assert s == s[..n + 1] + s[n + 1..];
    OfConcat(s[..n + 1], s[n + 1..], id);
  }

  // ----- over a run ---------------------------------------------------------

  lemma EndsWithItsLast(live: seq<Event>)
    requires live != [] && forall e :: e in live[..|live| - 1] ==> !Ending(e)
    ensures UpToEnding(live) == live && (HasEnding(live) <==> Ending(live[|live| - 1]))
  {
    hide UpToEnding; hide Ending; hide HasEnding;
    var init, last := live[..|live| - 1], live[|live| - 1];
    NoneAmong(init, last);
    NoEndingYet(init, [last]);
    OneEvent(last);
    assert live == init + [last];
  }

  lemma NoneAmong(init: seq<Event>, last: Event)
    requires forall e :: e in init ==> !Ending(e)
    ensures !HasEnding(init) && (HasEnding(init + [last]) <==> Ending(last))
  {
    hide Ending;
    assert last in init + [last] && forall e :: e in init + [last] ==> e in init || e == last;
  }

  lemma OneEvent(e: Event)
    ensures UpToEnding([e]) == [e]
  {
    assert [e][1..] == [];
  }

  // Only the newest of the events may close a job.
  predicate ClosedLast(es: seq<Event>) { forall x :: 0 <= x < |es| - 1 ==> !Closed(es[x]) }

  lemma LiveEndsLast(history: seq<Event>, live: seq<Event>)
    requires ClosedLast(history + live) && live != []
    ensures forall e :: e in live[..|live| - 1] ==> !Ending(e)
    ensures !ReplayEnds(history)
  {
    var all := history + live;
    if history != [] { assert all[|history| - 1] == history[|history| - 1]; }
    forall e | e in live[..|live| - 1] ensures !Ending(e) {
      var x :| 0 <= x < |live| - 1 && live[x] == e;
      assert all[|history| + x] == e;
    }
  }

  lemma NothingAfterTheEnding(history: seq<Event>, live: seq<Event>)
    requires ClosedLast(history + live)
    ensures Delivered(history, live) == history + live
    ensures StreamCloses(history, live) <==> ReplayEnds(history + live)
  {
    hide UpToEnding; hide HasEnding; hide ClosedLast; hide Ending;
    if live == [] {
      assert history + live == history;
      NothingLive();
    } else {
      LiveEndsLast(history, live);
      EndsWithItsLast(live);
      assert (history + live)[|history + live| - 1] == live[|live| - 1];
    }
  }

  lemma NothingLive()
    ensures UpToEnding([]) == [] && !HasEnding([])
  {
  }

  lemma TailClosesLast(es: seq<Event>, n: nat)
    requires ClosedLast(es) && n <= |es|
    ensures ClosedLast(es[n..])
  {
    forall x | 0 <= x < |es[n..]| - 1 ensures !Closed(es[n..][x]) {
      assert es[n..][x] == es[n + x];
    }
  }

  /**
   What a subscriber of step `i` has been delivered by step `j`: every event of the job
   from the first one its snapshot has, to the newest; and its stream has closed
   exactly if the newest of these says succeeded or failed. A cancelled job leaves it open.
   */
  lemma DeliveredExactly(rs: seq<Registry>, acts: seq<Act>, i: nat, j: nat, k: Id)
    requires Run(rs, acts) && New(rs[0]) && i <= j <= |acts|
    ensures rs[i].sent <= rs[j].sent && Cut(rs, acts, i, k) <= |Of(rs[i].sent, k)| <= |Of(rs[j].sent, k)|
    ensures var all, history, live := Of(rs[j].sent, k), Ring(rs[i].history, k), Live(rs, i, j, k);
      var missed := Missed(|Of(rs[i].sent, k)|, Cut(rs, acts, i, k));
      && Delivered(history, live) == all[missed..]
      && (StreamCloses(history, live) <==>
            missed < |all| && (all[|all| - 1].status == Succeeded || all[|all| - 1].status == Failed))
  {
    hide Do; hide Enabled; hide Of; hide New; hide Ring; hide Cut; hide Live; hide Delivered; hide StreamCloses;
    hide ClosedLast;
    StreamPartition(rs, acts, i, j, k);
    var all, history, live := Of(rs[j].sent, k), Ring(rs[i].history, k), Live(rs, i, j, k);
    var missed := Missed(|Of(rs[i].sent, k)|, Cut(rs, acts, i, k));
    ClosesLast(rs, acts, j, k);
    TailClosesLast(all, missed);
    NothingAfterTheEnding(history, live);
    assert history + live == all[missed..];
    assert missed < |all| ==> all[missed..][|all| - missed - 1] == all[|all| - 1];
  }

  lemma ClosesLast(rs: seq<Registry>, acts: seq<Act>, j: nat, k: Id)
    requires Run(rs, acts) && New(rs[0]) && j <= |acts|
    ensures ClosedLast(Of(rs[j].sent, k))
  {
    RunsAreSound(rs, acts, j, k);
    hide Do; hide Enabled; hide Of; hide New;
  }

  /**
   A subscriber is delivered every event the job ever sends, early or late, exactly if no
   prune dropped the ring after an event was sent, and it asked before the 513th.
   */
  lemma NothingMissedExactly(rs: seq<Registry>, acts: seq<Act>, i: nat, j: nat, k: Id)
    requires Run(rs, acts) && New(rs[0]) && i <= j <= |acts|
    ensures rs[i].sent <= rs[j].sent
    ensures Delivered(Ring(rs[i].history, k), Live(rs, i, j, k)) == Of(rs[j].sent, k) <==>
            Cut(rs, acts, i, k) == 0 && |Of(rs[i].sent, k)| <= 512
  {
    hide Do; hide Enabled; hide Of; hide Ring; hide Cut; hide Live; hide Delivered; hide StreamCloses; hide Missed;
    hide Newest; hide New;
    DeliveredExactly(rs, acts, i, j, k);
    MissedNothing(Of(rs[j].sent, k), |Of(rs[i].sent, k)|, Cut(rs, acts, i, k));
  }

  lemma MissedNothing(all: seq<Event>, before: nat, cut: nat)
    requires cut <= before <= |all|
    ensures Missed(before, cut) <= |all|
    ensures all[Missed(before, cut)..] == all <==> cut == 0 && before <= HISTORY_CAPACITY
  {
    assert |all[Missed(before, cut)..]| == |all| - Missed(before, cut);
    assert all[0..] == all;
  }

  /**
   With starts that do not overlap: whoever subscribes to a job while it is on record
   and has sent at most 512 events is delivered every event it ever sends, early or
   late; and once the job has succeeded or failed, its stream has closed on that event.
   */
  lemma EarlyOrLateTheSame(rs: seq<Registry>, acts: seq<Act>, i: nat, j: nat, k: Id)
    requires RunOfLoneStarts(rs, acts) && New(rs[0]) && i <= j <= |acts|
    requires k in rs[i].jobs && |Of(rs[i].sent, k)| <= 512
    ensures rs[i].sent <= rs[j].sent
    ensures var all, history, live := Of(rs[j].sent, k), Ring(rs[i].history, k), Live(rs, i, j, k);
      && Delivered(history, live) == all && all != []
      && (StreamCloses(history, live) <==> all[|all| - 1].status == Succeeded || all[|all| - 1].status == Failed)
      && (k in rs[j].jobs ==> all[|all| - 1] == ToEvent(k, rs[j].jobs[k]))
      && (forall x :: 0 <= x < |all| - 1 ==> all[x].status == Status.Running)
  {
    hide Do; hide Enabled; hide Of; hide New; hide Ring; hide Cut; hide Live; hide Delivered; hide StreamCloses;
    hide ClosedLast;
    DeliveredExactly(rs, acts, i, j, k);
    LoneStartsCutNothing(rs, acts, i, k);
    SentSplits(rs, acts, i, j, k);
    HeardFrom(rs, acts, i, k);
    HeardFrom(rs, acts, j, k);
    ClosesLast(rs, acts, j, k);
    var all := Of(rs[j].sent, k);
    assert all[0..] == all;
    OnlyLastEnds(all);
  }

  lemma OnlyLastEnds(es: seq<Event>)
    requires ClosedLast(es)
    ensures forall x :: 0 <= x < |es| - 1 ==> es[x].status == Status.Running
  {
  }

  // A job on record has been heard of, and the newest event is its state.
  lemma HeardFrom(rs: seq<Registry>, acts: seq<Act>, i: nat, k: Id)
    requires Run(rs, acts) && New(rs[0]) && i <= |acts|
    ensures var es := Of(rs[i].sent, k); k in rs[i].jobs ==> es != [] && es[|es| - 1] == ToEvent(k, rs[i].jobs[k])
  {
    RunsAreSound(rs, acts, i, k);
    hide Do; hide Enabled; hide Of; hide New; hide ToEvent;
  }

  // ----- after the end ------------------------------------------------------

  /**
   Who is told that a job is over, in every run: once its runner has ended it, the stream of
   every subscriber that was delivered anything has closed; once a client has cancelled it,
   none has, and none ever will.
   */
  lemma ClosesAfterTheEnd(rs: seq<Registry>, acts: seq<Act>, e: nat, i: nat, j: nat, k: Id)
    requires Run(rs, acts) && New(rs[0]) && e < j <= |acts| && i <= j
    requires k in rs[e].jobs && rs[e].jobs[k].status == Status.Running
    ensures rs[i].sent <= rs[j].sent
    ensures var history, live := Ring(rs[i].history, k), Live(rs, i, j, k);
      && (acts[e].Finish? && acts[e].outcome.id == k ==>
            (StreamCloses(history, live) <==> Delivered(history, live) != []))
      && (acts[e] == Cancel(k) ==> !StreamCloses(history, live))
  {
    hide Do; hide Enabled; hide Of; hide Ring; hide Cut; hide Live; hide Delivered; hide StreamCloses; hide New;
    DeliveredExactly(rs, acts, i, j, k);
    if acts[e] == Cancel(k) || (acts[e].Finish? && acts[e].outcome.id == k) {
      EndsAsItWasEnded(rs, acts, e, j, k);
    }
  }

  /** What is delivered of the live events, on any input: all up to the first that says succeeded or failed. */
  lemma {:induction false} DeliveredUpTo(history: seq<Event>, live: seq<Event>) returns (n: nat)
    ensures n <= |live| && Delivered(history, live) == history + live[..n]
    ensures history != [] && (history[|history| - 1].status == Succeeded || history[|history| - 1].status == Failed) ==>
      n == 0
    ensures history == [] || (history[|history| - 1].status != Succeeded && history[|history| - 1].status != Failed) ==>
      && (forall x :: 0 <= x < n - 1 ==> live[x].status == Status.Running || live[x].status == Cancelled)
      && (n < |live| ==> n > 0 && (live[n - 1].status == Succeeded || live[n - 1].status == Failed))
  {
    if ReplayEnds(history) {
      n := 0;
    } else {
      n := UpToFirst(live);
    }
  }

  lemma {:induction false} UpToFirst(es: seq<Event>) returns (n: nat)
    ensures n <= |es| && UpToEnding(es) == es[..n]
    ensures forall x :: 0 <= x < n - 1 ==> es[x].status == Status.Running || es[x].status == Cancelled
    ensures n < |es| ==> n > 0 && (es[n - 1].status == Succeeded || es[n - 1].status == Failed)
  {
    if es == [] {
      n := 0;
    } else if Ending(es[0]) {
      n := 1;
      assert es[..1] == [es[0]];
    } else {
      n := UpToFirst(es[1..]);
      assert es[..n + 1] == [es[0]] + es[1..][..n];
      assert forall x :: 0 < x < |es| ==> es[x] == es[1..][x - 1];
      n := n + 1;
    }
  }
}
