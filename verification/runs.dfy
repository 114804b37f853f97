/**
 Sequences of events: what the widget's state is after any run, how the
 history relates to the prizes published along the run, and how the spin
 counter relates to the spins started and finished.
 */
module SpinRuns {
  import opened Options
  import opened Catalog
  import opened SpinMachine

  /** The state after the events `es`, in order, starting from `s`. */
  function Run(s: State, es: seq<Event>): State
    decreases |es|
  {
    if |es| == 0 then s else Run(Step(s, es[0]), es[1..])
  }

  /** The prize that event `e` publishes from state `s`, if it publishes one. */
  function PublishedBy(s: State, e: Event): seq<Prize>
  {
    if e.Publish? && s.stage.Reel2Locked? then [s.stage.final] else []
  }

  /** The prizes published along the run, oldest first. */
  function Published(s: State, es: seq<Event>): seq<Prize>
    decreases |es|
  {
    if |es| == 0 then [] else PublishedBy(s, es[0]) + Published(Step(s, es[0]), es[1..])
  }

  function Reverse<T>(xs: seq<T>): (r: seq<T>)
    ensures |r| == |xs|
    ensures forall i :: 0 <= i < |xs| ==> r[i] == xs[|xs| - 1 - i]
  {
    if |xs| == 0 then [] else Reverse(xs[1..]) + [xs[0]]
  }

  /** The prizes of a history, in its order. */
  function PrizesOf(h: seq<HistoryEntry>): (r: seq<Prize>)
    ensures |r| == |h|
    ensures forall i :: 0 <= i < |h| ==> r[i] == h[i].prize
  {
    if |h| == 0 then [] else [h[0].prize] + PrizesOf(h[1..])
  }

  function Count(b: bool): nat
  {
    if b then 1 else 0
  }

  /** Every run preserves the invariant. */
  lemma {:induction false} RunPreservesInv(s: State, es: seq<Event>)
    requires Inv(s)
    ensures Inv(Run(s, es))
    decreases |es|
  {
    if |es| > 0 {
      StepPreservesInv(s, es[0]);
      RunPreservesInv(Step(s, es[0]), es[1..]);
    }
  }

  /** Keeping the most recent entries of a list whose tail was already cut changes nothing. */
  lemma RecentOfRecent<T>(a: seq<T>, b: seq<T>)
    ensures Recent(a + Recent(b)) == Recent(a + b)
  {
  }

  /** Pushing an entry pushes its prize onto the history's prizes. */
  lemma PrizesOfPush(h: seq<HistoryEntry>, e: HistoryEntry)
    ensures PrizesOf(PushHistory(h, e)) == Recent([e.prize] + PrizesOf(h))
  {
  }

  /** The history's prizes after one event, by how that event affects the history. */
  lemma StepHistoryPrizes(s: State, e: Event)
    requires |s.history| <= HistoryLimit
    ensures |Step(s, e).history| <= HistoryLimit
    ensures PrizesOf(Step(s, e).history) == Recent(PublishedBy(s, e) + PrizesOf(s.history))
  {
    if e.Publish? && s.stage.Reel2Locked? {
      PrizesOfPush(s.history, HistoryEntry(s.stage.final, e.timestamp, e.id));
    } else {
      assert Step(s, e).history == s.history;
    }
  }

  /** Reversing a list prefixed by at most one element moves that element to the end. */
  lemma ReverseAppend<T>(a: seq<T>, xs: seq<T>)
    requires |a| <= 1
    ensures Reverse(a + xs) == Reverse(xs) + a
  {
    if |a| == 1 {
      assert (a + xs)[1..] == xs;
    } else {
      assert a + xs == xs;
    }
  }

  /** The list identity behind one step of the history induction. */
  lemma RecentStep<T>(now: seq<T>, rest: seq<T>, before: seq<T>)
    requires |now| <= 1
    ensures Recent(Reverse(rest) + Recent(now + before)) == Recent(Reverse(now + rest) + before)
  {
    RecentOfRecent(Reverse(rest), now + before);
    ReverseAppend(now, rest);
    assert Reverse(rest) + (now + before) == Reverse(rest) + now + before;
  }

  /**
   After any run, the history's prizes are the prizes published along the
   run, most recent first, followed by the prizes already in the history,
   cut to the limit of 10.
   */
  lemma {:induction false} HistoryKeepsRecentPublished(s: State, es: seq<Event>)
    requires |s.history| <= HistoryLimit
    ensures PrizesOf(Run(s, es).history) == Recent(Reverse(Published(s, es)) + PrizesOf(s.history))
    decreases |es|
  {
    if |es| == 0 {
      assert Recent(PrizesOf(s.history)) == PrizesOf(s.history);
    } else {
      var s' := Step(s, es[0]);
      var now := PublishedBy(s, es[0]);
      var rest := Published(s', es[1..]);
      var before := PrizesOf(s.history);
      assert Run(s, es) == Run(s', es[1..]);
      assert Published(s, es) == now + rest;
      StepHistoryPrizes(s, es[0]);
      HistoryKeepsRecentPublished(s', es[1..]);
      RecentStep(now, rest, before);
    }
  }

  /**
   From the initial state, the history holds the last `min(10, n)` of the `n`
   prizes published so far, most recent first.
   */
  lemma HistoryFromStart(es: seq<Event>)
    ensures var n := |Published(Init(), es)|;
      && |Run(Init(), es).history| == Min(HistoryLimit, n)
      && forall i :: 0 <= i < |Run(Init(), es).history| ==>
           Run(Init(), es).history[i].prize == Published(Init(), es)[n - 1 - i]
  {
    HistoryKeepsRecentPublished(Init(), es);
    assert PrizesOf(Init().history) == [];
    assert Reverse(Published(Init(), es)) + [] == Reverse(Published(Init(), es));
  }

  /**
   The counter counts spins started: after any run, the counter plus one if
   the run began mid-spin equals the starting counter plus the spins
   published plus one if the run ends mid-spin.
   */
  lemma {:induction false} SpinCountBalance(s: State, es: seq<Event>)
    requires Inv(s)
    ensures Run(s, es).spinCount + Count(s.spinning)
         == s.spinCount + |Published(s, es)| + Count(Run(s, es).spinning)
    decreases |es|
  {
    if |es| > 0 {
      StepPreservesInv(s, es[0]);
      SpinCountBalance(Step(s, es[0]), es[1..]);
    }
  }

  /** The counter never decreases along a run. */
  lemma {:induction false} SpinCountMonotone(s: State, es: seq<Event>)
    ensures s.spinCount <= Run(s, es).spinCount
    decreases |es|
  {
    if |es| > 0 {
      SpinCountMonotone(Step(s, es[0]), es[1..]);
    }
  }

  /**
   From the initial state the counter equals the spins published plus one
   while a spin is running.
   */
  lemma SpinCountFromStart(es: seq<Event>)
    ensures Run(Init(), es).spinCount == |Published(Init(), es)| + Count(Run(Init(), es).spinning)
  {
    SpinCountBalance(Init(), es);
  }

  /** The state after the events `es` with the refresh tick as the source schedules it. */
  function RunAsWritten(s: State, es: seq<Event>): State
    decreases |es|
  {
    if |es| == 0 then s else RunAsWritten(StepAsWritten(s, es[0]), es[1..])
  }

  /** The stage has locked some reels but not all of them. */
  predicate PartlyLocked(s: State)
  {
    s.stage.Reel0Locked? || s.stage.Reel1Locked?
  }

  /**
   Runs of the as-written and of the corrected step, from reachable states that differ
   at most in the reels, differ at most in the reels, and only while some but
   not all reels are locked: every lock of reel 0 and of reel 2 rewrites all
   three reels alike.
   */
  lemma {:induction false} RunAsWrittenAgrees(s: State, t: State, es: seq<Event>)
    requires Inv(s)
    requires t.(displayPrizes := s.displayPrizes) == s
    requires !PartlyLocked(s) ==> t == s
    ensures RunAsWritten(t, es) == Run(s, es).(displayPrizes := RunAsWritten(t, es).displayPrizes)
    ensures !PartlyLocked(Run(s, es)) ==> RunAsWritten(t, es) == Run(s, es)
    decreases |es|
  {
    if |es| > 0 {
      var e := es[0];
      var s', t' := Step(s, e), StepAsWritten(t, e);
      assert t' == Step(t, e).(displayPrizes := t'.displayPrizes);
      assert Step(t, e).(displayPrizes := s'.displayPrizes) == s';
      if !PartlyLocked(s') {
        if PartlyLocked(s) {
          assert e.Lock2? && s.stage.Reel1Locked?;
        } else {
          assert t == s;
        }
        assert t' == s';
      }
      RunAsWrittenAgrees(s', t', es[1..]);
    }
  }

  /**
   The program as written keeps the history and the counter exactly as the
   corrected one does: from mount, with `n` prizes published, the history
   holds the last `min(10, n)` of them, most recent first, and the counter
   equals `n` plus one while a spin is running. Once reel 2 has locked or the
   spin is over, the reels agree too.
   */
  lemma AsWrittenHistoryAndCount(es: seq<Event>)
    ensures var w := RunAsWritten(Init(), es);
      var n := |Published(Init(), es)|;
      && |w.history| == Min(HistoryLimit, n)
      && (forall i :: 0 <= i < |w.history| ==> w.history[i].prize == Published(Init(), es)[n - 1 - i])
      && w.spinCount == n + Count(w.spinning)
      && w.result == Run(Init(), es).result
      && (!PartlyLocked(w) ==> w.displayPrizes == Run(Init(), es).displayPrizes)
  {
    RunAsWrittenAgrees(Init(), Init(), es);
    HistoryFromStart(es);
    SpinCountFromStart(es);
  }
}
