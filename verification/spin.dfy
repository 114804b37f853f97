/**
 The spin sequence of the slot machine as a state machine over discrete
 events. Timers are abstracted away: each continuation of the spin's timer
 chain, and each tick of the 80 ms reel refresh, is an event, and the random
 numbers the source draws are event parameters. `stage` records which
 continuation of the running spin comes next, together with the prize the
 spin drew when it started.
 */
module SpinMachine {
  import opened Options
  import opened Catalog
  import opened PrizeDraw

  /** The history keeps at most this many entries, most recent first. */
  const HistoryLimit: nat := 10

  function Min(a: nat, b: nat): nat
  {
    if a <= b then a else b
  }

  /** One history entry; `timestamp` and `id` are opaque clock readings. */
  datatype HistoryEntry = HistoryEntry(prize: Prize, timestamp: int, id: int)

  /** The position in a spin's continuation chain, carrying the drawn prize. */
  datatype Stage =
    | Idle                         // no spin running
    | Noise(final: Prize)          // reels refreshing, none locked
    | Reel0Locked(final: Prize)    // reel 0 shows the final prize
    | Reel1Locked(final: Prize)    // reels 0 and 1 show it
    | Reel2Locked(final: Prize)    // all reels show it; result not yet published

  datatype State = State(
    spinning: bool,
    result: Option<Prize>,
    showResult: bool,
    spinCount: nat,
    displayPrizes: seq<Prize>,
    history: seq<HistoryEntry>,
    confetti: nat,                 // number of confetti particles on screen
    stage: Stage
  )

  datatype Event =
    | RequestSpin(r: real)                       // button press; `r` is the draw's random number
    | NoiseTick(a: Prize, b: Prize, c: Prize)    // one tick of the reel refresh interval
    | Lock0(x: Prize, y: Prize)                  // after the noise window: lock reel 0
    | Lock1(z: Prize)                            // lock reel 1
    | Lock2                                      // lock reel 2 and stop the refresh
    | Publish(timestamp: int, id: int)           // publish the result
    | ConfettiExpire                             // the confetti's clearing timer fires

  /** The state of the widget once mounted: nothing spun, the initial reels shown. */
  function Init(): (s: State)
    ensures Inv(s)
    ensures !s.spinning && s.spinCount == 0 && s.history == [] && s.result.None?
    ensures s.displayPrizes == [Bonus58, Bonus168, Autograph]
  {
    State(false, None, false, 0, InitialReels(), [], 0, Idle)
  }

  /** The first `HistoryLimit` elements of `xs`. */
  function Recent<T>(xs: seq<T>): (r: seq<T>)
    ensures |r| == Min(HistoryLimit, |xs|)
    ensures forall i :: 0 <= i < |r| ==> r[i] == xs[i]
  {
    xs[..Min(HistoryLimit, |xs|)]
  }

  /** Records `e` as the most recent history entry, evicting the oldest beyond the limit. */
  function PushHistory(h: seq<HistoryEntry>, e: HistoryEntry): (r: seq<HistoryEntry>)
    ensures |r| == Min(HistoryLimit, |h| + 1) && |r| <= HistoryLimit
    ensures r[0] == e
    ensures r[1..] == h[..|r| - 1]
  {
    Recent([e] + h)
  }

  /** A refresh tick: locked reels keep the final prize, the others show noise. */
  function Tick(s: State, a: Prize, b: Prize, c: Prize): (t: State)
    ensures t.(displayPrizes := s.displayPrizes) == s
    ensures Inv(s) ==> Inv(t)
  {
    match s.stage
    case Noise(_) => s.(displayPrizes := [a, b, c])
    case Reel0Locked(f) => s.(displayPrizes := [f, b, c])
    case Reel1Locked(f) => s.(displayPrizes := [f, f, c])
    case _ => s
  }

  /**
   A refresh tick as the source schedules it: the interval is cleared only
   after reel 2 locks, and every tick before that rewrites all three reels.
   */
  function TickAsWritten(s: State, a: Prize, b: Prize, c: Prize): (t: State)
    ensures t.(displayPrizes := s.displayPrizes) == s
    ensures !s.stage.Idle? && !s.stage.Reel2Locked? ==> t.displayPrizes == [a, b, c]
    ensures s.stage.Idle? || s.stage.Reel2Locked? ==> t == s
  {
    match s.stage
    case Noise(_) => s.(displayPrizes := [a, b, c])
    case Reel0Locked(_) => s.(displayPrizes := [a, b, c])
    case Reel1Locked(_) => s.(displayPrizes := [a, b, c])
    case _ => s
  }

  /** A spin request: ignored while spinning, otherwise starts a spin with the drawn prize. */
  function RequestSpinStep(s: State, r: real): (t: State)
    ensures s.spinning ==> t == s
    ensures !s.spinning ==>
      && t.spinning && t.result.None? && !t.showResult
      && t.spinCount == s.spinCount + 1
      && t.stage == Noise(Band(r))
      && t.displayPrizes == s.displayPrizes && t.history == s.history && t.confetti == s.confetti
  {
    SelectPrizeBands(r);
    if s.spinning then s
    else s.(spinning := true, showResult := false, result := None,
            spinCount := s.spinCount + 1, stage := Noise(SelectPrize(r)))
  }

  /** The effect of one event; an event the spin chain cannot produce in the current stage changes nothing. */
  function Step(s: State, e: Event): (t: State)
    ensures Inv(s) ==> Inv(t)
    ensures t.spinCount == s.spinCount + (if e.RequestSpin? && !s.spinning then 1 else 0)
    ensures t.history != s.history ==> e.Publish? && s.stage.Reel2Locked?
    ensures t.result != s.result ==> e.RequestSpin? || e.Publish?
  {
    match e
    case RequestSpin(r) => RequestSpinStep(s, r)
    case NoiseTick(a, b, c) => Tick(s, a, b, c)
    case Lock0(x, y) =>
      if s.stage.Noise? then
        s.(displayPrizes := [s.stage.final, x, y], stage := Reel0Locked(s.stage.final))
      else s
    case Lock1(z) =>
      if s.stage.Reel0Locked? then
        var f := s.stage.final;
        s.(displayPrizes := [f, f, z], stage := Reel1Locked(f))
      else s
    case Lock2 =>
      if s.stage.Reel1Locked? then
        var f := s.stage.final;
        s.(displayPrizes := [f, f, f], stage := Reel2Locked(f))
      else s
    case Publish(t, id) =>
      if s.stage.Reel2Locked? then
        var f := s.stage.final;
        s.(result := Some(f), showResult := true, spinning := false,
           history := PushHistory(s.history, HistoryEntry(f, t, id)),
           confetti := ConfettiCount(f), stage := Idle)
      else s
    case ConfettiExpire => s.(confetti := 0)
  }

  /** The effect of one event with the refresh tick as the source schedules it. */
  function StepAsWritten(s: State, e: Event): (t: State)
    ensures t == Step(s, e).(displayPrizes := t.displayPrizes)
    ensures !e.NoiseTick? ==> t == Step(s, e)
  {
    if e.NoiseTick? then TickAsWritten(s, e.a, e.b, e.c) else Step(s, e)
  }

  /** The reels that the current stage has locked show the spin's final prize. */
  predicate LockedReelsShowFinal(s: State)
    requires |s.displayPrizes| == 3
  {
    match s.stage
    case Idle => s.result.Some? ==> s.displayPrizes == [s.result.value, s.result.value, s.result.value]
    case Noise(_) => true
    case Reel0Locked(f) => s.displayPrizes[0] == f
    case Reel1Locked(f) => s.displayPrizes[0] == f && s.displayPrizes[1] == f
    case Reel2Locked(f) => s.displayPrizes == [f, f, f]
  }

  /** What holds of every state the widget can reach. */
  predicate Inv(s: State)
  {
    && |s.displayPrizes| == 3
    && |s.history| <= HistoryLimit
    && (s.spinning <==> !s.stage.Idle?)
    && (s.showResult <==> s.result.Some?)
    && (s.spinning ==> s.result.None?)
    && LockedReelsShowFinal(s)
  }

  /** A spin request while spinning changes nothing; it never touches the counter. */
  lemma RejectedSpinChangesNothing(s: State, r: real)
    requires s.spinning
    ensures Step(s, RequestSpin(r)) == s
  {
  }

  /**
   An accepted spin request sets `spinning`, clears the result, adds exactly
   one to the counter at spin start, fixes the drawn prize, and leaves the
   reels, the history and the confetti as they were.
   */
  lemma AcceptedSpinStartsSpin(s: State, r: real)
    requires !s.spinning
    ensures var t := Step(s, RequestSpin(r));
      && t.spinning && t.result.None? && !t.showResult
      && t.spinCount == s.spinCount + 1
      && t.stage == Noise(SelectPrize(r))
      && t.displayPrizes == s.displayPrizes && t.history == s.history && t.confetti == s.confetti
  {
  }

  /**
   A refresh tick changes only the reels: locked reels keep the final prize,
   unlocked reels show the tick's noise, and once reel 2 has locked (or with
   no spin running) the tick does nothing.
   */
  lemma TickTouchesOnlyUnlockedReels(s: State, a: Prize, b: Prize, c: Prize)
    requires Inv(s)
    ensures var t := Step(s, NoiseTick(a, b, c));
      && t.(displayPrizes := s.displayPrizes) == s
      && |t.displayPrizes| == 3
      && (s.stage.Noise? ==> t.displayPrizes == [a, b, c])
      && (s.stage.Reel0Locked? ==> t.displayPrizes == [s.stage.final, b, c])
      && (s.stage.Reel1Locked? ==> t.displayPrizes == [s.stage.final, s.stage.final, c])
      && (s.stage.Reel0Locked? || s.stage.Reel1Locked? ==> t.displayPrizes[0] == s.displayPrizes[0])
      && (s.stage.Reel1Locked? ==> t.displayPrizes[1] == s.displayPrizes[1])
      && (s.stage.Idle? || s.stage.Reel2Locked? ==> t == s)
  {
  }

  /** Every event preserves the invariant. */
  lemma StepPreservesInv(s: State, e: Event)
    requires Inv(s)
    ensures Inv(Step(s, e))
  {
  }

  /**
   With the refresh as written, a tick after reel 0 has locked replaces the
   final prize on reel 0 with noise while the spin still counts reel 0 as
   locked, so the invariant breaks.
   */
  lemma AsWrittenTickUnlocksReel0()
    ensures var s := Step(Step(Init(), RequestSpin(0.5)), Lock0(Bonus168, Bonus168));
      var t := StepAsWritten(s, NoiseTick(Bonus666, Bonus666, Bonus666));
      && Inv(s)
      && s.displayPrizes[0] == Bonus58
      && t.stage == Reel0Locked(Bonus58)
      && t.displayPrizes[0] == Bonus666
      && !Inv(t)
  {
    SelectPrizeBands(0.5);
  }

  /**
   The as-written step differs from the corrected one only in the reels, and
   only on a refresh tick; locking reel 2 rewrites all three reels, so from
   there on both agree again.
   */
  lemma AsWrittenDiffersOnlyInReels(s: State, e: Event, d: seq<Prize>)
    ensures StepAsWritten(s, e) == Step(s, e).(displayPrizes := StepAsWritten(s, e).displayPrizes)
    ensures !e.NoiseTick? ==> StepAsWritten(s, e) == Step(s, e)
    ensures s.stage.Reel1Locked? ==> Step(s.(displayPrizes := d), Lock2) == Step(s, Lock2)
  {
  }

  /**
   One full spin from a state that is not spinning: reel 0 locks first, then
   reel 1, then reel 2, all on the prize drawn at spin start; publishing shows
   that prize as the result, records it at the head of the history and fires
   its confetti.
   */
  lemma FullSpinLocksLeftToRight(s: State, r: real, x: Prize, y: Prize, z: Prize, t: int, id: int)
    requires Inv(s) && !s.spinning
    ensures var f := SelectPrize(r);
      var s1 := Step(s, RequestSpin(r));
      var s2 := Step(s1, Lock0(x, y));
      var s3 := Step(s2, Lock1(z));
      var s4 := Step(s3, Lock2);
      var s5 := Step(s4, Publish(t, id));
      && s2.displayPrizes == [f, x, y]
      && s3.displayPrizes == [f, f, z]
      && s4.displayPrizes == [f, f, f]
      && s4.spinning && s4.result.None?
      && s5.result == Some(f) && s5.showResult && !s5.spinning
      && s5.displayPrizes == [f, f, f]
      && s5.spinCount == s.spinCount + 1
      && |s5.history| == Min(HistoryLimit, |s.history| + 1)
      && s5.history[0] == HistoryEntry(f, t, id)
      && s5.history[1..] == s.history[..|s5.history| - 1]
      && s5.confetti == ConfettiCount(f)
      && Inv(s5)
  {
  }
}
