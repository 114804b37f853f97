# Lucky-draw slot machine: prize draw and spin sequence

This project models the logic inside the `SlotMachine` widget of the lucky-draw slot machine. The widget spins three reels and reveals a prize drawn from a fixed four-entry catalog: 58獎金 with probability 0.80, 168獎金 with 0.10, 馬逼簽名 with 0.08 and 666獎金 with 0.02. It then keeps a rolling history of the last ten wins. The model covers:

- `options.dfy`, module `Options`: the optional value returned by a search.
- `catalog.dfy`, module `Catalog`:
  - the catalog (`Prizes`), with probabilities as exact `real`s;
  - the by-name lookup `getPrizeConfig`, including its first-entry fallback;
  - the confetti count fired for each prize;
  - the reels shown when the widget mounts.
- `draw.dfy`, module `PrizeDraw`: `selectPrize` as a pure function of the random number `r`. It walks the catalog in declared order, summing the probabilities, and returns the first entry whose running sum is `>= r`. If no entry reaches `r`, it returns the first entry.
- `spin.dfy`, module `SpinMachine`: `spin` as a state machine. Its state holds the source's `spinning`, `result`, `showResult`, `spinCount`, `displayPrizes`, `history` and the confetti count. `stage` records which continuation of the spin's timer chain comes next, together with the prize drawn at spin start. The events are:
  - a spin request carrying the draw's random number;
  - a tick of the 80 ms reel refresh carrying its three random prizes;
  - the three reel locks, carrying the noise shown on the reels that are still unlocked;
  - publication of the result, carrying the opaque clock readings of the history entry;
  - expiry of the confetti.

  If an event arrives in a stage where the chain cannot produce it, the state does not change.
- `runs.dfy`, module `SpinRuns`: runs of events. After any run:
  - the history holds the last ten published prizes, most recent first;
  - the spin counter equals the number of spins started;
  - the program as written (`RunAsWritten`) differs from the corrected one only in the reels shown between locks.

Two behaviours of the code are worth stating directly:

- When no running sum reaches `r`, the draw falls back to the first catalog entry (`prizes[0]`).
- `spinCount` is incremented when a spin starts, not when it completes.

## Model

| member | source | states |
|---|---|---|
| Catalog.LabelsDistinct | src/components/SlotMachine.tsx:6 | the four prize labels are pairwise distinct, so a label identifies its prize |
| Catalog.CatalogListsEachPrizeOnce | src/components/SlotMachine.tsx:29-34 | every prize has a catalog entry and no prize appears twice |
| Catalog.FindIndex | src/components/SlotMachine.tsx:175 | the search `find` performs returns the first matching index, and returns none exactly when no entry matches |
| Catalog.ConfigIn | src/components/SlotMachine.tsx:174-176 | the lookup returns an entry of the table; when some entry has the requested name it returns the first such entry, and when none does it returns the first entry |
| Catalog.GetPrizeConfig | src/components/SlotMachine.tsx:174-176 | for the catalog the lookup always finds the entry with the requested name, and that entry has a positive probability |
| Catalog.ConfettiMonotoneInRarity | src/components/SlotMachine.tsx:58 | a rarer prize never gets fewer confetti particles (strictly rarer gets strictly more), and counts lie between 20 and 50 |
| Catalog.ConfettiCount | src/components/SlotMachine.tsx:58 | every prize fires between 20 and 50 particles, and exactly the non-default prizes fire more than 20; `Catalog.ConfettiMonotoneInRarity` ties the count to rarity |
| Catalog.InitialReels | src/components/SlotMachine.tsx:52 | the mounted reels show the first three catalog entries in order |
| Catalog.InitialReelsDistinct | src/components/SlotMachine.tsx:52 | the three initial reels are pairwise different and do not show the rarest prize |
| PrizeDraw.Scan | src/components/SlotMachine.tsx:74-81 | the draw's loop stops at the first entry in declared order whose running sum reaches `r`; if it runs off the end, no running sum reaches `r` |
| PrizeDraw.SelectIn | src/components/SlotMachine.tsx:72-84 | the draw over any non-empty table returns a name from the table; it is the first entry whose running sum reaches `r`, or the first entry when none does |
| PrizeDraw.SelectPrize | src/components/SlotMachine.tsx:72-84 | when `r` is within the catalog's total, the draw returns the first catalog entry whose running sum reaches `r`; the fallback above the total is stated by `PrizeDraw.SelectPrizeBands` |
| PrizeDraw.CumulativeMonotone | src/components/SlotMachine.tsx:74-77 | with non-negative probabilities the running sum never decreases along the catalog |
| PrizeDraw.FallbackIsFirstEntry | src/components/SlotMachine.tsx:83 | a random number above the total reaches no entry and draws the first entry |
| PrizeDraw.CatalogSums | src/components/SlotMachine.tsx:29-34 | the catalog's running sums are exactly 0.8, 0.9, 0.98 and 1 |
| PrizeDraw.SelectPrizeBands | src/components/SlotMachine.tsx:72-84 | for every `r`: `r <= 0.8` draws 58獎金, `(0.8, 0.9]` draws 168獎金, `(0.9, 0.98]` draws 馬逼簽名, `(0.98, 1]` draws 666獎金, and `r > 1` falls back to 58獎金 |
| PrizeDraw.SelectPrizeUnitInterval | src/components/SlotMachine.tsx:73-83 | on the range of `Math.random()`, `r = 0` draws the first entry, `r` near 1 draws the last, and the fallback is never reached |
| PrizeDraw.DrawBandsMatchProbabilities | src/components/SlotMachine.tsx:29-34 | on (0, 1], each entry is drawn exactly on an interval whose width is its configured probability (both directions) |
| SpinMachine.Init | src/components/SlotMachine.tsx:37-54 | the mounted widget is not spinning, has count 0, has empty history, has no result, shows the first three prizes, and satisfies the invariant |
| SpinMachine.Recent | src/components/SlotMachine.tsx:160 | `slice(0, 10)` keeps the first `min(10, n)` elements unchanged |
| SpinMachine.PushHistory | src/components/SlotMachine.tsx:156-160 | the new history is at most 10 long and has length `min(10, n + 1)`; the new entry is at its head and its tail is a prefix of the old history |
| SpinMachine.Tick | src/components/SlotMachine.tsx:111-117 | the corrected refresh tick changes only the reels and keeps the invariant, so locked reels stay on the final prize; `SpinMachine.TickTouchesOnlyUnlockedReels` gives the reel contents |
| SpinMachine.TickAsWritten | src/components/SlotMachine.tsx:111-117 | the refresh tick as scheduled changes only the reels, writes the tick's three prizes to all reels until the interval is cleared after reel 2 locks (line 147), and does nothing otherwise |
| SpinMachine.RequestSpinStep | src/components/SlotMachine.tsx:87-99 | a request while spinning returns the state unchanged; otherwise it starts a spin: spinning, no result, no banner, counter plus one, and the prize given by the band layout of `r`, with reels, history and confetti unchanged |
| SpinMachine.Step | src/components/SlotMachine.tsx:86-172 | every event keeps the invariant; the counter grows by one exactly on an accepted request; only a publication after reel 2 locks changes the history; only a request or a publication changes the result; `SpinMachine.FullSpinLocksLeftToRight` gives a whole spin |
| SpinMachine.StepAsWritten | src/components/SlotMachine.tsx:86-172 | the as-written step agrees with `SpinMachine.Step` on every field but the reels, and on every event but a refresh tick |
| SpinMachine.RejectedSpinChangesNothing | src/components/SlotMachine.tsx:87 | a spin request while spinning leaves the entire state, the counter included, unchanged |
| SpinMachine.AcceptedSpinStartsSpin | src/components/SlotMachine.tsx:93-99 | an accepted request sets spinning, clears the result and its banner, adds exactly 1 to the counter and fixes the drawn prize; reels, history and confetti are untouched |
| SpinMachine.TickTouchesOnlyUnlockedReels | src/components/SlotMachine.tsx:111-117 | a refresh tick changes only the reels and never a reel already locked; it does nothing when no spin is refreshing |
| SpinMachine.StepPreservesInv | src/components/SlotMachine.tsx:86-172 | every event keeps the invariant: three reels, history of at most 10, spinning exactly while a chain runs, banner exactly when a result exists, and locked reels showing the final prize |
| SpinMachine.AsWrittenTickUnlocksReel0 | src/components/SlotMachine.tsx:111-147 | with the refresh as scheduled, a tick after reel 0 locks on 58獎金 shows 666獎金 on reel 0 and breaks the invariant |
| SpinMachine.AsWrittenDiffersOnlyInReels | src/components/SlotMachine.tsx:111-147 | the as-written step differs from the corrected one only in the reels, and only on a refresh tick; reel 2's lock makes the reels agree again |
| SpinMachine.FullSpinLocksLeftToRight | src/components/SlotMachine.tsx:120-171 | a full spin shows `[f,x,y]`, then `[f,f,z]`, then `[f,f,f]`; publishing sets the result to `f`, shows the banner, stops spinning, keeps the counter one above its start, puts `f` at the head of the history and fires `f`'s confetti |
| SpinRuns.RunPreservesInv | src/components/SlotMachine.tsx:86-172 | every run of events from a state that satisfies the invariant ends in one that does |
| SpinRuns.PrizesOfPush | src/components/SlotMachine.tsx:156-160 | pushing an entry onto the history pushes its prize onto the history's prizes, under the same cut at 10 |
| SpinRuns.StepHistoryPrizes | src/components/SlotMachine.tsx:150-160 | only a publication changes the history: its prize is prepended and the list is cut at 10 |
| SpinRuns.HistoryKeepsRecentPublished | src/components/SlotMachine.tsx:156-160 | after any run, the history's prizes are the run's published prizes, most recent first, followed by the earlier history, cut at 10 |
| SpinRuns.HistoryFromStart | src/components/SlotMachine.tsx:156-160 | from mount, with `n` prizes published, the history has `min(10, n)` entries, and entry `i` is the `i`-th most recent published prize |
| SpinRuns.SpinCountBalance | src/components/SlotMachine.tsx:93-96 | across any run, the counter grows by the spins published, plus one if the run ends mid-spin, minus one if it began mid-spin; rejected requests add nothing |
| SpinRuns.SpinCountMonotone | src/components/SlotMachine.tsx:96 | the counter never decreases |
| SpinRuns.SpinCountFromStart | src/components/SlotMachine.tsx:93-96 | from mount, the counter equals the number of published spins plus one while a spin is running |
| SpinRuns.RunAsWrittenAgrees | src/components/SlotMachine.tsx:111-147 | from reachable states that may differ only in the reels, and only while some but not all reels are locked, any run of the as-written step stays like that relative to the corrected run |
| SpinRuns.AsWrittenHistoryAndCount | src/components/SlotMachine.tsx:93-160 | the program as written keeps the same history (last `min(10, n)` published prizes, most recent first), counter and result as the corrected one; its reels agree too except while some but not all reels are locked |

## Findings

| source | as written | input that shows it | evidently intended | confidence | as-written member | corrected member |
|---|---|---|---|---|---|---|
| src/components/SlotMachine.tsx:111-147 | the 80 ms refresh interval is cleared only after reel 2 locks, and each tick rewrites all three reels | spin with `r = 0.5` (final prize 58獎金); lock reel 0; one refresh tick draws 666獎金 for reel 0 | reels already locked keep the final prize, and only the unlocked reels keep refreshing | not executed; high | SpinMachine.AsWrittenTickUnlocksReel0 | SpinMachine.TickTouchesOnlyUnlockedReels |

The as-written tick is `SpinMachine.TickAsWritten`, used by `SpinMachine.StepAsWritten`. The corrected tick is `SpinMachine.Tick`, used by `SpinMachine.Step`, and the run lemmas are stated about the corrected step. `SpinMachine.AsWrittenDiffersOnlyInReels` and `SpinRuns.RunAsWrittenAgrees` show that the two differ only in the reels shown between the locks, one step at a time and over whole runs. `SpinRuns.AsWrittenHistoryAndCount` carries the history and counter results over to the program as written. The published result and the final `[f,f,f]` display are the same under both, because reel 2's lock rewrites all three reels before the interval is cleared.

## Left out

- Rendering and styling: JSX markup, CSS, the sparkle background, haptic pulses, glass tint and the `slotRefs` animation styles. These are presentation only.
- Timer durations (80, 2000, 600, 600, 400 and 3000 ms) and `await`/`setTimeout` scheduling. The model replaces them with an ordered sequence of events.
- React state batching and stale closures. A double click delivered before the re-render is not modelled; the button is also disabled while spinning.
- Floating-point arithmetic. Probabilities and `r` are exact decimal reals. In binary doubles the running sums of the catalog come out as exactly the doubles `0.8`, `0.9`, `0.98` and `1`, so no sum drifts and the fallback is unreachable there too. The boundaries themselves differ, though. The double `0.8` is 0.8000000000000000444… and the double `0.9` is 0.9000000000000000222…. As random values, these two doubles draw 58獎金 and 168獎金 in the source but the next prize in the model. The double `0.98` lies below the decimal 0.98, and no other double lies between them, so that boundary draws the same prize in both.
- Statistical convergence of draw frequencies. `PrizeDraw.DrawBandsMatchProbabilities` states the exact-arithmetic counterpart: each prize's band has the width of its probability.
- The mapping from `Math.random()` to a reel index in the noise ticks. Noise prizes are event parameters.
- History timestamps and ids: `new Date()` and `Date.now()` are opaque integers carried by the publish event.
- Confetti particle positions, delays, durations and colour. Only the particle count is modelled.
- The pre-mount render with empty reels and the `mounted` flag. The mount effect runs on the first commit, before any click can arrive, so the model starts from the mounted state.
- The `showHistory` toggle. It is display state only.
