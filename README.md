# BabyBubbleBabble core, modelled in Dafny

BabyBubbleBabble is a React Native toy app for small children. This project models its
stateful logic and proves properties about it. Randomness, the clock, timers and trigonometry
are explicit inputs in the model. The parts covered are:

- **Bubble scene** (`scenes/BubbleScene.js`). The scene has a number of drifting bubbles that
  depends on the screen size. Each bubble draws a size class, looks and motion. It is placed so
  that it does not overlap bubbles already placed. It then travels in legs: each leg turns the
  heading by a random turn, an upward bias, a soft-wall nudge and a separation field, and runs
  for a clamped duration. Each bubble has a time to live; when it runs out the bubble pops
  automatically and respawns. A tap pops a bubble by hand. Pops count towards a combo, which
  gives a speed boost. Pop sounds go through throttles. A long press fires a bubble gun that
  emits shots at a fixed cadence into a capped list.
- **Bubble component** (`components/Bubble.js`). `hexToRgba` turns a hex colour into an
  `rgba(r,g,b,alpha)` string. The model follows JavaScript's own `replace`, `parseInt(_, 16)`,
  `>>` and `&`. The component also falls back to defaults for missing props, and picks the
  ring and aura colours.
- **Stacking scene** (`scenes/StackingScene.js`). Six blocks start on the floor. Tapping a
  block puts it on the tower, and a reset scatters the blocks again. The tower draws the
  stacked blocks in id order.
- **Parental lock** (`components/ParentalLock.js`). A tap counter calls `onUnlock` on the fifth
  tap. Every earlier tap starts a 2.5 s timer that puts the counter back to zero.
- **Night sky** (`scenes/NightSkyScene.js`). Seven fireflies. A caught one is hidden, and
  1.3 s later a fresh one replaces it.
- **Ball scene** (`scenes/BallScene.js`). Eight balls to start with. Each bounce adds one,
  up to fifteen.

The modules follow the source. `BubbleMath`, `BubbleSteering`, `BubblePlacement`,
`BubbleLifecycle`, `BubbleCombo`, `BubbleGun` and `BubbleScene` split up `BubbleScene.js`.
`BubbleView` models `Bubble.js`. `Stacking`, `ParentalLock`, `NightSky` and `BallScene` model
the remaining files. `Wrappers` holds `Option`.

Where the source updates things in place, the model uses classes:
- `BubbleLifecycle.Bubble` is a bubble record.
- `BubbleGun.Gun` holds the gun's refs and its shot list.
- `BubbleScene.Scene` holds the scene's refs and its bubbles.
- `ParentalLock.Lock` holds the tap counter.

Each method's `ensures` gives the new state, through a specification function where there is
one. A method that changes only some fields of a record names those fields in its `modifies`
clause, so every other field is known to stay; one that names the whole record states the new
value of every field. The three scenes
that replace React state with a fresh list are modelled as functions.

A call of `Math.random()` is a `Unit`, a real in [0, 1). Unbounded streams of draws are
functions from `nat`. `Date.now()` is an integer time parameter. A `setTimeout` is an `Armed`
timer, or a due time, plus a method or function for the moment it fires. `Math.cos`,
`Math.sin`, `Math.hypot` and `Math.atan2` are fields of a `Trig` value. Coordinates and angles
are reals.

## Model

| member | source | states |
|---|---|---|
| BubbleMath.Spec | scenes/BubbleScene.js:21-25 | Every size class has a positive size range and a positive time-to-live range. |
| BubbleMath.Clamp | scenes/BubbleScene.js:93 | `clamp` returns `v` inside [lo, hi], `lo` below it (or whenever hi < lo), and `hi` above it. |
| BubbleMath.Rand | scenes/BubbleScene.js:91 | `rand(min, max)` lies in [min, max], and below max when the range is not empty. |
| BubbleMath.RInt | scenes/BubbleScene.js:92 | `rint(min, max)` is an integer of [min, max]. |
| BubbleMath.RIntReaches | scenes/BubbleScene.js:92 | Every integer of [min, max] is the outcome of some draw. |
| BubbleMath.SkyColorForHour | scenes/BubbleScene.js:84-90 | The night colour comes exactly for hours from 20 on and before 6; hours 6-9, 10-16 and 17-19 give morning, day and evening. |
| BubbleMath.PickTypeWeighted | scenes/BubbleScene.js:104-109 | Small exactly when the draw is below 0.5, medium exactly in [0.5, 0.85), large exactly from 0.85. |
| BubbleMath.PickTypeMonotone | scenes/BubbleScene.js:104-109 | A larger draw never picks a smaller class. |
| BubbleMath.BubbleCount | scenes/BubbleScene.js:331 | The bubble count lies in [20, 48], and equals the rounded area over 65000 when that is in range. |
| BubbleMath.BubbleCountMonotone | scenes/BubbleScene.js:331 | A larger screen area never gives fewer bubbles. |
| BubbleMath.Round | scenes/BubbleScene.js:331 | `Math.round` gives the nearest integer, halves going up: the input lies in [r - 0.5, r + 0.5). |
| BubbleMath.Wrapped | scenes/BubbleScene.js:94-98 | The result lies in (-PI, PI] and differs from the input by whole turns. |
| BubbleMath.WrappedUnique | scenes/BubbleScene.js:94-98 | Only one angle of (-PI, PI] differs from a given angle by whole turns. |
| BubbleMath.WrapAngle | scenes/BubbleScene.js:94-98 | `wrapAngle`'s two loops end in (-PI, PI], at the one angle that differs from the input by whole turns. |
| BubbleSteering.Separation | scenes/BubbleScene.js:387-408 | The separation turn is 0 when the summed push is below 1e-6, and is never larger in size than SEP_MAX_DELTA * SEP_GAIN. |
| BubbleSteering.Push | scenes/BubbleScene.js:392-401 | A neighbour at distance 0 or at the threshold or beyond pushes nothing. A closer one pushes the bubble away from itself: each component has the sign of the offset. |
| BubbleSteering.Falloff | scenes/BubbleScene.js:398-400 | An offset over the squared distance, times a positive weight, keeps the sign of the offset. |
| BubbleSteering.Repulsion | scenes/BubbleScene.js:388-402 | With no other bubble among the first k within the threshold, the summed push is zero. |
| BubbleSteering.RepulsionIgnoresSelf | scenes/BubbleScene.js:391 | The entry of the bubble itself never counts, whatever it holds. |
| BubbleSteering.NoNeighbourNoTurn | scenes/BubbleScene.js:387-408 | A bubble with no neighbour within the threshold gets no separation turn. |
| BubbleSteering.SumPushes | scenes/BubbleScene.js:388-402 | The for-loop adds up the push of every bubble but the bubble itself. |
| BubbleSteering.SeparationDelta | scenes/BubbleScene.js:387-408 | `separationDelta` computes the separation turn, with its bound. |
| BubbleSteering.SoftWallSteer | scenes/BubbleScene.js:410-417 | No nudge away from the walls; a positive nudge near the left wall; a negative one near the right; never more than PI/12 + PI/18 in size. |
| BubbleSteering.UpwardBias | scenes/BubbleScene.js:423 | The upward pull is at most PI times the bias gain in size, and is 0 for a bubble heading straight up. |
| BubbleSteering.NextHeading | scenes/BubbleScene.js:422-426 | The new heading lies in (-PI, PI] and equals the old one plus the four turns, up to whole turns. |
| BubbleSteering.LegDuration | scenes/BubbleScene.js:432 | A leg lasts between 900 and 3200 ms whatever the boost; in between it is the leg length over the boosted speed. |
| BubbleSteering.BoostNeverSlows | scenes/BubbleScene.js:432 | A higher boost never makes a leg last longer. |
| BubbleSteering.LegTarget | scenes/BubbleScene.js:429-430 | The waypoint lies in [0, max(0, extent - size)], and is the straight-line target when that is on screen. |
| BubblePlacement.RandomOnscreen | scenes/BubbleScene.js:99-103 | The point is always on screen, and MARGIN away from the edges when the screen leaves room for that. |
| BubblePlacement.FirstFit | scenes/BubbleScene.js:469-484 | The search makes at most PLACEMENT_ATTEMPTS (30) overlap checks. |
| BubblePlacement.FirstFitChoice | scenes/BubbleScene.js:469-484 | A point that is kept is the last candidate checked and overlaps nothing. A search that gives up has made 30 checks and takes the next, unchecked candidate. |
| BubblePlacement.FirstFitRejected | scenes/BubbleScene.js:472-483 | Every candidate checked before the chosen one overlapped a placed bubble. |
| BubblePlacement.FirstFitEarlierOverlap | scenes/BubbleScene.js:472-483 | Every candidate the search passed over overlapped a placed bubble. |
| BubblePlacement.FirstFitExhausted | scenes/BubbleScene.js:472-484 | A search that gives up has seen all 30 checked candidates overlap. |
| BubblePlacement.FirstFitOnScreen | scenes/BubbleScene.js:469-485 | Whatever point the search settles on lies on screen. |
| BubblePlacement.FirstFitEmpty | scenes/BubbleScene.js:469-482 | With nothing placed, the first candidate is kept after one check. |
| BubblePlacement.Fits | scenes/BubbleScene.js:473-481 | The inner loop passes a candidate exactly when no placed bubble is closer than the threshold. |
| BubblePlacement.FirstFitStep | scenes/BubbleScene.js:472-484 | A candidate that overlaps passes the search on to the next one; one that does not is kept. |
| BubblePlacement.SpawnSearch | scenes/BubbleScene.js:470-484 | The retry loop returns the point and outcome that FirstFit describes. |
| BubbleLifecycle.DrawLook | scenes/BubbleScene.js:340-363 | The drawn size lies in the class's range; the heading is within PI/14 of straight up; the tint is one of the five; a sticker exists exactly when its draw is below 0.12, and it is one of the six. |
| BubbleLifecycle.SizeRatio | scenes/BubbleScene.js:351 | The size ratio lies strictly between 0 and 1. |
| BubbleLifecycle.MotionFor | scenes/BubbleScene.js:351-358 | Speed, largest turn, leg range and bias gain lie within the bounds their formulas give. |
| BubbleLifecycle.ScaledMotion | scenes/BubbleScene.js:352-358 | The same bounds, for any size ratio of (0, 1). |
| BubbleLifecycle.SizeRatioAntitone | scenes/BubbleScene.js:351 | A larger diameter gives a smaller size ratio. |
| BubbleLifecycle.ScaledMotionMonotone | scenes/BubbleScene.js:352-358 | A higher size ratio gives at least the speed and turn, and at most the bias gain. |
| BubbleLifecycle.SmallerIsNimbler | scenes/BubbleScene.js:351-358 | Within a class and for the same draw, a smaller bubble is no slower, turns no less, and leans up no harder. |
| BubbleLifecycle.Parallax | scenes/BubbleScene.js:367 | The tilt factor lies in [0.35, 1.2). |
| BubbleLifecycle.TouchPadding | scenes/BubbleScene.js:365 | The hit slop is 20, 28 or 36: 20 for every small size, 28 for every medium one, 36 for every large one. |
| BubbleLifecycle.TouchPaddingMonotone | scenes/BubbleScene.js:365 | A larger bubble never gets a smaller hit slop. |
| BubbleLifecycle.WithSelf | scenes/BubbleScene.js:507 | The list `respawn` places against holds every other bubble as it was, and this bubble as it is now. |
| BubbleLifecycle.PlanLeg | scenes/BubbleScene.js:419-432 | The new heading lies in (-PI, PI] and is the sum of the four turns. The waypoint is on screen. The duration lies in [900, 3200] ms. |
| BubbleLifecycle.SteerHeading | scenes/BubbleScene.js:422-426 | The steering statements of `nextLeg` compute NextHeading of the four turns. |
| BubbleLifecycle.ComputeLeg | scenes/BubbleScene.js:419-432 | The computation of `nextLeg` gives the plan PlanLeg describes. |
| BubbleLifecycle.Bubble.constructor | scenes/BubbleScene.js:337-377 | A new record has the class its draw picks and the looks and motion drawn for it. It sits at the origin with resting visuals, runs no leg and has no timer. |
| BubbleLifecycle.Bubble.NextLeg | scenes/BubbleScene.js:419-437 | A stopped bubble is left alone. A running one takes PlanLeg's heading and starts its leg. |
| BubbleLifecycle.Bubble.StartLeg | scenes/BubbleScene.js:434-437 | The new heading and leg are stored. |
| BubbleLifecycle.Bubble.LegFinished | scenes/BubbleScene.js:438-442 | A finished leg commits its waypoint as the position, and the next leg is the one PlanLeg plans from that waypoint and the heading the bubble had. |
| BubbleLifecycle.Bubble.ScheduleTTL | scenes/BubbleScene.js:445-449 | Any old timer is replaced by one whose delay is an integer of the class's [TTL_MIN, TTL_MAX]. |
| BubbleLifecycle.Bubble.StopAll | scenes/BubbleScene.js:512 | The bubble is stopped, with no leg and no timer. |
| BubbleLifecycle.Bubble.AutoPop | scenes/BubbleScene.js:451-454 | The pop goes ahead exactly when the bubble was not stopped; afterwards it is stopped with no leg. |
| BubbleLifecycle.Bubble.TtlFired | scenes/BubbleScene.js:448-454 | The spent timer is cleared and `autoPop` runs. |
| BubbleLifecycle.Bubble.PlaceNonOverlapping | scenes/BubbleScene.js:469-488 | The bubble moves to the point FirstFit chooses, always. |
| BubbleLifecycle.Bubble.MoveTo | scenes/BubbleScene.js:485-487 | The position becomes the given point. |
| BubbleLifecycle.Bubble.Resume | scenes/BubbleScene.js:492-494 | The bubble is not stopped, has a fresh time to live, and runs PlanLeg's first leg. |
| BubbleLifecycle.Bubble.PlaceAndRun | scenes/BubbleScene.js:490-495 | The bubble is placed by FirstFit, not stopped, has a fresh time to live, and runs the first leg PlanLeg plans from the new spot and its old heading. |
| BubbleLifecycle.Bubble.TakeLook | scenes/BubbleScene.js:499-506 | The bubble takes the new looks, and its pop visuals go back to rest. |
| BubbleLifecycle.Bubble.ResetVisuals | scenes/BubbleScene.js:500-503 | Scale 1, opacity 1, ring scale 0.8, ring opacity 0. |
| BubbleLifecycle.Bubble.Respawn | scenes/BubbleScene.js:497-508 | The bubble gets new looks of its own class and resting visuals. It is placed against every bubble, itself included, and runs again with a fresh time to live and the leg PlanLeg plans from the new spot and the newly drawn heading. |
| BubbleCombo.RegisterPop | scenes/BubbleScene.js:527-540 | A pop records its time. The reward fires only when the counter reaches the threshold. |
| BubbleCombo.ChainedPops | scenes/BubbleScene.js:530-535 | Pops within the window of each other add one each; the reward fires exactly once, on the step from below the threshold to it. |
| BubbleCombo.StreakReward | scenes/BubbleScene.js:527-540 | A streak after a pause counts from 1, and fires the reward once exactly when it reaches 3 pops. |
| BubbleCombo.ManualPopSfx | scenes/BubbleScene.js:266-272 | The manual pop sound plays exactly when more than 220 ms have passed since the last one, and only then does the recorded time move to now. |
| BubbleCombo.AutoPopSfx | scenes/BubbleScene.js:273-280 | The automatic pop sound plays exactly when at least 800 ms have passed and the draw is below 0.25, and only then does the recorded time move. |
| BubbleCombo.ShotSfx | scenes/BubbleScene.js:623-627 | A landing shot sounds exactly when its draw is below 0.15 and more than 500 ms have passed, and only then does the recorded time move. |
| BubbleCombo.GateSpacing | scenes/BubbleScene.js:266-280 | A sound plays only at least its least gap after the last one, and the recorded time moves exactly when it plays. |
| BubbleCombo.Plays | scenes/BubbleScene.js:266-280 | A run of calls plays the sound at most once per call. |
| BubbleCombo.PlaysSpaced | scenes/BubbleScene.js:266-280 | However the calls come, no gate plays twice within its least gap. |
| BubbleGun.MakeShot | scenes/BubbleScene.js:576-593 | A shot is 36-58 px, centred on the finger. It lands on screen after 850-1400 ms, with one of the five tints and a sticker exactly when its draw is below 0.06. |
| BubbleGun.AppendCapped | scenes/BubbleScene.js:597-601 | An insertion puts the shot last and keeps at most 28 shots; below 28 it only appends. |
| BubbleGun.Newest | scenes/BubbleScene.js:599 | At most 28 shots. |
| BubbleGun.AppendAllKeepsNewest | scenes/BubbleScene.js:597-601 | After any insertions the list is exactly the newest 28 shots, oldest first. |
| BubbleGun.WithoutShot | scenes/BubbleScene.js:619 | The removal keeps exactly the shots with other ids, and changes nothing when the id is absent. |
| BubbleGun.WithoutShotKeepsOrder | scenes/BubbleScene.js:619 | The removal is a filter: on a list made of two parts it is the removal from each part, in order. |
| BubbleGun.Due | scenes/BubbleScene.js:635 | A forced frame always fires; otherwise a frame fires exactly when EMIT_EVERY_MS (80 ms) have passed since the last emission. |
| BubbleGun.Volley | scenes/BubbleScene.js:639-648 | One shot at the finger; a fast finger adds a second one, up to 10 px away and on screen. |
| BubbleGun.Firings | scenes/BubbleScene.js:635-637 | A held gun fires at most once per frame. |
| BubbleGun.FiringsCadence | scenes/BubbleScene.js:635-637 | After the forced first shot, firings are at least 80 ms apart. |
| BubbleGun.Gun.constructor | scenes/BubbleScene.js:567-574 | The gun starts inactive and aimed at the centre, with no shot. |
| BubbleGun.Gun.StartGun | scenes/BubbleScene.js:654-663 | The gun is armed and aimed, with an immediate shot requested and a frame pending. |
| BubbleGun.Gun.MoveGun | scenes/BubbleScene.js:665-673 | The speed is the distance moved over at least 1 ms since the previous move, counted from time 0 for the first move after a render; the aim follows the finger and the move's time is recorded. |
| BubbleGun.Gun.Rerendered | scenes/BubbleScene.js:665-673 | A render makes a fresh `moveGun` whose last time is unset (0); nothing else changes. |
| BubbleGun.Gun.StopGun | scenes/BubbleScene.js:675-682 | The gun is disarmed, its speed is 0, and no frame is pending. |
| BubbleGun.Gun.RafLoop | scenes/BubbleScene.js:631-652 | A disarmed gun lets the frame lapse. An armed one fires a Volley when due, and asks for the next frame. |
| BubbleGun.Gun.Fire | scenes/BubbleScene.js:636-648 | The emission time is recorded, the force flag cleared, and the volley queued. |
| BubbleGun.Gun.InsertPending | scenes/BubbleScene.js:596-601 | The oldest queued shot is inserted with AppendCapped, and the re-render this causes resets moveGun's last time to 0. |
| BubbleGun.Gun.ShotLanded | scenes/BubbleScene.js:623-627 | The landing sound goes through the shot gate. |
| BubbleGun.Gun.RemoveShot | scenes/BubbleScene.js:618-619 | The faded shot is removed with WithoutShot, and the re-render this causes resets moveGun's last time to 0. |
| BubbleScene.Bodies | scenes/BubbleScene.js:391-393 | What the steering reads of the bubbles: one entry per bubble, in order. |
| BubbleScene.Scene.constructor | scenes/BubbleScene.js:331-380 | One fresh record per bubble, as many as BubbleCount; combo, boost and throttles at their initial values. |
| BubbleScene.Scene.Mount | scenes/BubbleScene.js:510-519 | After the mount effect every bubble drifts, and each one sits where FirstFit put it among the bubbles placed before it. Sizes, looks and visuals stay. |
| BubbleScene.Scene.MountOne | scenes/BubbleScene.js:516-517 | Bubble i is placed against the bubbles before it and runs the leg PlanLeg plans, and the bubbles before it do not move. Only bubble i's position, heading, leg, stopped flag and timer may change: its size, looks and visuals stay. |
| BubbleScene.Scene.LegDone | scenes/BubbleScene.js:438-442 | A finished leg commits the waypoint, and the next leg is the one PlanLeg plans there, steered by the scene as it was and the current boost. Only the position, heading and leg change: the time to live, size and looks stay. |
| BubbleScene.Scene.HandleManualPop | scenes/BubbleScene.js:542-545 | The bubble stops for good, with no leg and no timer, so no automatic pop can follow; its position, size and looks stay. The throttled sound plays and the pop is counted. |
| BubbleScene.Scene.PlayManualPopSfx | scenes/BubbleScene.js:266-272 | The sound plays exactly when more than 220 ms have passed since the last one. |
| BubbleScene.Scene.PlayAutoPopSfx | scenes/BubbleScene.js:273-280 | No sound within 800 ms of the last one; otherwise a one-in-four chance. |
| BubbleScene.Scene.CountPop | scenes/BubbleScene.js:527-540 | The streak follows RegisterPop, and the reward is triggered when it fires. |
| BubbleScene.Scene.TriggerCombo | scenes/BubbleScene.js:319-328 | The boost becomes 1.25, the badge shows, a giggle plays, and a fresh 2500 ms boost timer replaces the old one. |
| BubbleScene.Scene.BoostExpired | scenes/BubbleScene.js:324-327 | The boost is back to 1 and the badge hidden. |
| BubbleScene.Scene.TtlFired | scenes/BubbleScene.js:448-455 | A running bubble pops and stops for good, with the throttled automatic sound. A stopped one stays as it is. The position, size and looks stay either way. |
| BubbleScene.Scene.PopDone | scenes/BubbleScene.js:497-508 | The popped bubble takes newly drawn size, tint and sticker and the resting visuals, respawns where FirstFit puts it among the scene, gets a time to live drawn from its class's range, and drifts again on the leg PlanLeg plans from its newly drawn heading. No other bubble changes. |
| BubbleScene.Scene.Unmount | scenes/BubbleScene.js:521-524 | The boost timer is cleared and every bubble is stopped for good; nothing else of any bubble changes. |
| BubbleView.RemoveFirst | components/Bubble.js:88 | `replace('#', '')` removes exactly the first '#': the text before it and after it are kept. Without a '#' nothing changes. |
| BubbleView.Doubled | components/Bubble.js:89 | Every character is doubled in place. |
| BubbleView.SpaceEnd | components/Bubble.js:89 | `parseInt` skips exactly the leading white space: every character before the returned index is white space, and the one at it, if any, is not. |
| BubbleView.HexRun | components/Bubble.js:89 | The longest prefix of hex digits. |
| BubbleView.HexValueBound | components/Bubble.js:89 | n hex digits hold less than 16^n. |
| BubbleView.ToInt32 | components/Bubble.js:90-92 | The operand of `>>` is brought into the signed 32-bit range, and is unchanged within [0, 2^31). |
| BubbleView.Channel | components/Bubble.js:90-92 | Every channel lies in [0, 255]. |
| BubbleView.Channels | components/Bubble.js:88-92 | All three channels lie in [0, 255]. |
| BubbleView.ParseHex | components/Bubble.js:89 | The result is NaN exactly when no hex digit follows the white space, sign and `0x`. A plain run of hex digits parses to its value. A text with no hex digit at all is NaN. |
| BubbleView.HashIsOptional | components/Bubble.js:88 | A colour with or without its leading '#' gives the same text. |
| BubbleView.ShortFormExpands | components/Bubble.js:89 | "#abc" has the channels of "#aabbcc". |
| BubbleView.SixDigitChannels | components/Bubble.js:89-92 | For six digits the channels are bits 16-23, 8-15 and 0-7, the three digit pairs, and r * 65536 + g * 256 + b is the parsed value. |
| BubbleView.UnreadableIsBlack | components/Bubble.js:89-92 | A colour `parseInt` cannot read (NaN) comes out as 0,0,0. |
| BubbleView.DecValueOfDec | components/Bubble.js:93 | The decimal text of a number reads back as that number. |
| BubbleView.Format | components/Bubble.js:93 | The `rgba(r,g,b,alpha)` text reads back as the channels and the alpha it was written from. |
| BubbleView.HexToRgba | components/Bubble.js:87-93 | The text reads back as the three channels of the colour, each a byte, and the alpha as given. |
| BubbleView.HexToRgbaDefault | components/Bubble.js:87 | Without an alpha, the text reads back with alpha "1". |
| BubbleView.Styled | components/Bubble.js:24-42 | Each of scale, opacity, ring scale and ring opacity is the prop when it is truthy, and 1, 1, 1 and 0 otherwise. So the first three are always truthy, and the ring opacity is animated exactly when the prop is. |
| BubbleView.Layout | components/Bubble.js:12-64 | The side is the size prop, 72 when it is missing. The ring and aura are circles of that side. The sticker is a square inset by the same amount on every side, so it is centred. |
| BubbleView.RingColor | components/Bubble.js:40 | The ring is the tint at alpha 0.65; without a tint it is the text of white at alpha 0.65. |
| BubbleView.WhiteRingText | components/Bubble.js:40 | 'rgba(255,255,255,0.65)' is what `hexToRgba` writes for white at alpha 0.65. |
| BubbleView.AuraColor | components/Bubble.js:30 | An aura exists exactly when there is a tint, and is the tint at alpha 0.08. |
| Stacking.FloorX | scenes/StackingScene.js:35 | A floor x lies in [0, width - 90). |
| Stacking.FloorY | scenes/StackingScene.js:36 | A floor y lies within 60 above the floor line. |
| Stacking.FloorBlock | scenes/StackingScene.js:29-37 | Block i has id i, the i-th picture, colour and label, is not stacked, and lies on the floor. |
| Stacking.InitialBlocks | scenes/StackingScene.js:28-38 | Six blocks with ids 0-5, none stacked, all on the floor. |
| Stacking.Stacked | scenes/StackingScene.js:42 | Only stacked blocks. |
| Stacking.Unstacked | scenes/StackingScene.js:43 | Only unstacked blocks. |
| Stacking.SplitIsPartition | scenes/StackingScene.js:42-43 | Together the two filters hold every block exactly as often as the list does. |
| Stacking.HandleStack | scenes/StackingScene.js:45-59 | The length and the ids are kept. Every other block is unchanged. The target is stacked at TOWER_X, one block above the current stack. |
| Stacking.OneMoreStacked | scenes/StackingScene.js:47-57 | Stacking one floor block adds one to the stacked count. |
| Stacking.StackGrowsTower | scenes/StackingScene.js:45-58 | Tapping a floor block adds exactly one block to the tower, in the slot above the top. |
| Stacking.ResetStack | scenes/StackingScene.js:61-68 | Every block is back on the floor at a new spot, clear of the right edge by a block's width; id, picture, colour and label stay. |
| Stacking.Scattered | scenes/StackingScene.js:62-67 | One block back on the floor, clear of the right edge by a block's width, the same block otherwise. |
| Stacking.ResetEmptiesTower | scenes/StackingScene.js:61-68 | After a reset nothing is stacked and every block is on the floor. |
| Stacking.NoneStacked | scenes/StackingScene.js:42-43 | With nothing stacked, the tower is empty and the floor holds the whole list. |
| Stacking.InsertById | scenes/StackingScene.js:75 | An insertion adds exactly that block. |
| Stacking.InsertKeepsSorted | scenes/StackingScene.js:75 | Inserting into an id-ordered list keeps it ordered. |
| Stacking.SortById | scenes/StackingScene.js:75 | The sort is a permutation. |
| Stacking.SortByIdSorted | scenes/StackingScene.js:75 | The sort orders by id. |
| Stacking.Tower | scenes/StackingScene.js:74-83 | One drawn block per stacked block. |
| Stacking.TowerOrder | scenes/StackingScene.js:74-76 | The tower holds exactly the stacked blocks, each once, in id order. |
| Stacking.TowerSlots | scenes/StackingScene.js:82-83 | Every tower block is at TOWER_X. The lowest is one block above the floor and each next one exactly one block higher, so slots are distinct and contiguous. |
| ParentalLock.Press | components/ParentalLock.js:7-15 | From count 4 a press resets to 0 and unlocks once; below 4 it counts and starts a 2500 ms timer, without unlocking. |
| ParentalLock.NotDue | components/ParentalLock.js:13 | The timers still pending are exactly those not yet due, each due time as many times as it was started. |
| ParentalLock.FireDue | components/ParentalLock.js:13 | A due timer always puts the counter back to 0; with none due nothing changes; it never unlocks. |
| ParentalLock.Tap | components/ParentalLock.js:7-15 | A tap unlocks exactly when no reset timer is due and the counter is at 4. A due reset fires first, so the tap then counts 1 and cannot unlock. |
| ParentalLock.NoneDue | components/ParentalLock.js:13 | With no timer due, every timer stays pending. |
| ParentalLock.TapKeepsBounded | components/ParentalLock.js:8-13 | A tap keeps the counter below 5. |
| ParentalLock.TapsKeepBounded | components/ParentalLock.js:8-13 | Any run of taps keeps the counter below 5. |
| ParentalLock.TapCounts | components/ParentalLock.js:11-13 | A tap before any timer is due counts and starts a timer. |
| ParentalLock.TapAfterFirst | components/ParentalLock.js:8-13 | The counter after the k-th tap is at most k+1, and at most k unless the first tap's timer is still pending. |
| ParentalLock.FiveQuickTapsUnlock | components/ParentalLock.js:7-15 | Five taps from a fresh lock within 2.5 s of the first unlock exactly once and leave the counter at 0. |
| ParentalLock.FiveSlowTapsStayLocked | components/ParentalLock.js:8-13 | If the fifth tap is 2.5 s or more after the first, no unlock happens. |
| ParentalLock.Lock.constructor | components/ParentalLock.js:5 | The counter starts at 0. |
| ParentalLock.Lock.HandlePress | components/ParentalLock.js:7-15 | `handlePress` updates the counter in place as Press describes. |
| ParentalLock.Lock.TimersDue | components/ParentalLock.js:13 | The loop over the pending timers fires the due ones, as FireDue describes. |
| NightSky.RandomFirefly | scenes/NightSkyScene.js:12-19 | A new firefly is not caught, its id is its draw, and it lies in [0, width - 40] by [0, height - 140]. |
| NightSky.InitialSky | scenes/NightSkyScene.js:25-27 | Seven fireflies, none caught. |
| NightSky.Catch | scenes/NightSkyScene.js:31-35 | The firefly with that id is marked caught and the others are unchanged; the length is kept. |
| NightSky.Replace | scenes/NightSkyScene.js:36-44 | The firefly with that id is swapped for a fresh one and the others are unchanged; the length is kept. |
| NightSky.Visible | scenes/NightSkyScene.js:50-52 | Only uncaught fireflies of the list are drawn. |
| NightSky.VisibleIffNotCaught | scenes/NightSkyScene.js:50-52 | A firefly is drawn exactly when it is in the list and not caught. |
| NightSky.OneFewerVisible | scenes/NightSkyScene.js:50-52 | Catching one firefly draws one fewer. |
| NightSky.CatchHidesOne | scenes/NightSkyScene.js:29-35 | A catch hides exactly the caught firefly: one fewer is drawn, and none with its id; ids stay unique. |
| NightSky.CatchThenReplace | scenes/NightSkyScene.js:29-45 | Catch and replacement leave every other firefly as it was, and put an uncaught fresh one in the caught one's place. |
| NightSky.AllVisible | scenes/NightSkyScene.js:50-52 | With nothing caught, every firefly is drawn. |
| NightSky.InitialAllVisible | scenes/NightSkyScene.js:26 | All seven starting fireflies are drawn. |
| BallScene.Placed | scenes/BallScene.js:20-21 | A ball lies in [0, width - 80] by [0, height - 220]. |
| BallScene.InitialBalls | scenes/BallScene.js:17-23 | Eight balls; ball i has an id in [i, i + 1). |
| BallScene.InitialIdsUnique | scenes/BallScene.js:19 | The starting ids are all different. |
| BallScene.Bounce | scenes/BallScene.js:26-37 | Below 15 balls a bounce appends one ball, placed from the bounce's draws, and keeps the rest as a prefix; from 15 on it changes nothing. |
| BallScene.Bounces | scenes/BallScene.js:26-37 | A run of bounces keeps the old balls first and adds at most one per bounce; a list already at 15 is left as it is. |
| BallScene.BouncesCapped | scenes/BallScene.js:28-36 | Any run of bounces grows the list one per bounce up to 15, never beyond, and keeps the old balls first. |
| BallScene.NeverMoreThanFifteen | scenes/BallScene.js:16-36 | From the starting eight, the count never exceeds 15. |

## Left out

- Rendering and animation are not modelled: easing, the `Animated` values, JSX and styles. An animation is reduced to the moment its completion callback runs. The pop visuals are reduced to their resting values.
- Clouds, accelerometer tilt, gestures and haptics are platform input and output. They are not modelled; the gun's operations are the events the gestures call.
- Sound playback and music are not modelled. In the bubble scene a sound is a counter of `playPopSound` or `playGiggleSound` calls. The pop sound of a caught firefly (scenes/NightSkyScene.js:30) and the giggle of a bounced ball (scenes/BallScene.js:27) are left out: those calls have no throttle and change no state.
- `Math.cos`, `Math.sin`, `Math.hypot` and `Math.atan2` are given functions. Nothing about the geometry of the repulsion vector is proved.
- Floating-point arithmetic is modelled with exact reals. `PI` is the literal 3.141592653589793.
- Random text ids (`Math.random().toString(36)`) are modelled as natural numbers. Random real ids that could collide are assumed different only where a lemma says so.
- React's scheduling is not modelled. Each handler is a sequential update of the current state. Stale closures are handled this way too: `handleStack` takes the render-time stacked count as a parameter, and ParentalLock reads its current count.
- BubbleLifecycle.Bubble: speed, turn, leg range and parallax are drawn once and kept across respawns, as the source does. Not modelled: a leg's completion callback that comes after the leg was replaced, and the effect restarting when the window size changes.
- BubbleScene.Scene.Mount: the leg each bubble starts with is stated in MountOne, against the scene as it was at that step. Mount does not restate it, because later steps move other bubbles.
- BubbleGun.Gun.Rerendered: it is called where the shot list changes. The scene's other renders (among them a combo change at scenes/BubbleScene.js:531 and 537 and the sky colour at line 258) also reset `moveGun`'s last time, but the model's Scene and Gun are separate objects, so those resets are not modelled.
- BubbleGun.Gun.ShotLanded: the shot's fade and ring visuals are not modelled; only the landing sound is.
- BubbleView.ParseHex: `parseInt` precision above 2^53 is not modelled (the model reads the exact value).
- BubbleView.HexToRgba: the alpha is taken as the text JavaScript writes for it. Number-to-text conversion of alpha values is not modelled.
- ParentalLock.Tap: timers that are due by the time of a tap fire before it. When several timers fall at the same millisecond, their order is not modelled, because they all set the counter to 0.
- ParentalLock.FiveQuickTapsUnlock: states the number of timers still pending, not their exact due times.
- Stacking: only the tower's drawing is modelled. The unstacked blocks are drawn at their own spots, which is plain rendering.
- NightSky and BallScene: the floating animation of the fireflies and balls is not modelled.
- NightSky.Replace: the 1300 ms delay before a caught firefly is replaced is not modelled as a time. Replace is the timer's callback, applied whenever it runs.
- BubbleView.Source: `c.length === 3` counts UTF-16 code units, while a Dafny string counts Unicode scalar values. The two differ only for characters outside the Basic Multilingual Plane, which no colour contains.
- BubbleSteering.Push: the sign of each push component is stated; its size and direction as an angle are not, because they depend on the given `Math.hypot`.
