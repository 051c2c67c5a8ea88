# Experience and levelling of the TAM-CW1 player character

This project models the experience and levelling state machine of the player
character `ATAM_CWCharacter` of a first-person demo game:

- experience grants (`UpdateExp`, the debug action `AddExp`, the pickup);
- the per-frame level-up check (`Tick`), which levels up at most once per frame
  and at the level cap freezes the threshold at the current experience (the bar
  fraction `ExpPercentage` is not refreshed there, so it keeps its last value
  rather than showing a full bar);
- the level-up itself (`LevelUp`, `BufferExp`): one more level and one more
  skill point, the rounded overflow carried over, and a threshold grown by the
  growth factor;
- the one-slot save record (`SaveGame`, `SaveData`, `LoadData`);
- spending skill points (`SkillPointsCost`, `SpendSkillPoints`);
- the bar accessor `GetExp`.

It is written in Dafny in three files:

- `experience.dfy`, module `Experience`: the character's progression fields as a
  value (`CharacterState`), with one function per operation. It also holds the
  invariant `Valid`, the event sequences the game can produce (`Event`, `Step`, `Run`)
  and the lemmas about them.
- `character.dfy`, module `PlayerCharacter`: class `Character`. Its fields mirror the
  C++ members, and the save record is the two two-element arrays `ExpProgressData`
  and `LevelProgressData` plus the flag `hasSaved`. Each method updates the fields
  in place and ends in exactly the state that the matching `Experience` function
  computes from the old state (`Model()`). The methods reached from input bindings,
  pickups and the frame (`UpdateExp`, `AddExp`, `Tick`, `SaveGame`, `LoadData`,
  `SkillPointsCost`, `SpendSkillPoints`) also keep `Valid()`. The helpers that only
  `Tick` and `SaveGame` call (`BufferExp`, `LevelUp`, `LevelCapped`, `SaveData`)
  only match their function.
- `pickup.dfy`, module `PickUp`: the pickup actor as a client that grants 30
  experience on overlap.

Floats are `real`. Every float division in the core is `CurrentExp / MaxExp`, which
`Divide` models. Its result is a `Quotient`: a real when the divisor is not zero,
otherwise `NonFinite` (IEEE infinity or NaN). The divisor can be zero in the
source. Reaching the cap with zero experience sets `MaxExp = 0`, and loading a save
made in that state divides zero by zero. C's `round` is `Round`, which rounds halves
away from zero. It is specified by its bounds and proved unique.

The game's own behaviour settles two questions:

- A grant that crosses several thresholds at once is not lost. `BufferExp` keeps the
  whole rounded excess, so later frames keep levelling up while the excess reaches
  the grown threshold (`SurplusCarriesToNextTick`).
- Skill points can go negative. `SkillPointsCost` checks only that some points are
  left, not that enough are (`SkillPointsCostCanOverspend`). Spending one point at a
  time never goes below zero.

## Model

| member | source | states |
|---|---|---|
| `Experience.Divide` | TAM_CWCharacter.cpp:472 | the quotient is finite exactly when the divisor is non-zero, and then it times the divisor gives the dividend |
| `Experience.Round` | TAM_CWCharacter.cpp:421 | the result is within half a point of the argument, with halves rounded away from zero |
| `Experience.RoundIsUnique` | TAM_CWCharacter.cpp:421 | any integer meeting those bounds is the value of `Round` |
| `Experience.Initial` | TAM_CWCharacter.cpp:102-111 | level 1, 0 skill points, cap 100, threshold 100, experience 0, growth 1.2, ExpLeft equal to MaxExp, bar at 0, PreviousCurrentExp and ExpOverflow 0, no timer armed, an empty zeroed save slot; the state is `Valid` |
| `Experience.AddExp` | TAM_CWCharacter.cpp:413-415 | at or above the cap nothing changes; below it 20 is added to the experience, the old experience goes to PreviousCurrentExp, ExpLeft and ExpPercentage follow the new experience, and nothing else changes |
| `Experience.UpdateExp` | TAM_CWCharacter.cpp:403-411 | at or above the cap nothing changes; below it the old experience goes to PreviousCurrentExp, the delta is added, ExpLeft and ExpPercentage follow the new experience, and level, skill points and the rest are untouched |
| `Experience.LevelUp` | TAM_CWCharacter.cpp:433-444 | level and skill points rise by exactly one; the threshold becomes old MaxExp times ExpGrowth; the carried experience is the rounded excess; ExpLeft equals the new MaxExp minus CurrentExp; ExpOverflow is as `BufferExp` leaves it; one more level-up timer is armed; the cap, growth, PreviousCurrentExp and save slot are untouched |
| `Experience.BufferExp` | TAM_CWCharacter.cpp:417-429 | in both branches the carried experience is round(CurrentExp - MaxExp), within half a point of the real excess; ExpLeft is measured against the grown threshold; ExpOverflow ends at 0 when an excess was carried and is kept otherwise; nothing else changes |
| `Experience.LevelCapped` | TAM_CWCharacter.cpp:446-449 | MaxExp and ExpOverflow become CurrentExp and nothing else changes |
| `Experience.Tick` | TAM_CWCharacter.cpp:129-142 | a frame raises the level by at most one, exactly when CurrentExp >= MaxExp below the cap, with one skill point and one timer per level gained; below both threshold and cap it changes nothing; a levelling frame is `LevelUp`, followed by `LevelCapped` when it reaches the cap; at the cap it is `LevelCapped`; a frame that ends at the cap leaves MaxExp equal to CurrentExp; cap, growth and save slot are kept |
| `Experience.SurplusCarriesToNextTick` | TAM_CWCharacter.cpp:129-136 | after a level-up the next frame levels up again exactly when the carried rounded excess still reaches the grown threshold |
| `Experience.TickAtCapFreezes` | TAM_CWCharacter.cpp:139-141 | at the cap a frame only freezes the threshold at the current experience; freezing and ticking are idempotent |
| `Experience.StepPreservesValid` | TAM_CWCharacter.cpp:403-475 | every operation keeps the invariant: level within 1 and the cap, growth at least 1, positive threshold and accurate cached ExpLeft and ExpPercentage below the cap, and a saved level within the cap |
| `Experience.RunPreservesValid` | TAM_CWCharacter.cpp:129-142 | every sequence of grants, frames, saves, loads and spends keeps the invariant, so the level never exceeds the cap |
| `Experience.ProgressRun` | TAM_CWCharacter.cpp:129-142 | any sequence of grants and frames never lowers the level or takes it past the cap. Each level gained adds exactly one skill point and arms one timer. Below the cap the threshold equals the old one times the growth factor to the power of the levels gained |
| `Experience.CapFreezes` | TAM_CWCharacter.cpp:404 | once capped, any sequence of grants and frames leaves level, skill points, experience and timers unchanged and the whole state either unchanged or `LevelCapped` of the start |
| `Experience.SaveData` | TAM_CWCharacter.cpp:458-463 | the save slot holds exactly the four given values and nothing else changes |
| `Experience.SaveGame` | TAM_CWCharacter.cpp:453-456 | the slot holds the current experience, threshold, level and skill points, and the has-saved flag is set; nothing else changes |
| `Experience.LoadData` | TAM_CWCharacter.cpp:465-475 | without a save nothing changes; with one, the four fields come from the slot, ExpLeft and ExpPercentage are recomputed from them (the quotient possibly non-finite), and nothing else changes |
| `Experience.RunKeepsSnapshot` | TAM_CWCharacter.cpp:453-456 | only SaveGame writes the save slot and the has-saved flag |
| `Experience.SaveThenLoadRestores` | TAM_CWCharacter.cpp:453-475 | a save followed by any events without another save, then a load, restores the four saved fields and sets ExpLeft = MaxExp - CurrentExp |
| `Experience.LoadWithoutSaveIsNoop` | TAM_CWCharacter.cpp:465-466 | loading with nothing saved changes nothing |
| `Experience.LoadBeforeFirstSaveIsNoop` | TAM_CWCharacter.cpp:465-475 | from the initial state, loading changes nothing until the first save |
| `Experience.SkillPointsCost` | TAM_CWCharacter.cpp:527-534 | with points left the cost is subtracted, unchecked; with none nothing changes; only skill points ever change |
| `Experience.SpendSkillPoints` | TAM_CWCharacter.cpp:523-525 | with points left exactly one is subtracted; with none nothing changes; only skill points ever change |
| `Experience.SpendSkillPointsStaysNonNegative` | TAM_CWCharacter.cpp:523-525 | spending one point keeps a non-negative balance non-negative and does nothing exactly when the balance is zero |
| `Experience.SkillPointsCostCanOverspend` | TAM_CWCharacter.cpp:527-530 | a cost of two on a balance of one leaves minus one |
| `Experience.PickUpThenLevelUp` | PickUp.cpp:21 | from the initial state a pickup (30), a frame, 80 more and a frame give level 2, one skill point, 10 experience, threshold 120 and 110 left |
| `PlayerCharacter.Character.BeginPlay` | TAM_CWCharacter.cpp:102-111 | the fields take the initial values above, the save arrays are fresh, and the object is valid |
| `PlayerCharacter.Character.GetExp` | TAM_CWCharacter.cpp:350-352 | below the cap the bar fraction is finite and times MaxExp gives CurrentExp |
| `PlayerCharacter.Character.UpdateExp` | TAM_CWCharacter.cpp:403-411 | the new state is `Experience.UpdateExp` of the old, and the object stays valid |
| `PlayerCharacter.Character.AddExp` | TAM_CWCharacter.cpp:413-415 | the new state is a grant of 20 |
| `PlayerCharacter.Character.BufferExp` | TAM_CWCharacter.cpp:417-429 | the new state is `Experience.BufferExp` of the old |
| `PlayerCharacter.Character.LevelUp` | TAM_CWCharacter.cpp:433-444 | the new state is `Experience.LevelUp` of the old |
| `PlayerCharacter.Character.LevelCapped` | TAM_CWCharacter.cpp:446-449 | the new state is `Experience.LevelCapped` of the old |
| `PlayerCharacter.Character.Tick` | TAM_CWCharacter.cpp:129-142 | the new state is `Experience.Tick` of the old, and the object stays valid |
| `PlayerCharacter.Character.SaveData` | TAM_CWCharacter.cpp:458-463 | only the two arrays change, to the four given values |
| `PlayerCharacter.Character.SaveGame` | TAM_CWCharacter.cpp:453-456 | the new state is `Experience.SaveGame` of the old |
| `PlayerCharacter.Character.LoadData` | TAM_CWCharacter.cpp:465-475 | the new state is `Experience.LoadData` of the old, and the object stays valid |
| `PlayerCharacter.Character.SpendSkillPoints` | TAM_CWCharacter.cpp:523-525 | the new state is a charge of one point |
| `PlayerCharacter.Character.SkillPointsCost` | TAM_CWCharacter.cpp:527-534 | the new state is `Experience.SkillPointsCost` of the old |
| `PickUp.OnOverlap` | PickUp.cpp:14-25 | when the other actor is the player character it receives a grant of 30, otherwise nothing changes |
| `PickUp.FirstPickUp` | PickUp.cpp:21 | a pickup on a fresh character gives 30 experience at level 1 |

## Left out

- Engine construction and wiring: components, meshes, the gun attachment and visibility in `BeginPlay`, and the input bindings. They configure engine objects and hold no progression logic.
- Firing, sound, animation, VR reset, movement, turning and touch handling. These are calls into the engine; `TouchUpdate` is commented out in the source.
- The HUD text getters, the pause menu and pause/resume. These are UI formatting and player-controller side effects.
- The on-screen debug messages, "Level Up!" (`PrintLevelUpMessage`) and "No skill points to spend". A failed spend is modelled as leaving the state unchanged.
- The level-up timer is modelled only as the counter `LevelUpTimerRequests`, one per level-up. The timer's delay and re-arming are engine behaviour and are not modelled, and neither is its firing.
- The game mode is engine glue: it finds classes, creates the HUD widget and casts the pawn.
- The pickup's `Destroy()` and the actor lifecycle. Only the experience grant is modelled.
- IEEE-754 float behaviour. The model uses exact reals: `1.2f` is taken as exactly 1.2, the float `!=` in `BufferExp` as real inequality, and infinity and NaN are not told apart (`NonFinite`).
- `Tick`'s frame time is taken as a parameter and ignored, as in the source.
- The class header is not part of this model. The save flag `hasSaved` and the save arrays are taken to start false and zeroed, as engine objects are zero-initialised.
- `Experience.SkillPointsCost`: does not model the 32-bit width of C++ `int` for `CurrentLevel`, `SkillPoints` and `Cost`. Overflow of `SkillPoints - Cost` is undefined behaviour in C++ (for example `SkillPoints = 1, Cost = INT_MIN`), but the model uses unbounded integers. The only caller in the source passes a cost of 1, from `SpendSkillPoints`.
- `Experience.ProgressRun`: the level is non-decreasing only over grants and frames, because `LoadData` may restore a lower saved level.
