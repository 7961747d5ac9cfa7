# F1 race engine — a verified Dafny model

This project models the race engine of the F1-Sim repository in Dafny. It
covers:

- **the two tyre models**:
  - the sector-level `TyreModel` of `src/models/TyreModel.py`;
  - the lap-level variant of `src/sim/TyreModel.py`.
- **the sector-level car agent** (`src/agents/CarAgent.py`): sector steps, the reliability
  check, wear after every third sector, pit requests and team instructions.
- **the two-car team agent** (`src/agents/TeamAgent.py`): a one-stop plan, the
  per-lap decision, and applying a pit to both cars.
- **the lap-level race manager** (`src/sim/RaceManager.py`): building the teams, the lap
  step, the race loop.
- **the race snapshot** (`src/sim/RaceState.py`).
- **the minimal lap-level car** (`src/agents/Car_Agent.py`): its inline tyre curve and
  start-lap penalty.
- **the minimal race manager** (`src/sim/Race_Manager.py`): compound resolution with
  circuit aliases, the 20-car grid, and the race loop with one pit stop for the whole field
  and re-ordering by total time after every lap.
- **the multi-car lap simulator** `SimVersions/simulator_v0_8.py`: its tyre delta, the
  grid ordered by team pace, the race loop with a pit-once guard and a lap time clamped at
  0, and the classification.

Seconds are `real`. The configuration documents are parameters: records and maps in
`Configs`, already parsed. A key that may be absent is an `Option`, and an error the source
raises is an `Err` of `Wrappers.Result`.

Every random draw is a parameter:

- the uniform reliability draw;
- the standard-normal noise draws, scaled by the spread as the source scales them;
- in the race loops, draws indexed by lap and by the car's position in the running order.

Objects the source updates in place are classes: `TyreState`, `CarAgent`, `TeamAgent`,
`RaceManager`, `RaceState`, `MvpCarAgent` (for `Car_Agent`) and `DriverState`. The step
methods are proved against value-level functions:

- `CarAgent.StepSector` against `StepSectorSpec`;
- `DriverState.RunLap` against `LapStep`;
- the whole v0.8 race against `RunLaps`.

The setters and bookkeeping methods state their new state directly. These include
`RaceState.Update`, `TeamAgent.ApplyDecision`, `RaceManager.StepLap` and `MvpCarAgent.SetTyre`.
The properties the source promises are lemmas about those functions.

Shared pieces:

- `Stint` is the one-stop tyre stint the lap-level race loops share.
- `Sorting` is the stable sort by a real key that both classifications use, proved to
  return a sorted permutation.

`CarAgent.AdjustForTraffic` and `CarAgent.AttemptOvertake` are the source's placeholders.
They are modelled as the identity and as `false`.

A few behaviours of the code are easy to misread. The model states each of them as the code
has it:

- **Scaling in `src/models/TyreModel.py`.** `lap_delta` multiplies the whole sum, warm-up
  included, by the track multiplier and the team factor (lines 78-79). So at age 0 the
  delta is the start penalty times both factors (`TyreModel.LapDelta`).
- **Warm-up end point in `src/models/TyreModel.py`.** The warm-up share is
  `1 - life / warmup_laps` (line 71). It reaches 0 at `warmup_laps`, not at
  `warmup_laps - 1` (`TyreModel.WarmupFraction`).
- **Clamp in `simulator_v0_8.py`.** A negative lap time is set to exactly 0 (lines 286-287;
  `SimulatorV08.LapTime`).
- **Negative life in `simulator_v0_8.py`.** `tyre_delta_seconds` does not clamp a negative
  life (lines 113-118). See `SimulatorV08.NegativeLifeIsNotClamped`.
- **Warm-up clamp in `Car_Agent.py`.** A negative warm-up term is set to 0
  (src/agents/Car_Agent.py:77-78). So at life 0 the term is the full start penalty only when
  that penalty is not negative, or when the warm-up window is a single lap
  (`MvpCarAgent.WarmupPenalty`).

## Model

| member | source | states |
|---|---|---|
| Configs.CompoundLookup | SimVersions/simulator_v0_8.py:132-140 | a label resolves iff season, circuit and label are all present, to the table's entry; the first missing key is the KeyError, an unknown season naming the season |
| TyreModel.TyreState.constructor | src/models/TyreModel.py:16-19 | a tyre state holds exactly the given compound and age |
| TyreModel.Advance | src/models/TyreModel.py:47-51 | the age grows by exactly `laps` and the compound is unchanged |
| TyreModel.WarmupFraction | src/models/TyreModel.py:70-71 | inside the warm-up window the remaining share is in (0, 1], and 1 at life 0 |
| TyreModel.WarmupPenalty | src/models/TyreModel.py:69-72 | 0 outside the window or with no window; the full start penalty at life 0; between 0 and the start penalty when that is non-negative |
| TyreModel.DegAge | src/models/TyreModel.py:75 | laps past the peak: 0 inside the peak window, `life - peak_life` after it |
| TyreModel.DegPenalty | src/models/TyreModel.py:75-76 | no degradation up to `peak_life`; never negative with non-negative coefficients |
| TyreModel.Life | src/models/TyreModel.py:66 | a negative age reads as 0, any other age as itself |
| TyreModel.LapDelta | src/models/TyreModel.py:56-79 | 0 when either scaling factor is 0; at age 0 (with a warm-up window and `peak_life >= 0`) the start penalty times track times team |
| TyreModel.LapDeltaNonNegative | src/models/TyreModel.py:65-79 | with non-negative coefficients and factors the delta is never a gain |
| TyreModel.NegativeAgeIsFresh | src/models/TyreModel.py:66 | a negative age gives the delta of age 0 |
| TyreModel.NoPenaltyInPeakWindow | src/models/TyreModel.py:69-79 | past warm-up and up to `peak_life` the delta is 0 whatever the factors |
| SimTyreModel.WarmupPenalty | src/sim/TyreModel.py:50-57 | 0 outside the window; full start penalty at life 0 (also for a one-lap window); exactly 0 at `warmup_laps - 1`; within [0, start penalty] when that is non-negative |
| SimTyreModel.WarmupScale | src/sim/TyreModel.py:64 | the warm-up scale is 1 on a neutral track, at least 0.7 for a non-negative multiplier and at most 1 for a multiplier up to 1 |
| SimTyreModel.LapDelta | src/sim/TyreModel.py:36-65 | the delta is never negative |
| SimTyreModel.NegativeLifeIsFresh | src/sim/TyreModel.py:47 | a negative life gives the delta of life 0 |
| SimTyreModel.FreshTyreDelta | src/sim/TyreModel.py:50-64 | at life 0 the delta is the clamped start penalty times `0.7 + 0.3 * track`, independent of the team factor |
| SimTyreModel.TeamFactorOnlyScalesDegradation | src/sim/TyreModel.py:59-64 | up to `peak_life` the team factor does not affect the delta |
| SimTyreModel.PostWarmupDelta | src/sim/TyreModel.py:59-65 | past warm-up the delta is the clamped `deg_linear * a + deg_quadratic * a^2` (a = laps past the peak) times track and team |
| SimTyreModel.AgreesWithSectorModelAfterWarmup | src/sim/TyreModel.py:59-65 | past warm-up the two tyre models agree whenever the scaled degradation is non-negative |
| CarAgent.ReliabilityFailure | src/agents/CarAgent.py:116-119 | a failure exactly when the probability is positive and the draw is below it; so never one when the probability is not positive, and always one for a draw in [0, 1) when it is at least 1 |
| CarAgent.SectorNoise | src/agents/CarAgent.py:62-63 | no noise without a lap-time spread on the calibration, or with a zero draw |
| CarAgent.AdjustForTraffic | src/agents/CarAgent.py:88-89 | the traffic placeholder passes the time through unchanged |
| CarAgent.AttemptOvertake | src/agents/CarAgent.py:91-92 | the overtaking placeholder never attempts a pass |
| CarAgent.SectorTime | src/agents/CarAgent.py:57-66 | without noise, three times the sector time is three sector base times plus the whole team offset plus the whole tyre delta |
| CarAgent.StepSectorSpec | src/agents/CarAgent.py:48-75 | a retired car is unchanged and gets 0; a failing car retires with 0 and no time added; otherwise the total grows by exactly the sector time, the counter stays in 0..2 and the age rises by 1 exactly on the third sector |
| CarAgent.RunSectors | src/agents/CarAgent.py:48-75 | over any number of sectors the compound never changes, the counter stays in 0..2 and a retired car stays as it is |
| CarAgent.TyreAgesOncePerThreeSectors | src/agents/CarAgent.py:70-73 | without failures, after n sectors the counter is (c + n) mod 3 and the age has grown by (c + n) div 3 |
| CarAgent.ThreeSectorsMakeALap | src/agents/CarAgent.py:57-73 | with zero noise three sectors from counter 0 add 3 * sector base + team offset + the tyre delta at the starting age, and age the tyre by one lap |
| CarAgent.CarAgent.constructor | src/agents/CarAgent.py:21-42 | a new car: no gaps, green track, no instruction, time 0, running, counter 0, no pit pending |
| CarAgent.CarAgent.StepSector | src/agents/CarAgent.py:48-75 | the new state and the returned time are those of `StepSectorSpec` on the old state |
| CarAgent.CarAgent.UpdateTyreWear | src/agents/CarAgent.py:81-82 | the tyre ages by one lap on the same compound |
| CarAgent.CarAgent.Pit | src/agents/CarAgent.py:101-107 | sets the pit request and compound, touching neither tyre nor time |
| CarAgent.CarAgent.ApplyTeamInstruction | src/agents/CarAgent.py:109-110 | stores the instruction and nothing else |
| TeamAgent.TeamAgent.constructor | src/agents/TeamAgent.py:35-44 | a two-car team with no plan |
| TeamAgent.NewTeamAgent | src/agents/TeamAgent.py:35-44 | succeeds iff exactly two cars are given, else the ValueError; a new team holds those cars and no plan |
| TeamAgent.TeamAgent.SetBasicStrategy | src/agents/TeamAgent.py:49-54 | stores exactly the given lap and compound |
| TeamAgent.TeamAgent.Decide | src/agents/TeamAgent.py:56-69 | pit iff the current lap is the planned lap, onto the target compound; stay out otherwise and when nothing is planned |
| TeamAgent.TeamAgent.ApplyDecision | src/agents/TeamAgent.py:74-88 | no pit changes nothing; a pit puts both cars on the decided compound at age 0; only tyre states change, so no total time changes |
| RaceManager.TeamBuildError | src/sim/RaceManager.py:75-112 | a team builds iff it lists at least two drivers and both labels resolve; fewer than two drivers is the two-car ValueError |
| RaceManager.FirstBuildError | src/sim/RaceManager.py:73-114 | the roster builds iff every team builds |
| RaceManager.FirstBuildErrorOfPrefix | src/sim/RaceManager.py:75-114 | the first failing team decides the build's error |
| RaceManager.RaceManager.constructor | src/sim/RaceManager.py:40-63 | stores circuit, season, tyre model and teams; the lap counter starts at 0 |
| RaceManager.RaceManager.StepLap | src/sim/RaceManager.py:119-146 | the counter grows by 1; one lap time per car, team by team; a car of a team that pits this lap is on the target compound at age 1, any other car is one lap older on its compound |
| RaceManager.RaceManager.RunRace | src/sim/RaceManager.py:151-158 | exactly `total_laps` laps (none if not positive); each car ends on its stint's compound and age |
| RaceManager.RaceManager.ApplyDecisions | src/sim/RaceManager.py:126-132 | every team of the planned lap has both cars on the target compound at age 0; all other tyres are unchanged |
| RaceManager.RaceManager.StepCars | src/sim/RaceManager.py:134-146 | every car ages by one lap and its estimate is reported at index 2 * team + car |
| RaceManager.RaceManager.StepTeamCars | src/sim/RaceManager.py:136-144 | both cars of a team age by one lap and report their estimates in order |
| RaceManager.Build | src/sim/RaceManager.py:53-114 | unknown season is a KeyError; otherwise fails iff some team fails, with the first team's error; on success the manager and every car hold the one given tyre model, with one team per roster entry, its first two drivers on the MEDIUM compound at age 0, a lap-20 plan onto HARD, and no shared tyre states |
| RaceManager.BuildTeam | src/sim/RaceManager.py:75-114 | one team's build fails exactly as `TeamBuildError` says; otherwise two new cars from the first two drivers, both on the given tyre model |
| RaceManager.BuildTeams | src/sim/RaceManager.py:75-114 | fails iff some team fails, with the first team's error; on success one team per roster entry, in order, with its two new cars on MEDIUM at age 0 and on the shared tyre model, the lap-20 HARD plan and no shared tyre states |
| RaceState.RaceState.constructor | src/sim/RaceState.py:19-23 | lap 0, green, dry, no snapshots |
| RaceState.RaceState.Update | src/sim/RaceState.py:25-29 | all four fields take exactly the given values |
| RaceState.RaceState.GetPublicView | src/sim/RaceState.py:31-32 | returns the stored snapshots and changes nothing |
| MvpCarAgent.Resolve | src/agents/Car_Agent.py:61-66 | every absent tyre key reads as 0 |
| MvpCarAgent.WarmupPenalty | src/agents/Car_Agent.py:68-78 | 0 outside the window; at life 0 the start penalty (clamped at 0 for windows longer than a lap); exactly 0 at `warmup_laps - 1`; never negative for windows longer than a lap |
| MvpCarAgent.StartPenalty | src/agents/Car_Agent.py:56-58 | the start-lap penalty applies iff it is switched on and the lap is lap 1 |
| MvpCarAgent.ScaledDegradation | src/agents/Car_Agent.py:80-86 | 0 up to `peak_life`; never negative with non-negative coefficients, track multiplier and team factor |
| MvpCarAgent.LapTime | src/agents/Car_Agent.py:49-93 | with a non-negative start penalty and coefficients, and non-negative track and team factors, the tyre never makes a lap faster than base + pace + start penalty + noise |
| MvpCarAgent.LapNoise | src/agents/Car_Agent.py:91-93 | no noise when it is off or the lap-time spread is not positive |
| MvpCarAgent.MissingTyreKeysCostNothing | src/agents/Car_Agent.py:54-93 | with noise off and an empty tyre record the lap is base + pace offset + start penalty |
| MvpCarAgent.WarmupIsUnscaled | src/agents/Car_Agent.py:68-89 | up to `peak_life`, neither track multiplier nor degradation factor changes the lap time |
| MvpCarAgent.StartPenaltyOnlyOnLapOne | src/agents/Car_Agent.py:56-58 | switching the start penalty on adds it on lap 1 and nothing on other laps |
| MvpCarAgent.WarmupAgreesWithSimTyreModel | src/agents/Car_Agent.py:68-78 | for a non-negative start penalty the warm-up equals the lap-level tyre model's |
| MvpCarAgent.MvpCarAgent.constructor | src/agents/Car_Agent.py:21-29 | a new car on the start tyre at life 0 and time 0 |
| MvpCarAgent.MvpCarAgent.SetTyre | src/agents/Car_Agent.py:31-33 | sets the tyre, resets the life and leaves the time alone |
| MvpCarAgent.MvpCarAgent.StepLap | src/agents/Car_Agent.py:35-99 | returns `LapTime` of the old life, adds exactly it to the total and ages the tyre by 1 |
| MvpCarAgent.MvpCarAgent.WarmupOf | src/agents/Car_Agent.py:68-78 | the warm-up term a lap adds is exactly `WarmupPenalty` of the current life |
| MvpRaceManager.AliasesAreSymmetric | src/sim/Race_Manager.py:22-25 | each alias maps back to its origin and differs from it |
| MvpRaceManager.SeasonBlock | src/sim/Race_Manager.py:50 | an unknown season reads as no circuits |
| MvpRaceManager.ResolveCompound | src/sim/Race_Manager.py:46-59 | the direct entry wins, else the alias entry, else the no-mapping KeyError; success implies a mapping |
| MvpRaceManager.MexicanNamesResolveAlike | src/sim/Race_Manager.py:46-59 | when one of the two Mexican names has an entry, both names resolve every label alike |
| MvpRaceManager.Performance | src/sim/Race_Manager.py:75-79 | pace and degradation copied; absent pit spread is 1.0 |
| MvpRaceManager.TeamSlots | src/sim/Race_Manager.py:89-93 | a team enters its first two listed drivers, at most two |
| MvpRaceManager.GridDrivers | src/sim/Race_Manager.py:69-93 | at most two cars per team |
| MvpRaceManager.GridOfConcatenation | src/sim/Race_Manager.py:69-93 | teams' cars stay together in roster order |
| MvpRaceManager.FullTeamsFillTheGrid | src/sim/Race_Manager.py:88-98 | with two or more drivers per team the grid has exactly two cars per team |
| MvpRaceManager.TeamTable | src/sim/Race_Manager.py:66-86 | one entry per team name; the last team of the roster has its own figures |
| MvpRaceManager.TeamTableLastWins | src/sim/Race_Manager.py:66-86 | any team that no later team shares its name with keeps its own figures: a later duplicate name overwrites an earlier one |
| MvpRaceManager.NatToString | src/sim/Race_Manager.py:98 | at least one decimal digit, no leading zero, and the digits denote exactly the car count |
| MvpRaceManager.GridError | src/sim/Race_Manager.py:61-98 | unknown season is the KeyError; otherwise an error iff the grid is not 20 cars |
| MvpRaceManager.BuildTeamsAndGrid | src/sim/Race_Manager.py:61-100 | fails exactly as `GridError` says; on success the team table and 20 distinct new cars matching the grid slots on C3 at life 0 and time 0 |
| MvpRaceManager.EnterTeams | src/sim/Race_Manager.py:69-93 | the team table is `TeamTable` (a later duplicate name wins); the cars are distinct, new, and match the grid slots one to one on C3 at life 0 and time 0 |
| MvpRaceManager.EnterTeam | src/sim/Race_Manager.py:89-93 | one new car per entered driver, in order |
| MvpRaceManager.PitNoise | src/sim/Race_Manager.py:147-148 | no pit noise when noise is off, the spread is not positive or the draw is 0 |
| MvpRaceManager.RunError | src/sim/Race_Manager.py:116-162 | an unknown circuit is the first error; then a failed start label; no error implies the grid builds |
| MvpRaceManager.FitAll | src/sim/Race_Manager.py:131-132 | every car on the start tyre at life 0, times unchanged |
| MvpRaceManager.PitAll | src/sim/Race_Manager.py:144-150 | every car gains pit loss plus its team's pit noise and moves to the end tyre at life 0 |
| MvpRaceManager.PitCar | src/sim/Race_Manager.py:146-150 | one car gains pit loss plus its team's pit noise and is on the end tyre at life 0 |
| MvpRaceManager.StepAll | src/sim/Race_Manager.py:153-162 | every car gains its lap time and ages by one lap on the same tyre |
| MvpRaceManager.SortByTotalTime | src/sim/Race_Manager.py:165 | the same cars in non-decreasing total time |
| MvpRaceManager.RaceLaps | src/sim/Race_Manager.py:142-173 | fails iff some lap's tyre is missing, with the first such KeyError; otherwise a distinct, sorted permutation of the field, all on the stint's final tyre and life; each lap is one `RaceLap` |
| MvpRaceManager.FinishLap | src/sim/Race_Manager.py:152-165 | each car gains exactly its lap time on the stint's tyre and life with the draw of its running position; then the field is a distinct sorted permutation of the same cars, all on the stint's tyre and life after this lap |
| MvpRaceManager.RaceLap | src/sim/Race_Manager.py:142-165 | the lap fails iff its tyre is missing, with that KeyError; otherwise each car gains the pit loss plus its pit noise on the pit lap only, plus its lap time, and the field comes back sorted, distinct and on the stint's tyre and life |
| MvpRaceManager.Reorder | src/sim/Race_Manager.py:165 | the re-ordered field is a sorted permutation with the same cars |
| MvpRaceManager.Run | src/sim/Race_Manager.py:102-173 | fails exactly as `RunError` says; on success the 20 grid cars in grid-slot order, re-ordered fastest first, all on the final stint tyre and life |
| Stint.LifeAfter | src/sim/Race_Manager.py:142-162 | the life counts laps since the pit stop once it has come, since the start before; never more than the laps run |
| Stint.LifeAfterOneMoreLap | src/sim/Race_Manager.py:144-162 | each lap adds one to the life, except the pit lap which makes it 1 |
| Stint.LifeOnLap | src/sim/Race_Manager.py:142-162 | the life a lap is run on is one less than the life after it, and 0 on the pit lap |
| Stint.TyreAfter | src/sim/Race_Manager.py:142-150 | the start tyre before the pit lap (or without one), the end tyre from the pit lap on |
| Stint.TyreChangesOnlyOnPitLap | src/sim/Race_Manager.py:142-150 | the tyre differs from one lap to the next only across the pit lap |
| Stint.TyreError | src/sim/Race_Manager.py:142-162 | no error iff every lap's tyre is in the tyre table |
| Stint.TyreErrorAtFirstMissingLap | src/sim/Race_Manager.py:142-162 | the error is the KeyError of the first lap whose tyre is missing |
| Sorting.Insert | SimVersions/simulator_v0_8.py:180-181 | inserting adds exactly one copy of the element |
| Sorting.InsertSorted | SimVersions/simulator_v0_8.py:180-181 | inserting into a sorted sequence keeps it sorted |
| Sorting.SortByKey | SimVersions/simulator_v0_8.py:180-181 | the result is a permutation of the input in non-decreasing key order |
| Sorting.PermutationKeepsDistinct | src/sim/Race_Manager.py:165 | re-ordering distinct cars leaves them distinct |
| SimulatorV08.WarmupTerm | SimVersions/simulator_v0_8.py:113-118 | 0 from `warmup_laps` on or with no window; full at life 0; within [0, start penalty] for non-negative lives and penalty |
| SimulatorV08.DegradationTerm | SimVersions/simulator_v0_8.py:120-124 | 0 up to `peak_life`; never negative with non-negative coefficients |
| SimulatorV08.TyreDeltaSeconds | SimVersions/simulator_v0_8.py:98-126 | at life 0 the start penalty times track times team; 0 when either factor is 0 |
| SimulatorV08.NoDeltaInPeakWindow | SimVersions/simulator_v0_8.py:113-126 | from the end of warm-up up to `peak_life` the delta is 0 |
| SimulatorV08.AgreesWithSectorTyreModel | SimVersions/simulator_v0_8.py:98-126 | for non-negative lives the delta equals the sector-level tyre model's |
| SimulatorV08.NegativeLifeIsNotClamped | SimVersions/simulator_v0_8.py:113-118 | at life -1 the delta exceeds the start penalty, unlike the sector-level model |
| SimulatorV08.PerfOf | SimVersions/simulator_v0_8.py:153-158 | a team's figures, or the KeyError of a missing pit spread |
| SimulatorV08.PerfTable | SimVersions/simulator_v0_8.py:148-158 | succeeds iff every team has a pit spread; one entry per team name holding that team's figures |
| SimulatorV08.DriversOf | SimVersions/simulator_v0_8.py:165 | the drivers of the named team |
| SimulatorV08.Entrants | SimVersions/simulator_v0_8.py:165-169 | one entrant per listed driver, in order, with the team's name |
| SimulatorV08.Lineup | SimVersions/simulator_v0_8.py:163-169 | every entrant drives for a team of the given order |
| SimulatorV08.LineupOfConcatenation | SimVersions/simulator_v0_8.py:163-169 | each team's drivers stay consecutive in the order of teams |
| SimulatorV08.DriverState.constructor | SimVersions/simulator_v0_8.py:67-74 | a new driver with time 0, no compound, life 0, not pitted |
| SimulatorV08.DriverState.RunLap | SimVersions/simulator_v0_8.py:247-290 | the new state is `LapStep` of the old one |
| SimulatorV08.BuildGrid | SimVersions/simulator_v0_8.py:147-174 | unknown season and a missing pit spread are KeyErrors; on success the team table, the teams by ascending pace offset (a permutation of the season's), and one new driver per listed driver, team by team |
| SimulatorV08.StoreTeamPerf | SimVersions/simulator_v0_8.py:151-158 | the loop builds exactly `PerfTable` |
| SimulatorV08.PaceOrderOfSorted | SimVersions/simulator_v0_8.py:160-161 | sorting the names by pace offset orders the teams by pace |
| SimulatorV08.LineUp | SimVersions/simulator_v0_8.py:163-169 | new distinct drivers matching the lineup of the team order |
| SimulatorV08.EnterTeam | SimVersions/simulator_v0_8.py:165-169 | one new driver per listed driver of a team, in order |
| SimulatorV08.Settings | SimVersions/simulator_v0_8.py:216-221 | a missing lap-time spread is a KeyError; the track multiplier defaults to 1.0 |
| SimulatorV08.PitTime | SimVersions/simulator_v0_8.py:251-255 | the pit loss alone when pit noise is off, the spread is not positive or the draw is 0 |
| SimulatorV08.RawLapTime | SimVersions/simulator_v0_8.py:262-285 | without spread or with a zero draw, the raw time is base plus pace offset plus tyre delta plus the lap-1 extra |
| SimulatorV08.LapTime | SimVersions/simulator_v0_8.py:285-287 | never negative, never below the raw time, equal to it when that is non-negative |
| SimulatorV08.LapStep | SimVersions/simulator_v0_8.py:250-290 | pitted once the pit lap is reached; the new compound only on the pit lap; life 1 after a stop, else one more; time grows by at least the pit time |
| SimulatorV08.RunLaps | SimVersions/simulator_v0_8.py:241-290 | after n laps the driver is on the stint's tyre at the stint's life, pitted iff n >= 20 |
| SimulatorV08.RunLapsOneMore | SimVersions/simulator_v0_8.py:241-290 | when no tyre up to lap n+1 is missing, lap n+1 is on a known compound and `RunLaps` of n+1 is one `LapStep` after `RunLaps` of n |
| SimulatorV08.TotalTimeNeverDecreases | SimVersions/simulator_v0_8.py:285-289 | between any two laps the total grows by at least the pit time if the stop lies between them, else by at least 0 |
| SimulatorV08.PitsAtMostOnce | SimVersions/simulator_v0_8.py:251-260 | once pitted the compound stays and the life only counts laps |
| SimulatorV08.StartAll | SimVersions/simulator_v0_8.py:228-233 | every driver on the start compound, life 0, time 0, not pitted |
| SimulatorV08.RunLapAll | SimVersions/simulator_v0_8.py:247-290 | every driver takes exactly one `LapStep` with its own draws |
| SimulatorV08.RunRace | SimVersions/simulator_v0_8.py:228-290 | fails iff there are drivers and some lap's tyre is missing, with the first such KeyError; otherwise every driver ends in its `RunLaps` state |
| SimulatorV08.RaceLoop | SimVersions/simulator_v0_8.py:241-290 | from the start state: fails iff there are drivers and some lap's tyre is missing, with the first such KeyError; otherwise every driver ends in its `RunLaps` state |
| SimulatorV08.RaceLap | SimVersions/simulator_v0_8.py:242-290 | one more lap takes every driver from its `RunLaps` state after `lap - 1` laps to the one after `lap` laps |
| SimulatorV08.Classify | SimVersions/simulator_v0_8.py:180-181 | a permutation of the drivers in non-decreasing total time |
| SimulatorV08.SimulateError | SimVersions/simulator_v0_8.py:216-290 | an unknown circuit is the first error; no error implies circuit and season exist |
| SimulatorV08.Simulate | SimVersions/simulator_v0_8.py:208-297 | fails exactly as `SimulateError` says; on success a distinct, sorted permutation of the grid, which follows the pace order, each driver in its `RunLaps` state |

## Left out

- The tick-based spatial engine (track segments, DRS, battles): it is not in the modelled files; `CarAgent.defend_position` is a placeholder that does nothing and is not modelled.
- Loading the JSON documents, all printing (`run_race`'s per-lap output, `print_top10_with_gaps`, `format_gap`, the `include_formation_lap` and `print_interval` switches of `Race_Manager.run`, which only print), and the random generators: draws are parameters.
- IEEE floating point: seconds are exact reals; no rounding or overflow is modelled.
- The `Team_Agent`, `TeamPerformance` and `StrategyProfile` module is not part of this model; the race manager's cars see only pace offset, degradation factor and pit spread. Its strategy profile defaults are therefore not modelled.
- `CarAgent.estimate_clean_air_lap_time` is not part of this model (the car agent does not define it); the lap step takes it as a function parameter.
- Keys missing inside tyre records (the sector model, the lap-level model and v0.8 read all five), inside circuit records other than those modelled as optional, and inside driver and performance records: the model assumes they are present.
- CarAgent.CarAgent.StepSector: the `lap_time_std` parameter is accepted and unused, as in the source.
- TeamAgent.TeamAgent.ApplyDecision: the `pit_loss` parameter is accepted and unused, as in the source.
- Sorting.SortByKey: stability (equal totals keep their order) is implemented but not stated.
- SimulatorV08.BuildGrid: requires distinct team names, which the source gets from the keys of one JSON object; the tie order of teams with equal pace is not stated.
- MvpRaceManager.RaceLaps: each lap's time gain per car is stated by `RaceLap`, with the pit time on the pit lap only. The cumulative total over the race is not given in closed form, because the draw a car gets depends on its running position, which the times themselves decide.
- MvpRaceManager.Run: the final total times are stated lap by lap (`RaceLap`), for the same reason as `RaceLaps`, not as a closed form over the race.
- MvpRaceManager.SortByTotalTime: `list.sort` works in place; the model assigns the sorted sequence back, so aliasing of the list object is not modelled.
- RaceState.RaceState.GetPublicView: the source returns the stored list itself, so a caller could mutate the state through it; the model returns a value.
- Configs.CompoundTable: the document's `"season"` and `"compounds"` wrapper levels are flattened away.
