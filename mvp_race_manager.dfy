/**
 * The lap-level race manager (src/sim/Race_Manager.py): it resolves race
 * labels to compound codes, with an alias table for circuits named
 * differently in the two configuration documents, builds a 20-car grid of
 * lap-level car agents from a season's teams, and runs the race lap by
 * lap: every car pits on the pit lap, every car runs the lap, and the
 * field is re-ordered by total time. The configuration documents are
 * parameters, and each random draw is a parameter indexed by lap and by
 * the car's position in the running order.
 */
module MvpRaceManager {
  import opened Wrappers
  import opened Configs
  import TyreModel
  import opened MvpCarAgent
  import Sorting
  import opened Stint

  // ---------------------------------------------------------------
  // Compound resolution
  // ---------------------------------------------------------------

  /** Circuits that carry different names in the circuit and compound documents. */
  const CircuitAliases: map<string, string> := map[
    "Mexico City Grand Prix" := "Mexican Grand Prix",
    "Mexican Grand Prix" := "Mexico City Grand Prix"]

  /** Each alias leads back to the name it came from. */
  lemma AliasesAreSymmetric()
    ensures forall a :: a in CircuitAliases ==>
      CircuitAliases[a] in CircuitAliases && CircuitAliases[CircuitAliases[a]] == a
    ensures forall a :: a in CircuitAliases ==> CircuitAliases[a] != a
  {
  }

  /** The season's circuits; an unknown season reads as having none. */
  function SeasonBlock(cfg: CompoundTable, season: string): (block: map<string, map<string, string>>)
    ensures season in cfg ==> block == cfg[season]
    ensures season !in cfg ==> block == map[]
  {
    if season in cfg then cfg[season] else map[]
  }

  /** The circuit has an entry of its own, or its alias has one. */
  predicate HasMapping(block: map<string, map<string, string>>, circuit: string)
  {
    circuit in block || (circuit in CircuitAliases && CircuitAliases[circuit] in block)
  }

  function NoMappingMessage(season: string, circuit: string): string
  {
    "No tyre compound mapping for season=" + season + " circuit='" + circuit + "' (or alias)."
  }

  /**
   * Resolves a race label for a season and circuit. The circuit's own
   * entry wins when there is one, even if it lacks the label; otherwise
   * the alias's entry is used; with neither there is no mapping.
   */
  function ResolveCompound(cfg: CompoundTable, season: string, circuit: string, semantic: string): (r: Result<string>)
    ensures season in cfg && circuit in cfg[season] ==> r == CompoundLookup(cfg, season, circuit, semantic)
    ensures season in cfg && circuit !in cfg[season] && circuit in CircuitAliases && CircuitAliases[circuit] in cfg[season]
            ==> r == CompoundLookup(cfg, season, CircuitAliases[circuit], semantic)
    ensures !HasMapping(SeasonBlock(cfg, season), circuit) ==> r == Err(KeyError(NoMappingMessage(season, circuit)))
    ensures r.Ok? ==> season in cfg && HasMapping(cfg[season], circuit)
  {
    var block := SeasonBlock(cfg, season);
    if circuit in block then
      if semantic in block[circuit] then Ok(block[circuit][semantic]) else Err(KeyError(semantic))
    else if circuit in CircuitAliases && CircuitAliases[circuit] in block then
      var alias := CircuitAliases[circuit];
      if semantic in block[alias] then Ok(block[alias][semantic]) else Err(KeyError(semantic))
    else
      Err(KeyError(NoMappingMessage(season, circuit)))
  }

  /**
   * When only one of the two Mexican names has an entry, both names
   * resolve every label to the same compound.
   */
  lemma MexicanNamesResolveAlike(cfg: CompoundTable, season: string, semantic: string)
    requires season in cfg
    requires ("Mexico City Grand Prix" in cfg[season]) != ("Mexican Grand Prix" in cfg[season])
    ensures ResolveCompound(cfg, season, "Mexico City Grand Prix", semantic)
         == ResolveCompound(cfg, season, "Mexican Grand Prix", semantic)
  {
  }

  // ---------------------------------------------------------------
  // Grid
  // ---------------------------------------------------------------

  /** One car of the grid: its driver and the team it drives for. */
  datatype GridSlot = GridSlot(driver: DriverInfo, teamName: string, team: TeamPerformance)

  /** The built teams by name, and the cars in grid order. */
  datatype Grid = Grid(teams: map<string, TeamPerformance>, cars: seq<MvpCarAgent>)

  const GridSize := 20
  const DefaultPitExecutionStd := 1.0

  /** A team's performance figures; an absent pit-execution spread is 1.0. */
  function Performance(p: PerformanceEntry): (perf: TeamPerformance)
    ensures perf.paceOffset == p.paceOffset && perf.degradationFactor == p.degradationFactor
    ensures p.pitExecutionStd.None? ==> perf.pitExecutionStd == DefaultPitExecutionStd
    ensures p.pitExecutionStd.Some? ==> perf.pitExecutionStd == p.pitExecutionStd.value
  {
    TeamPerformance(p.paceOffset, p.degradationFactor, GetOr(p.pitExecutionStd, DefaultPitExecutionStd))
  }

  /** The cars a team enters: its first two listed drivers, in list order. */
  function TeamSlots(t: TeamEntry): (slots: seq<GridSlot>)
    ensures |slots| == TyreModel.MinInt(2, |t.drivers|) && |slots| <= 2
    ensures forall k :: 0 <= k < |slots| ==>
      slots[k] == GridSlot(DriverInfo(t.drivers[k].name, t.drivers[k].number), t.name, Performance(t.performance))
  {
    seq(TyreModel.MinInt(2, |t.drivers|), k requires 0 <= k < TyreModel.MinInt(2, |t.drivers|) =>
      GridSlot(DriverInfo(t.drivers[k].name, t.drivers[k].number), t.name, Performance(t.performance)))
  }

  /** The grid in team order, each team's cars next to each other. */
  function GridDrivers(ts: seq<TeamEntry>): (g: seq<GridSlot>)
    ensures |g| <= 2 * |ts|
    decreases |ts|
  {
    if ts == [] then [] else GridDrivers(ts[..|ts| - 1]) + TeamSlots(ts[|ts| - 1])
  }

  /** The grid of two lists of teams is the first's grid followed by the second's. */
  lemma {:induction false} GridOfConcatenation(a: seq<TeamEntry>, b: seq<TeamEntry>)
    ensures GridDrivers(a + b) == GridDrivers(a) + GridDrivers(b)
    decreases |b|
  {
    if b == [] {
      assert a + b == a;
    } else {
      var init, last := b[..|b| - 1], b[|b| - 1];
      var ab := a + b;
      assert ab[..|ab| - 1] == a + init && ab[|ab| - 1] == last;
      assert GridDrivers(ab) == GridDrivers(a + init) + TeamSlots(last);
      assert GridDrivers(b) == GridDrivers(init) + TeamSlots(last);
      GridOfConcatenation(a, init);
    }
  }

  /** When every team lists at least two drivers, every team enters exactly two cars. */
  lemma {:induction false} FullTeamsFillTheGrid(ts: seq<TeamEntry>)
    requires forall t :: t in ts ==> |t.drivers| >= 2
    ensures |GridDrivers(ts)| == 2 * |ts|
    decreases |ts|
  {
    if ts != [] {
      FullTeamsFillTheGrid(ts[..|ts| - 1]);
    }
  }

  /** The team table: each team's name to its performance, a later duplicate name winning. */
  function TeamTable(ts: seq<TeamEntry>): (table: map<string, TeamPerformance>)
    ensures table.Keys == set t | t in ts :: t.name
    ensures ts != [] ==> table[ts[|ts| - 1].name] == Performance(ts[|ts| - 1].performance)
    decreases |ts|
  {
    if ts == [] then map[]
    else
      var last := ts[|ts| - 1];
      var init := ts[..|ts| - 1];
      assert ts == init + [last];
      TeamTable(init)[last.name := Performance(last.performance)]
  }

  /**
   * The team table keeps, for a name, the figures of the last team of that
   * name: a team no later team shares its name with has its own figures.
   */
  lemma {:induction false} TeamTableLastWins(ts: seq<TeamEntry>, i: nat)
    requires i < |ts| && forall j :: i < j < |ts| ==> ts[j].name != ts[i].name
    ensures TeamTable(ts)[ts[i].name] == Performance(ts[i].performance)
    decreases |ts|
  {
    if i < |ts| - 1 {
      var init := ts[..|ts| - 1];
      assert init[i] == ts[i];
      TeamTableLastWins(init, i);
    }
  }

  /** The cars correspond one to one to the slots and have not run yet: tyre C3, life 0, time 0. */
  ghost predicate FreshGrid(cars: seq<MvpCarAgent>, slots: seq<GridSlot>)
    reads cars
  {
    && |cars| == |slots|
    && forall k :: 0 <= k < |cars| ==>
         && cars[k].driver == slots[k].driver && cars[k].teamName == slots[k].teamName
         && cars[k].team == slots[k].team
         && cars[k].tyre == "C3" && cars[k].tyreLife == 0 && cars[k].totalTime == 0.0
  }

  function SeasonMissingMessage(season: string): string
  {
    "Season '" + season + "' not found in teams.json"
  }

  function GridSizeMessage(season: string, count: nat): string
  {
    "Expected 20 cars for season " + season + ", got " + NatToString(count)
    + ". Check teams.json driver lists."
  }

  /** The number a string of decimal digits denotes, most significant digit first. */
  function DigitsValue(s: string): nat
    requires forall k :: 0 <= k < |s| ==> '0' <= s[k] <= '9'
    decreases |s|
  {
    if s == [] then 0 else DigitsValue(s[..|s| - 1]) * 10 + (s[|s| - 1] as int - '0' as int)
  }

  /** Decimal digits of a natural number: they denote the number, without leading zeros. */
  function NatToString(n: nat): (s: string)
    ensures |s| >= 1
    ensures forall k :: 0 <= k < |s| ==> '0' <= s[k] <= '9'
    ensures DigitsValue(s) == n
    ensures |s| > 1 ==> s[0] != '0'
    decreases n
  {
    var digit := "0123456789"[n % 10];
    if n < 10 then [digit]
    else
      var front := NatToString(n / 10);
      assert (front + [digit])[..|front|] == front;
      front + [digit]
  }

  /** The error building the grid raises, if any: an unknown season first, then a wrong car count. */
  function GridError(teamsDoc: TeamsDocument, season: string): (e: Option<Error>)
    ensures season !in teamsDoc ==> e == Some(KeyError(SeasonMissingMessage(season)))
    ensures season in teamsDoc ==> (e.None? <==> |GridDrivers(teamsDoc[season])| == GridSize)
  {
    if season !in teamsDoc then Some(KeyError(SeasonMissingMessage(season)))
    else if |GridDrivers(teamsDoc[season])| != GridSize then
      Some(ValueError(GridSizeMessage(season, |GridDrivers(teamsDoc[season])|)))
    else None
  }

  /**
   * Builds the season's teams and its grid: one new car per slot, none on
   * track yet. Fails on an unknown season and unless exactly 20 cars result.
   */
  method BuildTeamsAndGrid(teamsDoc: TeamsDocument, season: string) returns (r: Result<Grid>)
    ensures r.Err? <==> GridError(teamsDoc, season).Some?
    ensures r.Err? ==> r.error == GridError(teamsDoc, season).value
    ensures r.Ok? ==> r.value.teams == TeamTable(teamsDoc[season])
    ensures r.Ok? ==> |r.value.cars| == GridSize && FreshGrid(r.value.cars, GridDrivers(teamsDoc[season]))
    ensures r.Ok? ==> Sorting.Distinct(r.value.cars)
    ensures r.Ok? ==> forall k :: 0 <= k < |r.value.cars| ==> fresh(r.value.cars[k])
  {
    if season !in teamsDoc {
      return Err(KeyError(SeasonMissingMessage(season)));
    }
    var teams, cars := EnterTeams(teamsDoc[season]);
    if |cars| != GridSize {
      return Err(ValueError(GridSizeMessage(season, |cars|)));
    }
    return Ok(Grid(teams, cars));
  }

  /** The team table and the fresh cars of a season's teams, in team order. */
  method EnterTeams(ts: seq<TeamEntry>) returns (teams: map<string, TeamPerformance>, cars: seq<MvpCarAgent>)
    ensures teams == TeamTable(ts)
    ensures FreshGrid(cars, GridDrivers(ts))
    ensures Sorting.Distinct(cars) && forall k :: 0 <= k < |cars| ==> fresh(cars[k])
  {
    teams := map[];
    cars := [];
    var i := 0;
    while i < |ts|
      invariant 0 <= i <= |ts|
      invariant teams == TeamTable(ts[..i])
      invariant FreshGrid(cars, GridDrivers(ts[..i]))
      invariant Sorting.Distinct(cars) && forall k :: 0 <= k < |cars| ==> fresh(cars[k])
    {
      var t := ts[i];
      var perf := Performance(t.performance);
      PrefixStep(ts, i);
      teams := teams[t.name := perf];
      var added := EnterTeam(t, perf);
      FreshGridOfConcatenation(cars, added, GridDrivers(ts[..i]), TeamSlots(t));
      assert forall x :: x in cars ==> x !in added;
      Sorting.DistinctConcatenation(cars, added);
      cars := cars + added;
      i := i + 1;
    }
    assert ts[..i] == ts;
  }

  /** The team table and the grid of one more team of the season. */
  lemma PrefixStep(ts: seq<TeamEntry>, i: nat)
    requires i < |ts|
    ensures TeamTable(ts[..i + 1]) == TeamTable(ts[..i])[ts[i].name := Performance(ts[i].performance)]
    ensures GridDrivers(ts[..i + 1]) == GridDrivers(ts[..i]) + TeamSlots(ts[i])
  {
    assert ts[..i + 1][..i] == ts[..i];
  }

  /** The cars of one team: a new car for each of its first two drivers, in list order. */
  method EnterTeam(t: TeamEntry, perf: TeamPerformance) returns (added: seq<MvpCarAgent>)
    requires perf == Performance(t.performance)
    ensures FreshGrid(added, TeamSlots(t))
    ensures Sorting.Distinct(added) && forall k :: 0 <= k < |added| ==> fresh(added[k])
  {
    var drivers := t.drivers[..TyreModel.MinInt(2, |t.drivers|)];
    added := [];
    var j := 0;
    while j < |drivers|
      invariant 0 <= j <= |drivers|
      invariant FreshGrid(added, TeamSlots(t)[..j])
      invariant Sorting.Distinct(added) && forall k :: 0 <= k < |added| ==> fresh(added[k])
    {
      var d := drivers[j];
      var car := new MvpCarAgent(DriverInfo(d.name, d.number), t.name, perf, "C3");
      added := added + [car];
      j := j + 1;
    }
    assert TeamSlots(t)[..j] == TeamSlots(t);
  }

  lemma FreshGridOfConcatenation(a: seq<MvpCarAgent>, b: seq<MvpCarAgent>, s: seq<GridSlot>, t: seq<GridSlot>)
    requires FreshGrid(a, s) && FreshGrid(b, t)
    ensures FreshGrid(a + b, s + t)
  {
  }

  // ---------------------------------------------------------------
  // Race
  // ---------------------------------------------------------------

  function CircuitMissingMessage(circuit: string): string
  {
    "Circuit '" + circuit + "' not found in circuits.json"
  }

  /** The pit-execution noise: the team's spread times the draw, when noise is on and the spread positive. */
  function PitNoise(std: real, enableNoise: bool, gaussDraw: real): (n: real)
    ensures !enableNoise || std <= 0.0 ==> n == 0.0
    ensures gaussDraw == 0.0 ==> n == 0.0
  {
    if enableNoise && std > 0.0 then std * gaussDraw else 0.0
  }

  /**
   * The error a race raises, if any, in the order the race meets them: an
   * unknown circuit, the start label, the end label, the grid, a tyre
   * missing from the tyre table.
   */
  function RunError(circuits: map<string, CircuitEntry>, teamsDoc: TeamsDocument,
                    tyreParams: map<string, TyreEntry>, compounds: CompoundTable,
                    season: string, circuitName: string, startSemantic: string,
                    endSemantic: string, pitLap: int): (e: Option<Error>)
    ensures circuitName !in circuits ==> e == Some(KeyError(CircuitMissingMessage(circuitName)))
    ensures circuitName in circuits && ResolveCompound(compounds, season, circuitName, startSemantic).Err?
            ==> e == Some(ResolveCompound(compounds, season, circuitName, startSemantic).error)
    ensures e.None? ==> GridError(teamsDoc, season).None?
  {
    if circuitName !in circuits then Some(KeyError(CircuitMissingMessage(circuitName)))
    else
      var start := ResolveCompound(compounds, season, circuitName, startSemantic);
      var end := ResolveCompound(compounds, season, circuitName, endSemantic);
      if start.Err? then Some(start.error)
      else if end.Err? then Some(end.error)
      else if GridError(teamsDoc, season).Some? then GridError(teamsDoc, season)
      else TyreError(tyreParams, start.value, end.value, pitLap, circuits[circuitName].totalLaps)
  }

  /** The cars are in non-decreasing order of total time. */
  ghost predicate SortedByTime(cars: seq<MvpCarAgent>)
    reads cars
  {
    forall i, j :: 0 <= i < j < |cars| ==> cars[i].totalTime <= cars[j].totalTime
  }

  /** Fits `tyre` to every car. */
  method FitAll(cars: seq<MvpCarAgent>, tyre: string)
    requires Sorting.Distinct(cars)
    modifies cars
    ensures forall k :: 0 <= k < |cars| ==>
      cars[k].tyre == tyre && cars[k].tyreLife == 0 && cars[k].totalTime == old(cars[k].totalTime)
  {
    var k := 0;
    while k < |cars|
      invariant 0 <= k <= |cars|
      invariant forall m :: 0 <= m < k ==> cars[m].tyre == tyre && cars[m].tyreLife == 0
      invariant forall m :: 0 <= m < |cars| ==> cars[m].totalTime == old(cars[m].totalTime)
    {
      cars[k].SetTyre(tyre);
      k := k + 1;
    }
  }

  /**
   * The pit stop of the whole field: each car loses the pit time plus its
   * team's execution noise (the draw of running position k being
   * `pitDraw(k)`) and moves to `tyre` at life 0.
   */
  method PitAll(cars: seq<MvpCarAgent>, pitLoss: real, tyre: string, enableNoise: bool, pitDraw: nat -> real)
    requires Sorting.Distinct(cars)
    modifies cars
    ensures forall k :: 0 <= k < |cars| ==>
      && cars[k].totalTime == old(cars[k].totalTime) + (pitLoss + PitNoise(cars[k].team.pitExecutionStd, enableNoise, pitDraw(k)))
      && cars[k].tyre == tyre && cars[k].tyreLife == 0
  {
    var k := 0;
    while k < |cars|
      invariant 0 <= k <= |cars|
      invariant forall m :: 0 <= m < k ==>
        && cars[m].totalTime == old(cars[m].totalTime) + (pitLoss + PitNoise(cars[m].team.pitExecutionStd, enableNoise, pitDraw(m)))
        && cars[m].tyre == tyre && cars[m].tyreLife == 0
      invariant forall m :: k <= m < |cars| ==> cars[m].totalTime == old(cars[m].totalTime)
    {
      PitCar(cars[k], pitLoss, tyre, enableNoise, pitDraw(k));
      k := k + 1;
    }
  }

  /** One car's stop: the pit loss plus its execution noise, then a fresh set. */
  method PitCar(car: MvpCarAgent, pitLoss: real, tyre: string, enableNoise: bool, draw: real)
    modifies car
    ensures car.totalTime == old(car.totalTime) + (pitLoss + PitNoise(car.team.pitExecutionStd, enableNoise, draw))
    ensures car.tyre == tyre && car.tyreLife == 0
  {
    var pitStd := car.team.pitExecutionStd;
    var execNoise := if enableNoise && pitStd > 0.0 then pitStd * draw else 0.0;
    car.totalTime := car.totalTime + (pitLoss + execNoise);
    car.SetTyre(tyre);
  }

  /**
   * Every car runs lap `lap`, the noise draw of running position k being
   * `lapDraw(lap, k)`: each car's time grows by its lap time and its tyre
   * ages by one lap.
   */
  method StepAll(cars: seq<MvpCarAgent>, lap: int, circuit: CircuitEntry, tyreParams: map<string, TyreEntry>,
                 includeStartPenalty: bool, startLapPenalty: real, enableNoise: bool,
                 lapDraw: (int, nat) -> real)
    requires Sorting.Distinct(cars)
    requires forall c :: c in cars ==> c.tyre in tyreParams
    modifies cars
    ensures forall k :: 0 <= k < |cars| ==>
      && cars[k].tyre == old(cars[k].tyre) && cars[k].tyreLife == old(cars[k].tyreLife) + 1
      && cars[k].totalTime == old(cars[k].totalTime)
           + LapTime(lap, circuit, tyreParams[cars[k].tyre], cars[k].team, old(cars[k].tyreLife),
                     includeStartPenalty, startLapPenalty, enableNoise, lapDraw(lap, k))
  {
    var k := 0;
    while k < |cars|
      invariant 0 <= k <= |cars|
      invariant forall m :: 0 <= m < |cars| ==> cars[m].tyre == old(cars[m].tyre)
      invariant forall m :: 0 <= m < k ==>
        && cars[m].tyreLife == old(cars[m].tyreLife) + 1
        && cars[m].totalTime == old(cars[m].totalTime)
             + LapTime(lap, circuit, tyreParams[cars[m].tyre], cars[m].team, old(cars[m].tyreLife),
                       includeStartPenalty, startLapPenalty, enableNoise, lapDraw(lap, m))
      invariant forall m :: k <= m < |cars| ==>
        cars[m].tyreLife == old(cars[m].tyreLife) && cars[m].totalTime == old(cars[m].totalTime)
    {
      var _ := cars[k].StepLap(lap, circuit, tyreParams, lapDraw(lap, k), includeStartPenalty,
                               startLapPenalty, enableNoise);
      k := k + 1;
    }
  }

  /** Re-orders the field by total time: the same cars, fastest first. */
  method SortByTotalTime(cars: seq<MvpCarAgent>) returns (sorted: seq<MvpCarAgent>)
    ensures multiset(sorted) == multiset(cars) && |sorted| == |cars|
    ensures SortedByTime(sorted)
  {
    var key := map c | c in cars :: c.totalTime;
    sorted := Sorting.SortByKey(cars, key);
    forall i, j | 0 <= i < j < |sorted|
      ensures sorted[i].totalTime <= sorted[j].totalTime
    {
      assert sorted[i] in multiset(cars) && sorted[j] in multiset(cars);
    }
  }

  /** Every car is on `tyre` at `life`. */
  ghost predicate AllOn(cars: seq<MvpCarAgent>, tyre: string, life: int)
    reads cars
  {
    forall c :: c in cars ==> c.tyre == tyre && c.tyreLife == life
  }

  /**
   * The laps of a race, from a field on the start tyre at life 0: on the
   * pit lap every car pits onto the end tyre, every car runs the lap, and
   * the field is re-ordered by total time. A lap whose tyre is not in the
   * tyre table fails with a KeyError.
   */
  method RaceLaps(cars: seq<MvpCarAgent>, circuit: CircuitEntry, tyreParams: map<string, TyreEntry>,
                  startTyre: string, endTyre: string, pitLap: int,
                  includeStartLapPenalty: bool, startLapPenalty: real, enableNoise: bool,
                  pitDraw: nat -> real, lapDraw: (int, nat) -> real)
    returns (r: Result<seq<MvpCarAgent>>)
    requires Sorting.Distinct(cars) && SortedByTime(cars) && AllOn(cars, startTyre, 0)
    modifies cars
    ensures var e := TyreError(tyreParams, startTyre, endTyre, pitLap, circuit.totalLaps);
            (r.Err? <==> e.Some?) && (r.Err? ==> r.error == e.value)
    ensures r.Ok? ==> multiset(r.value) == multiset(cars) && Sorting.Distinct(r.value) && SortedByTime(r.value)
    ensures r.Ok? ==>
      var laps := TyreModel.MaxInt(0, circuit.totalLaps);
      AllOn(r.value, TyreAfter(startTyre, endTyre, pitLap, laps), LifeAfter(pitLap, laps))
  {
    var field := cars;
    var lap := 1;
    while lap <= circuit.totalLaps
      invariant 1 <= lap <= TyreModel.MaxInt(1, circuit.totalLaps + 1)
      invariant multiset(field) == multiset(cars) && Sorting.Distinct(field)
      invariant forall k :: 0 <= k < |field| ==> field[k] in cars
      invariant AllOn(field, TyreAfter(startTyre, endTyre, pitLap, lap - 1), LifeAfter(pitLap, lap - 1))
      invariant SortedByTime(field)
      invariant TyreError(tyreParams, startTyre, endTyre, pitLap, lap - 1).None?
    {
      var step := RaceLap(field, cars, lap, circuit, tyreParams, startTyre, endTyre, pitLap,
                          includeStartLapPenalty, startLapPenalty, enableNoise, pitDraw, lapDraw);
      if step.Err? {
        TyreErrorAtFirstMissingLap(tyreParams, startTyre, endTyre, pitLap, circuit.totalLaps, lap);
        return Err(step.error);
      }
      field := step.value;
      lap := lap + 1;
    }
    return Ok(field);
  }

  /**
   * Lap `lap` of the race. On the pit lap every car first stops onto the
   * end tyre. A lap whose tyre is not in the tyre table fails with its
   * KeyError; otherwise every car runs the lap and the field is re-ordered
   * by total time. The car in running position k gains the pit time only
   * on the pit lap, and always the lap time of the stint's tyre and life.
   */
  method RaceLap(field: seq<MvpCarAgent>, ghost cars: seq<MvpCarAgent>, lap: int, circuit: CircuitEntry,
                 tyreParams: map<string, TyreEntry>, startTyre: string, endTyre: string, pitLap: int,
                 includeStartLapPenalty: bool, startLapPenalty: real, enableNoise: bool,
                 pitDraw: nat -> real, lapDraw: (int, nat) -> real)
    returns (r: Result<seq<MvpCarAgent>>)
    requires 1 <= lap && Sorting.Distinct(field) && forall k :: 0 <= k < |field| ==> field[k] in cars
    requires TyreError(tyreParams, startTyre, endTyre, pitLap, lap - 1).None?
    requires AllOn(field, TyreAfter(startTyre, endTyre, pitLap, lap - 1), LifeAfter(pitLap, lap - 1))
    modifies field
    ensures var tyre := TyreAfter(startTyre, endTyre, pitLap, lap);
            (r.Err? <==> tyre !in tyreParams) && (r.Err? ==> r.error == KeyError(tyre))
    ensures r.Ok? ==> multiset(r.value) == multiset(field) && Sorting.Distinct(r.value) && SortedByTime(r.value)
    ensures r.Ok? ==> forall k :: 0 <= k < |r.value| ==> r.value[k] in cars
    ensures r.Ok? ==> AllOn(r.value, TyreAfter(startTyre, endTyre, pitLap, lap), LifeAfter(pitLap, lap))
    ensures r.Ok? ==> TyreError(tyreParams, startTyre, endTyre, pitLap, lap).None?
    ensures r.Ok? ==> forall k :: 0 <= k < |field| ==>
      field[k].totalTime == old(field[k].totalTime)
        + (if lap == pitLap then circuit.pitLoss + PitNoise(field[k].team.pitExecutionStd, enableNoise, pitDraw(k))
           else 0.0)
        + LapTime(lap, circuit, tyreParams[TyreAfter(startTyre, endTyre, pitLap, lap)], field[k].team,
                  LifeOnLap(pitLap, lap), includeStartLapPenalty, startLapPenalty, enableNoise, lapDraw(lap, k))
  {
    if lap == pitLap {
      PitAll(field, circuit.pitLoss, endTyre, enableNoise, pitDraw);
    }
    var tyre := TyreAfter(startTyre, endTyre, pitLap, lap);
    if tyre !in tyreParams {
      return Err(KeyError(tyre));
    }
    var next := FinishLap(field, cars, lap, circuit, tyreParams, startTyre, endTyre, pitLap,
                          includeStartLapPenalty, startLapPenalty, enableNoise, lapDraw);
    return Ok(next);
  }

  /**
   * The rest of lap `lap` once the stop, if any, is made: every car runs
   * the lap on the stint's tyre and life, then the field is re-ordered by
   * total time.
   */
  method FinishLap(field: seq<MvpCarAgent>, ghost cars: seq<MvpCarAgent>, lap: int, circuit: CircuitEntry,
                   tyreParams: map<string, TyreEntry>, startTyre: string, endTyre: string, pitLap: int,
                   includeStartLapPenalty: bool, startLapPenalty: real, enableNoise: bool,
                   lapDraw: (int, nat) -> real)
    returns (next: seq<MvpCarAgent>)
    requires 1 <= lap && Sorting.Distinct(field) && forall k :: 0 <= k < |field| ==> field[k] in cars
    requires TyreError(tyreParams, startTyre, endTyre, pitLap, lap - 1).None?
    requires TyreAfter(startTyre, endTyre, pitLap, lap) in tyreParams
    requires lap == pitLap ==> AllOn(field, endTyre, 0)
    requires lap != pitLap ==> AllOn(field, TyreAfter(startTyre, endTyre, pitLap, lap - 1), LifeAfter(pitLap, lap - 1))
    modifies field
    ensures multiset(next) == multiset(field) && Sorting.Distinct(next) && SortedByTime(next)
    ensures forall k :: 0 <= k < |next| ==> next[k] in cars
    ensures AllOn(next, TyreAfter(startTyre, endTyre, pitLap, lap), LifeAfter(pitLap, lap))
    ensures TyreError(tyreParams, startTyre, endTyre, pitLap, lap).None?
    ensures forall k :: 0 <= k < |field| ==>
      field[k].totalTime == old(field[k].totalTime)
        + LapTime(lap, circuit, tyreParams[TyreAfter(startTyre, endTyre, pitLap, lap)], field[k].team,
                  LifeOnLap(pitLap, lap), includeStartLapPenalty, startLapPenalty, enableNoise, lapDraw(lap, k))
  {
    StepAll(field, lap, circuit, tyreParams, includeStartLapPenalty, startLapPenalty, enableNoise, lapDraw);
    LifeAfterOneMoreLap(pitLap, lap - 1);
    next := Reorder(field, cars);
  }

  /** The field re-ordered by total time, still a re-ordering of `cars`. */
  method Reorder(field: seq<MvpCarAgent>, ghost cars: seq<MvpCarAgent>) returns (sorted: seq<MvpCarAgent>)
    requires Sorting.Distinct(field) && forall k :: 0 <= k < |field| ==> field[k] in cars
    ensures multiset(sorted) == multiset(field) && Sorting.Distinct(sorted) && SortedByTime(sorted)
    ensures forall c :: c in sorted <==> c in field
    ensures forall k :: 0 <= k < |sorted| ==> sorted[k] in cars
  {
    sorted := SortByTotalTime(field);
    Sorting.PermutationKeepsDistinct(sorted, field);
    forall c
      ensures c in sorted <==> c in field
    {
      assert c in sorted <==> c in multiset(sorted);
      assert c in field <==> c in multiset(field);
    }
    forall k | 0 <= k < |sorted|
      ensures sorted[k] in cars
    {
      assert sorted[k] in multiset(field);
      var m :| 0 <= m < |field| && field[m] == sorted[k];
    }
  }

  /**
   * Runs a race: resolves the start and end compounds, builds the grid,
   * fits the start tyre, then runs the laps. The result is the final
   * classification: the 20 cars of the grid, fastest first, each on the
   * tyre and at the life its stint gives it.
   */
  method Run(circuits: map<string, CircuitEntry>, teamsDoc: TeamsDocument,
             tyreParams: map<string, TyreEntry>, compounds: CompoundTable,
             season: string, circuitName: string, startSemantic: string, endSemantic: string,
             pitLap: int, includeStartLapPenalty: bool, startLapPenalty: real, enableNoise: bool,
             pitDraw: nat -> real, lapDraw: (int, nat) -> real)
    returns (r: Result<seq<MvpCarAgent>>, ghost grid: seq<MvpCarAgent>)
    ensures var e := RunError(circuits, teamsDoc, tyreParams, compounds, season, circuitName,
                              startSemantic, endSemantic, pitLap);
            (r.Err? <==> e.Some?) && (r.Err? ==> r.error == e.value)
    ensures r.Ok? ==>
      && season in teamsDoc && circuitName in circuits
      && ResolveCompound(compounds, season, circuitName, startSemantic).Ok?
      && ResolveCompound(compounds, season, circuitName, endSemantic).Ok?
      && |grid| == GridSize
      && (forall k :: 0 <= k < |grid| ==>
            var slot := GridDrivers(teamsDoc[season])[k];
            grid[k].driver == slot.driver && grid[k].teamName == slot.teamName && grid[k].team == slot.team)
    ensures r.Ok? ==>
      && multiset(r.value) == multiset(grid) && |r.value| == GridSize
      && Sorting.Distinct(r.value) && SortedByTime(r.value)
      && forall k :: 0 <= k < |grid| ==> fresh(grid[k])
    ensures r.Ok? ==>
      var laps := TyreModel.MaxInt(0, circuits[circuitName].totalLaps);
      AllOn(r.value, TyreAfter(ResolveCompound(compounds, season, circuitName, startSemantic).value,
                               ResolveCompound(compounds, season, circuitName, endSemantic).value, pitLap, laps),
            LifeAfter(pitLap, laps))
  {
    grid := [];
    if circuitName !in circuits {
      return Err(KeyError(CircuitMissingMessage(circuitName))), grid;
    }
    var circuit := circuits[circuitName];
    var startRes := ResolveCompound(compounds, season, circuitName, startSemantic);
    if startRes.Err? {
      return Err(startRes.error), grid;
    }
    var endRes := ResolveCompound(compounds, season, circuitName, endSemantic);
    if endRes.Err? {
      return Err(endRes.error), grid;
    }
    var built := BuildTeamsAndGrid(teamsDoc, season);
    if built.Err? {
      return Err(built.error), grid;
    }
    var cars := built.value.cars;
    grid := cars;
    FitAll(cars, startRes.value);
    r := RaceLaps(cars, circuit, tyreParams, startRes.value, endRes.value, pitLap,
                  includeStartLapPenalty, startLapPenalty, enableNoise, pitDraw, lapDraw);
    if r.Ok? {
      assert multiset(r.value) == multiset(grid);
      calc {
        |r.value|;
        |multiset(r.value)|;
        |multiset(grid)|;
        GridSize;
      }
    }
  }
}
