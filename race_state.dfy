/**
 * The race snapshot (src/sim/RaceState.py): the current lap, track and
 * weather states, and the per-car snapshots exposed to the teams.
 */
module RaceState {

  datatype CarSnapshot = CarSnapshot(
    carId: string,
    teamId: string,
    totalTime: real,
    tyreCompound: string,
    tyreAge: int)

  class RaceState {
    var lap: int
    var trackState: string
    var weatherState: string
    var carSnapshots: seq<CarSnapshot>

    /** A fresh state: lap 0, green track, dry weather, no snapshots. */
    constructor ()
      ensures lap == 0 && trackState == "GREEN" && weatherState == "DRY" && carSnapshots == []
    {
      lap := 0;
      trackState := "GREEN";
      weatherState := "DRY";
      carSnapshots := [];
    }

    /** Overwrites all four fields with the given values. */
    method Update(lap: int, trackState: string, weatherState: string, carSnapshots: seq<CarSnapshot>)
      modifies this
      ensures this.lap == lap && this.trackState == trackState
      ensures this.weatherState == weatherState && this.carSnapshots == carSnapshots
    {
      this.lap := lap;
      this.trackState := trackState;
      this.weatherState := weatherState;
      this.carSnapshots := carSnapshots;
    }

    /** The snapshots stored by the latest update; the state is left as it is. */
    method GetPublicView() returns (view: seq<CarSnapshot>)
      ensures view == carSnapshots
    {
      view := carSnapshots;
    }
  }
}
