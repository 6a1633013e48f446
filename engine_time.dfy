/** The engine's global clock settings that several components write. */
module EngineTime {

  /** `Time.timeScale`: 1 runs game time normally, 0 freezes it. */
  class GameTime {
    var timeScale: real

    constructor ()
      ensures timeScale == 1.0
    {
      timeScale := 1.0;
    }
  }
}
