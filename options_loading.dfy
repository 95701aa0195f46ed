/**
 * The options-loading state both screens keep (`StandardWheelScreen.tsx` and
 * `App.tsx` carry the same copy): a status, the loaded options, and a progress
 * value that a 220 ms ticker nudges toward 92 while the load is pending and that
 * jumps to 100 once it settles.
 */
module OptionsLoading {
  import opened Wrappers
  import opened OptionsCore

  datatype LoadStatus = Loading | Loaded | LoadError

  /** The progress value before the mount effect runs. */
  const InitialProgress: int := 6
  /** The progress value the mount effect sets when the load starts. */
  const StartProgress: int := 10
  /** The ceiling the ticker never passes. */
  const TickCeiling: int := 92
  /** The progress value once the load has settled either way. */
  const DoneProgress: int := 100

  /**
   * `Math.ceil(a / 10)` for an integer `a`, written with integer division: the
   * least `c` with `a <= 10 * c`.
   */
  function CeilTenth(a: int): (c: int)
    ensures 10 * (c - 1) < a <= 10 * c
  {
    if a >= 0 then (a + 9) / 10 else -((-a) / 10)
  }

  /** One tick of the progress timer. */
  function NextProgress(prev: int): int
  {
    if prev >= TickCeiling then prev
    else
      var step := if CeilTenth(100 - prev) < 1 then 1 else CeilTenth(100 - prev);
      if prev + step < TickCeiling then prev + step else TickCeiling
  }

  /**
   * A tick leaves a value at or above 92 alone; below 92 it adds at least one and
   * never passes 92, and it adds a tenth of the distance to 100, rounded up, when
   * that still fits.
   */
  lemma NextProgressBounds(prev: int)
    ensures prev >= TickCeiling ==> NextProgress(prev) == prev
    ensures prev < TickCeiling ==> prev + 1 <= NextProgress(prev) <= TickCeiling
    ensures prev < TickCeiling ==> NextProgress(prev) == TickCeiling || 10 * (NextProgress(prev) - prev) >= 100 - prev
    ensures NextProgress(prev) >= prev
  {
  }

  /** `n` ticks in a row. */
  function Ticks(prev: int, n: nat): int
    decreases n
  {
    if n == 0 then prev else Ticks(NextProgress(prev), n - 1)
  }

  /**
   * Ticks never lower the value, never take a value below 92 past it, and from a
   * value below 92 get at least one step closer each time, so `92 - prev` ticks
   * reach the ceiling.
   */
  lemma {:induction false} TicksBounds(prev: int, n: nat)
    ensures Ticks(prev, n) >= prev
    ensures prev <= TickCeiling ==> Ticks(prev, n) <= TickCeiling
    ensures prev <= TickCeiling ==> Ticks(prev, n) >= if prev + n < TickCeiling then prev + n else TickCeiling
    decreases n
  {
    if n > 0 {
      NextProgressBounds(prev);
      TicksBounds(NextProgress(prev), n - 1);
    }
  }

  /** From the start value the strip reaches 92 after nineteen ticks, and not before. */
  lemma FromStartToCeiling()
    ensures Ticks(StartProgress, 18) == 91
    ensures Ticks(StartProgress, 19) == TickCeiling
  {
    assert Ticks(91, 0) == 91;
    assert Ticks(89, 1) == 91;
    assert Ticks(87, 2) == 91;
    assert Ticks(85, 3) == 91;
    assert Ticks(83, 4) == 91;
    assert Ticks(81, 5) == 91;
    assert Ticks(78, 6) == 91;
    assert Ticks(75, 7) == 91;
    assert Ticks(72, 8) == 91;
    assert Ticks(68, 9) == 91;
    assert Ticks(64, 10) == 91;
    assert Ticks(60, 11) == 91;
    assert Ticks(55, 12) == 91;
    assert Ticks(49, 13) == 91;
    assert Ticks(43, 14) == 91;
    assert Ticks(36, 15) == 91;
    assert Ticks(28, 16) == 91;
    assert Ticks(19, 17) == 91;
    assert Ticks(10, 18) == 91;
    assert Ticks(92, 0) == 92;
    assert Ticks(91, 1) == 92;
    assert Ticks(89, 2) == 92;
    assert Ticks(87, 3) == 92;
    assert Ticks(85, 4) == 92;
    assert Ticks(83, 5) == 92;
    assert Ticks(81, 6) == 92;
    assert Ticks(78, 7) == 92;
    assert Ticks(75, 8) == 92;
    assert Ticks(72, 9) == 92;
    assert Ticks(68, 10) == 92;
    assert Ticks(64, 11) == 92;
    assert Ticks(60, 12) == 92;
    assert Ticks(55, 13) == 92;
    assert Ticks(49, 14) == 92;
    assert Ticks(43, 15) == 92;
    assert Ticks(36, 16) == 92;
    assert Ticks(28, 17) == 92;
    assert Ticks(19, 18) == 92;
    assert Ticks(10, 19) == 92;
  }

  /**
   * What holds of the loading state between events: before the mount nothing has
   * started; while loading the value stays within [6, 92]; once settled it is 100;
   * and options are present exactly after a successful load.
   */
  predicate LoadingValid(mounted: bool, active: bool, status: LoadStatus, options: Option<seq<ResolvedOption>>, progress: int)
  {
    InitialProgress <= progress <= DoneProgress
    && (status == Loading ==> progress <= TickCeiling)
    && (status != Loading ==> progress == DoneProgress)
    && (options.Some? <==> status == Loaded)
    && (!mounted ==> !active && status == Loading)
  }

  /** `optionsReady` / `canOpenWheel`. */
  predicate Ready(status: LoadStatus, options: Option<seq<ResolvedOption>>)
  {
    status == Loaded && options.Some?
  }

  /** In a valid state, the wheel can open exactly when the load succeeded. */
  lemma ReadyIffLoaded(mounted: bool, active: bool, status: LoadStatus, options: Option<seq<ResolvedOption>>, progress: int)
    requires LoadingValid(mounted, active, status, options, progress)
    ensures Ready(status, options) <==> status == Loaded
    ensures Ready(status, options) ==> progress == DoneProgress
  {
  }
}
