/**
 * The state of `src/features/wheel/StandardWheelScreen.tsx`: it loads the options
 * once on mount, keeps the form's button disabled until they arrive, opens the wheel
 * for a player once they have, and would show the result page once a winner is set.
 *
 * Two paths of the screen are never taken as the code is wired. The queue for a
 * player who submits before the options arrive cannot fill, since the form's button
 * is disabled until then (`PressSubmit`). The winner is never set, since the wheel
 * component takes no `onSpinComplete` prop and hands the winner's label only to the
 * winner logger (`SpinToEndAsWritten`).
 */
module StandardWheelScreen {
  import opened Wrappers
  import opened OptionsCore
  import opened PlayerInput
  import opened OptionsLoading
  import PlayerForm
  import OptionsLoader
  import Json
  import WheelMath
  import WheelGeometry
  import WheelSpin

  datatype ScreenKind = FormScreen | WheelScreen | ResultScreen

  /**
   * The `screen` expression: a winner (a non-empty string, as JavaScript reads it)
   * shows the result; otherwise a player with the options ready shows the wheel;
   * otherwise the form.
   */
  function ScreenOf(winner: Option<string>, ready: bool, player: Option<PlayerInfo>): ScreenKind
  {
    if winner.Some? && winner.value != "" then ResultScreen
    else if ready && player.Some? then WheelScreen
    else FormScreen
  }

  /** `appScreenClass`. */
  function ScreenClass(screen: ScreenKind): (c: string)
    ensures c == "" <==> screen == ResultScreen
  {
    match screen
    case WheelScreen => "wheel-active"
    case FormScreen => "form-active"
    case ResultScreen => ""
  }

  class Screen {
    var player: Option<PlayerInfo>
    var queued: Option<PlayerInfo>
    var winner: Option<string>
    var options: Option<seq<ResolvedOption>>
    var status: LoadStatus
    var progress: int
    /** Whether the mount effect has run. */
    var mounted: bool
    /** The load effect's `active` flag: set on mount, cleared on unmount. */
    var active: bool

    ghost predicate Valid()
      reads this
    {
      LoadingValid(mounted, active, status, options, progress)
    }

    /** `optionsReady`. */
    predicate OptionsReady()
      reads this
    {
      Ready(status, options)
    }

    function Current(): ScreenKind
      reads this
    {
      ScreenOf(winner, OptionsReady(), player)
    }

    /** The progress strip is rendered only while the options are loading. */
    predicate StripShown()
      reads this
    {
      status == Loading
    }

    /** The form's `submitDisabled` prop. */
    predicate SubmitDisabled()
      reads this
    {
      !OptionsReady()
    }

    /** The first render: the `useState` initial values. */
    constructor()
      ensures Valid()
      ensures player == None && queued == None && winner == None && options == None
      ensures status == Loading && progress == InitialProgress && !mounted && !active
    {
      player := None;
      queued := None;
      winner := None;
      options := None;
      status := Loading;
      progress := InitialProgress;
      mounted := false;
      active := false;
    }

    /** The mount effect: marks the load active and sets the start value. */
    method Mount()
      requires Valid() && !mounted
      modifies this
      ensures Valid()
      ensures mounted && active && status == Loading && progress == StartProgress
      ensures player == old(player) && queued == old(queued) && winner == old(winner) && options == old(options)
    {
      mounted := true;
      active := true;
      status := Loading;
      progress := StartProgress;
    }

    /**
     * One firing of the 220 ms timer. The timer exists only while the status is
     * loading and the screen is mounted, so at any other time nothing happens.
     */
    method Tick()
      requires Valid()
      modifies this
      ensures Valid()
      ensures old(status == Loading && active) ==> progress == NextProgress(old(progress))
      ensures !old(status == Loading && active) ==> progress == old(progress)
      ensures progress >= old(progress)
      ensures status == old(status) && options == old(options)
      ensures player == old(player) && queued == old(queued) && winner == old(winner)
      ensures mounted == old(mounted) && active == old(active)
    {
      if status == Loading && active {
        NextProgressBounds(progress);
        progress := NextProgress(progress);
      }
    }

    /** The load resolved with `loaded`; ignored once the screen is gone. */
    method LoadSucceeded(loaded: seq<ResolvedOption>)
      requires Valid() && mounted
      modifies this
      ensures Valid()
      ensures old(active) ==> options == Some(loaded) && status == Loaded && progress == DoneProgress
      ensures !old(active) ==> options == old(options) && status == old(status) && progress == old(progress)
      ensures player == old(player) && queued == old(queued) && winner == old(winner)
      ensures mounted == old(mounted) && active == old(active)
    {
      if !active {
        return;
      }
      options := Some(loaded);
      status := Loaded;
      progress := DoneProgress;
    }

    /** The load was rejected; ignored once the screen is gone. */
    method LoadFailed()
      requires Valid() && mounted
      modifies this
      ensures Valid()
      ensures old(active) ==> options == None && status == LoadError && progress == DoneProgress
      ensures !old(active) ==> options == old(options) && status == old(status) && progress == old(progress)
      ensures player == old(player) && queued == old(queued) && winner == old(winner)
      ensures mounted == old(mounted) && active == old(active)
    {
      if !active {
        return;
      }
      status := LoadError;
      progress := DoneProgress;
      options := None;
    }

    /** The load effect's cleanup. */
    method Unmount()
      requires Valid()
      modifies this
      ensures Valid()
      ensures !active
      ensures player == old(player) && queued == old(queued) && winner == old(winner)
      ensures options == old(options) && status == old(status) && progress == old(progress)
      ensures mounted == old(mounted)
    {
      active := false;
    }

    /** The hand-off effect: with the options ready, a queued player becomes the player. */
    method PromoteQueued()
      requires Valid()
      modifies this
      ensures Valid()
      ensures old(OptionsReady()) && old(queued).Some? ==> player == old(queued) && queued == None
      ensures !(old(OptionsReady()) && old(queued).Some?) ==> player == old(player) && queued == old(queued)
      ensures OptionsReady() ==> queued == None
      ensures winner == old(winner) && options == old(options) && status == old(status) && progress == old(progress)
      ensures mounted == old(mounted) && active == old(active)
    {
      if status == Loaded && options.Some? && queued.Some? {
        player := queued;
        queued := None;
      }
    }

    /**
     * `handlePlayerSubmit`: with the options ready the player goes straight to the
     * wheel; otherwise the submission replaces whatever was queued.
     */
    method HandlePlayerSubmit(info: PlayerInfo)
      requires Valid()
      modifies this
      ensures Valid()
      ensures old(OptionsReady()) ==> player == Some(info) && queued == old(queued)
      ensures !old(OptionsReady()) ==> queued == Some(info) && player == old(player)
      ensures winner == old(winner) && options == old(options) && status == old(status) && progress == old(progress)
      ensures mounted == old(mounted) && active == old(active)
    {
      if OptionsReady() {
        player := Some(info);
        return;
      }
      queued := Some(info);
    }

    /** `setWinner`, the screen's `onSpinComplete` callback. */
    method SpinComplete(name: string)
      requires Valid()
      modifies this
      ensures Valid()
      ensures winner == Some(name)
      ensures player == old(player) && queued == old(queued)
      ensures options == old(options) && status == old(status) && progress == old(progress)
      ensures mounted == old(mounted) && active == old(active)
    {
      winner := Some(name);
    }
  }

  /**
   * The wheel is on screen only with loaded options and a player, by which time the
   * load has settled, the strip is gone and the form's button would be enabled.
   */
  lemma WheelNeedsLoadedOptions(s: Screen)
    requires s.Valid() && s.Current() == WheelScreen
    ensures s.options.Some? && s.player.Some? && s.status == Loaded
    ensures s.progress == DoneProgress && !s.StripShown() && !s.SubmitDisabled()
    ensures s.winner == None || s.winner == Some("")
  {
  }

  /** While the options are loading the form is on screen (no winner can exist yet) and its button is disabled. */
  lemma LoadingShowsDisabledForm(s: Screen)
    requires s.Valid() && s.status == Loading
    requires s.winner.None?
    ensures s.Current() == FormScreen && s.SubmitDisabled() && s.StripShown()
    ensures s.progress <= TickCeiling
  {
  }

  /**
   * A player who submits while the options are still loading is held back, and is
   * on the wheel once the load succeeds and the hand-off effect has run.
   */
  method SubmitDuringLoad(info: PlayerInfo, loaded: seq<ResolvedOption>) returns (s: Screen)
    ensures s.Valid()
    ensures s.player == Some(info) && s.queued == None
    ensures s.Current() == WheelScreen
  {
    s := new Screen();
    s.Mount();
    s.HandlePlayerSubmit(info);
    assert s.player == None && s.queued == Some(info);
    s.LoadSucceeded(loaded);
    s.PromoteQueued();
  }

  /**
   * What a successful load (`loadWheelOptionsFromGoogleSheet`) hands the screen and the wheel is a wheel the spin can use: at least one
   * option, every ratio positive (so the slices fill the wheel), every chance at
   * least 0, and a positive ratio total.
   */
  lemma LoadedOptionsFormAWheel(payload: Json.Json, parse: OptionsLoader.Parser)
    requires OptionsLoader.LoadAndResolve(payload, parse).Success?
    ensures var rs := OptionsLoader.LoadAndResolve(payload, parse).value;
      rs != [] && WheelGeometry.Positive(WheelMath.Ratios(rs))
      && WheelGeometry.NonNegative(WheelMath.Chances(rs)) && WheelGeometry.Sum(WheelMath.Ratios(rs)) > 0.0
  {
    var configs := OptionsLoader.ToWheelOptionConfigs(payload, parse);
    WheelMath.ResolvedOptionsFormAWheel(OptionsCore.ConfigsJson(configs.value));
  }

  /**
   * A press of the form's button while the form is rendered with the prop the screen
   * gives it (`submitDisabled={!optionsReady}`): whatever the form submits goes to
   * `handlePlayerSubmit`. Before the options are ready nothing is submitted, so the
   * queue keeps what it held; once they are, a submitted player goes to the wheel.
   */
  method PressSubmit(s: Screen, f: PlayerForm.Form) returns (sent: Option<PlayerInfo>)
    requires s.Valid() && f.submitDisabled == s.SubmitDisabled()
    modifies s, f
    ensures s.Valid()
    ensures !old(s.OptionsReady()) ==> sent == None && s.queued == old(s.queued) && s.player == old(s.player)
    ensures old(s.OptionsReady()) ==> f.errors == PlayerForm.CheckFields(f.email, f.phone)
    ensures old(s.OptionsReady()) ==> sent == (if f.errors == NoErrors then Some(PlayerForm.Submission(f.email, f.phone)) else None)
    ensures sent.Some? ==> s.player == sent && s.queued == old(s.queued)
    ensures sent.None? ==> s.player == old(s.player) && s.queued == old(s.queued)
    ensures s.winner == old(s.winner) && s.options == old(s.options) && s.status == old(s.status)
    ensures s.progress == old(s.progress) && s.mounted == old(s.mounted) && s.active == old(s.active)
    ensures f.email == old(f.email) && f.phone == old(f.phone) && f.submitDisabled == old(f.submitDisabled)
  {
    sent := f.Press();
    if sent.Some? {
      s.HandlePlayerSubmit(sent.value);
    }
  }

  /**
   * The flow the form allows: a press while the options load submits nothing and
   * queues nobody; after the load the screen re-renders the form with its button
   * enabled, and a press with valid fields puts the player on the wheel.
   */
  method SubmitAfterLoad(email: string, phone: string, loaded: seq<ResolvedOption>)
    returns (early: Option<PlayerInfo>, late: Option<PlayerInfo>, s: Screen)
    requires PlayerForm.CheckFields(email, phone) == NoErrors
    ensures s.Valid()
    ensures early == None
    ensures late == Some(PlayerForm.Submission(email, phone))
    ensures s.player == late && s.queued == None
    ensures s.Current() == WheelScreen
  {
    s := new Screen();
    s.Mount();
    var f := new PlayerForm.Form(s.SubmitDisabled());
    f.SetEmail(email);
    f.SetPhone(phone);
    early := PressSubmit(s, f);
    s.LoadSucceeded(loaded);
    s.PromoteQueued();
    f.SetSubmitDisabled(s.SubmitDisabled());
    late := PressSubmit(s, f);
  }

  /**
   * A whole spin as the source wires it: the wheel's end handler is the winner logger
   * alone, so the spin ends with the winner's label handed to the logger and the
   * screen still on the wheel, its winner never set.
   */
  method SpinToEndAsWritten(info: PlayerInfo, loaded: seq<ResolvedOption>, roll: real, u: real, draw: real, t0: real)
    returns (s: Screen, w: WheelSpin.WheelSpinner)
    requires loaded != [] && WheelGeometry.Sum(WheelMath.Ratios(loaded)) != 0.0
    ensures s.Valid() && w.Valid()
    ensures 0 <= w.winnerIdx < |loaded| && w.winnerIdx == WheelGeometry.Winner(WheelMath.Chances(loaded), roll)
    ensures !w.spinning && w.ended == [loaded[w.winnerIdx].name]
    ensures s.winner == None && s.Current() == WheelScreen
  {
    s := new Screen();
    s.Mount();
    s.LoadSucceeded(loaded);
    s.HandlePlayerSubmit(info);
    w := new WheelSpin.WheelSpinner(s.options.value, true);
    w.Spin(roll, u, draw, t0);
    w.Frame(t0 + WheelSpin.Duration);
  }

  /**
   * The same spin with the wheel passing the label on to `onSpinComplete` as well as
   * to the logger, as the screen's `onSpinComplete={setWinner}` evidently expects: the
   * spin ends on the result screen, which names the drawn winner.
   */
  method SpinToEndReporting(info: PlayerInfo, loaded: seq<ResolvedOption>, roll: real, u: real, draw: real, t0: real)
    returns (s: Screen, w: WheelSpin.WheelSpinner)
    requires loaded != [] && WheelGeometry.Sum(WheelMath.Ratios(loaded)) != 0.0
    requires forall i :: 0 <= i < |loaded| ==> loaded[i].name != ""
    ensures s.Valid() && w.Valid()
    ensures 0 <= w.winnerIdx < |loaded| && w.winnerIdx == WheelGeometry.Winner(WheelMath.Chances(loaded), roll)
    ensures !w.spinning && w.ended == [loaded[w.winnerIdx].name]
    ensures s.winner == Some(loaded[w.winnerIdx].name) && s.Current() == ResultScreen
  {
    s := new Screen();
    s.Mount();
    s.LoadSucceeded(loaded);
    s.HandlePlayerSubmit(info);
    w := new WheelSpin.WheelSpinner(s.options.value, true);
    w.Spin(roll, u, draw, t0);
    w.Frame(t0 + WheelSpin.Duration);
    s.SpinComplete(w.ended[|w.ended| - 1]);
  }
}
