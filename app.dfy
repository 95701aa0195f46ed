/**
 * The state of `src/app/App.tsx`: the same options load, progress strip and
 * queued-player hand-off as the standard screen, rendering either the wheel or the
 * form (there is no result page here). As on the standard screen, the form's button
 * is disabled until the options are in, so the queue cannot fill (`PressSubmit`).
 */
module App {
  import opened Wrappers
  import opened OptionsCore
  import opened PlayerInput
  import opened OptionsLoading
  import PlayerForm

  /** What the app renders under its title. */
  datatype View =
    | WheelView(wheelOptions: seq<ResolvedOption>, player: PlayerInfo)
    | FormView(submitDisabled: bool)

  class AppState {
    var player: Option<PlayerInfo>
    var queued: Option<PlayerInfo>
    var options: Option<seq<ResolvedOption>>
    var status: LoadStatus
    var progress: int
    /** Whether the mount effect has run. */
    var mounted: bool
    /** The load effect's `active` flag: set on mount, cleared on unmount. */
    var active: bool

    ghost predicate Valid()
      reads this
    {
      LoadingValid(mounted, active, status, options, progress)
    }

    /** `canOpenWheel`. */
    predicate CanOpenWheel()
      reads this
    {
      Ready(status, options)
    }

    /** The render choice: the wheel for a player once the options are in, else the form. */
    function Render(): View
      reads this
    {
      if CanOpenWheel() && player.Some? then WheelView(options.value, player.value)
      else FormView(!CanOpenWheel())
    }

    /** The progress strip is rendered only while the options are loading. */
    predicate StripShown()
      reads this
    {
      status == Loading
    }

    /** The first render: the `useState` initial values. */
    constructor()
      ensures Valid()
      ensures player == None && queued == None && options == None
      ensures status == Loading && progress == InitialProgress && !mounted && !active
    {
      player := None;
      queued := None;
      options := None;
      status := Loading;
      progress := InitialProgress;
      mounted := false;
      active := false;
    }

    /** The mount effect: marks the load active and sets the start value. */
    method Mount()
      requires Valid() && !mounted
      modifies this
      ensures Valid()
      ensures mounted && active && status == Loading && progress == StartProgress
      ensures player == old(player) && queued == old(queued) && options == old(options)
    {
      mounted := true;
      active := true;
      status := Loading;
      progress := StartProgress;
    }

    /**
     * One firing of the 220 ms timer. The timer exists only while the status is
     * loading and the app is mounted, so at any other time nothing happens.
     */
    method Tick()
      requires Valid()
      modifies this
      ensures Valid()
      ensures old(status == Loading && active) ==> progress == NextProgress(old(progress))
      ensures !old(status == Loading && active) ==> progress == old(progress)
      ensures progress >= old(progress)
      ensures status == old(status) && options == old(options)
      ensures player == old(player) && queued == old(queued)
      ensures mounted == old(mounted) && active == old(active)
    {
      if status == Loading && active {
        NextProgressBounds(progress);
        progress := NextProgress(progress);
      }
    }

    /** The load resolved with `loaded`; ignored once the app is gone. */
    method LoadSucceeded(loaded: seq<ResolvedOption>)
      requires Valid() && mounted
      modifies this
      ensures Valid()
      ensures old(active) ==> options == Some(loaded) && status == Loaded && progress == DoneProgress
      ensures !old(active) ==> options == old(options) && status == old(status) && progress == old(progress)
      ensures player == old(player) && queued == old(queued)
      ensures mounted == old(mounted) && active == old(active)
    {
      if !active {
        return;
      }
      options := Some(loaded);
      status := Loaded;
      progress := DoneProgress;
    }

    /** The load was rejected; ignored once the app is gone. */
    method LoadFailed()
      requires Valid() && mounted
      modifies this
      ensures Valid()
      ensures old(active) ==> options == None && status == LoadError && progress == DoneProgress
      ensures !old(active) ==> options == old(options) && status == old(status) && progress == old(progress)
      ensures player == old(player) && queued == old(queued)
      ensures mounted == old(mounted) && active == old(active)
    {
      if !active {
        return;
      }
      status := LoadError;
      progress := DoneProgress;
      options := None;
    }

    /** The load effect's cleanup. */
    method Unmount()
      requires Valid()
      modifies this
      ensures Valid()
      ensures !active
      ensures player == old(player) && queued == old(queued)
      ensures options == old(options) && status == old(status) && progress == old(progress)
      ensures mounted == old(mounted)
    {
      active := false;
    }

    /** The hand-off effect: with the options ready, a queued player becomes the player. */
    method PromoteQueued()
      requires Valid()
      modifies this
      ensures Valid()
      ensures old(CanOpenWheel()) && old(queued).Some? ==> player == old(queued) && queued == None
      ensures !(old(CanOpenWheel()) && old(queued).Some?) ==> player == old(player) && queued == old(queued)
      ensures CanOpenWheel() ==> queued == None
      ensures options == old(options) && status == old(status) && progress == old(progress)
      ensures mounted == old(mounted) && active == old(active)
    {
      if status == Loaded && options.Some? && queued.Some? {
        player := queued;
        queued := None;
      }
    }

    /**
     * `handlePlayerSubmit`: with the options ready the player goes straight to the
     * wheel; otherwise the submission replaces whatever was queued.
     */
    method HandlePlayerSubmit(info: PlayerInfo)
      requires Valid()
      modifies this
      ensures Valid()
      ensures old(CanOpenWheel()) ==> player == Some(info) && queued == old(queued)
      ensures !old(CanOpenWheel()) ==> queued == Some(info) && player == old(player)
      ensures options == old(options) && status == old(status) && progress == old(progress)
      ensures mounted == old(mounted) && active == old(active)
    {
      if CanOpenWheel() {
        player := Some(info);
        return;
      }
      queued := Some(info);
    }
  }

  /**
   * The wheel is rendered exactly when the options are in and a player exists,
   * and then with the loaded options and that player; otherwise the form is, with
   * its button disabled exactly until the options are in.
   */
  lemma RenderChoice(a: AppState)
    requires a.Valid()
    ensures a.Render().WheelView? <==> a.status == Loaded && a.player.Some?
    ensures a.Render().WheelView? ==> a.Render() == WheelView(a.options.value, a.player.value) && a.progress == DoneProgress
    ensures a.Render().FormView? ==> (a.Render().submitDisabled <==> a.status != Loaded)
  {
  }

  /**
   * A player who submits while the options are still loading is held back, and the
   * wheel opens for them once the load succeeds and the hand-off effect has run; a
   * failed load leaves the form with its button disabled.
   */
  method SubmitDuringLoad(info: PlayerInfo, loaded: seq<ResolvedOption>, fails: bool) returns (a: AppState)
    ensures a.Valid()
    ensures !fails ==> a.Render() == WheelView(loaded, info)
    ensures fails ==> a.Render() == FormView(true) && a.queued == Some(info)
  {
    a := new AppState();
    a.Mount();
    a.HandlePlayerSubmit(info);
    if fails {
      a.LoadFailed();
    } else {
      a.LoadSucceeded(loaded);
    }
    a.PromoteQueued();
  }

  /**
   * A press of the form's button while the form is rendered with the prop the app
   * gives it (`submitDisabled={!canOpenWheel}`): whatever the form submits goes to
   * `handlePlayerSubmit`. Before the options are in nothing is submitted, so the
   * queue keeps what it held; once they are, a submitted player goes to the wheel.
   */
  method PressSubmit(a: AppState, f: PlayerForm.Form) returns (sent: Option<PlayerInfo>)
    requires a.Valid() && f.submitDisabled == !a.CanOpenWheel()
    modifies a, f
    ensures a.Valid()
    ensures !old(a.CanOpenWheel()) ==> sent == None && a.queued == old(a.queued) && a.player == old(a.player)
    ensures old(a.CanOpenWheel()) ==> f.errors == PlayerForm.CheckFields(f.email, f.phone)
    ensures old(a.CanOpenWheel()) ==> sent == (if f.errors == NoErrors then Some(PlayerForm.Submission(f.email, f.phone)) else None)
    ensures sent.Some? ==> a.player == sent && a.queued == old(a.queued)
    ensures sent.None? ==> a.player == old(a.player) && a.queued == old(a.queued)
    ensures a.options == old(a.options) && a.status == old(a.status) && a.progress == old(a.progress)
    ensures a.mounted == old(a.mounted) && a.active == old(a.active)
    ensures f.email == old(f.email) && f.phone == old(f.phone) && f.submitDisabled == old(f.submitDisabled)
  {
    sent := f.Press();
    if sent.Some? {
      a.HandlePlayerSubmit(sent.value);
    }
  }

  /**
   * The flow the form allows: a press while the options load submits nothing and
   * queues nobody; after the load the form is re-rendered with its button enabled,
   * and a press with valid fields opens the wheel for that player.
   */
  method SubmitAfterLoad(email: string, phone: string, loaded: seq<ResolvedOption>)
    returns (early: Option<PlayerInfo>, late: Option<PlayerInfo>, a: AppState)
    requires PlayerForm.CheckFields(email, phone) == NoErrors
    ensures a.Valid()
    ensures early == None
    ensures late == Some(PlayerForm.Submission(email, phone))
    ensures a.queued == None
    ensures a.Render() == WheelView(loaded, late.value)
  {
    a := new AppState();
    a.Mount();
    var f := new PlayerForm.Form(!a.CanOpenWheel());
    f.SetEmail(email);
    f.SetPhone(phone);
    early := PressSubmit(a, f);
    a.LoadSucceeded(loaded);
    a.PromoteQueued();
    f.SetSubmitDisabled(!a.CanOpenWheel());
    late := PressSubmit(a, f);
  }
}
