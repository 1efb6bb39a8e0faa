/** The transition requests of the state machine and where they lead. */
module Transitions {
  import opened Configs

  datatype Transition =
    | OnAfterBoot(to: AppState)
      // to active
    | OnFirstSetup(serial: string, addrs: seq<string>)
    | OnMigrateFromOldVersion(deviceId: string, addr: string)
    | OnFallback
    | OnUpdateConfigFinished
    | OnUpdateDeviceFinished(failed: bool)
      // to update config
    | OnUpdateConfig(patch: Config)
    | OnRebuildServices
      // to maintenance
    | OnUpdateDevice(packages: seq<string>)
      // to reset
    | OnReset
      // to init
    | OnZTPSetupFinished
    | OnZTPSetupInterrupted
    | OnInitFallback
    | OnHubResetFinished
      // to ztp setup
    | OnZTPSetupConfig(patch: Config)
    | OnHubSetPort(port: string)
    | OnHubDeletePort(name: string)

  function ToState(t: Transition): AppState {
    match t
    case OnAfterBoot(to) => to
    case OnFirstSetup(_, _) => Active
    case OnMigrateFromOldVersion(_, _) => Active
    case OnFallback => Active
    case OnUpdateConfigFinished => Active
    case OnUpdateDeviceFinished(_) => Active
    case OnUpdateConfig(_) => UpdateConfig
    case OnRebuildServices => UpdateConfig
    case OnUpdateDevice(_) => Maintenance
    case OnReset => Reset
    case OnZTPSetupFinished => Init
    case OnZTPSetupInterrupted => Init
    case OnInitFallback => Init
    case OnHubResetFinished => Init
    case OnZTPSetupConfig(_) => ZTPSetup
    case OnHubSetPort(_) => ZTPSetup
    case OnHubDeletePort(_) => ZTPSetup
  }

  /** The requests that reach the state service from a message or websocket handler. */
  predicate IsCommand(t: Transition) {
    t.OnFirstSetup? || t.OnUpdateConfig? || t.OnRebuildServices? || t.OnUpdateDevice? || t.OnReset? ||
    t.OnZTPSetupConfig? || t.OnHubSetPort? || t.OnHubDeletePort?
  }

  /** The transition that a completed command ends with. */
  predicate FollowUp(t: Transition) {
    t.OnUpdateConfigFinished? || t.OnUpdateDeviceFinished? || t.OnZTPSetupFinished? || t.OnHubResetFinished?
  }

  /** How many follow-up transitions a request can still cause. */
  function Rank(t: Transition): nat {
    if t.OnAfterBoot? || (IsCommand(t) && !t.OnFirstSetup?) then 1 else 0
  }

  /** The table of ValidateTransition: may the handler of state to be entered from state from? */
  predicate Validates(to: AppState, from: AppState) {
    match to
    case Init => from in {Boot, ZTPSetup, Reset}
    case UpdateConfig => from in {Active, Boot}
    case Maintenance => from in {Active, Boot}
    case ZTPSetup => from in {Init, Boot}
    case Reset => from in {Boot, Init, Active}
    case _ => true
  }
}
