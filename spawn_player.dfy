/** The player-spawn hook: one permission-guarded stub operation over the `isInitializing`,
    `currentStep`, `txStatus` and `txHash` state cells. The awaited work (a delay, then a random
    hash) is an oracle `work`: `Ok(hash)` when it resolves, `Err(e)` when it rejects. */
module SpawnPlayer {
  import opened Js
  import opened Wallet

  datatype TxStatus = Pending | Succeeded | Rejected

  datatype Step = Checking | Spawning | Loading | Success

  const NotConnected := "Wallet not connected"
  const InitFailed := "Failed to initialize player"

  /** `{ success, playerExists, error? }`. */
  datatype InitResult = InitResult(success: bool, playerExists: bool, error: Option<string>)

  datatype SpawnState = SpawnState(
    isInitializing: bool,
    txHash: Option<string>,
    txStatus: Option<TxStatus>,
    currentStep: Step)

  /** The derived members of the returned record. */
  datatype SpawnView = SpawnView(
    completed: bool,
    error: Option<string>,
    isConnected: bool,
    playerExists: bool)

  function View(s: SpawnState, status: WalletStatus): (v: SpawnView)
    ensures v.completed <==> s.txStatus == Some(Succeeded)
    ensures v.isConnected <==> status == Connected
    ensures v.error == None && !v.playerExists
  {
    SpawnView(s.txStatus == Some(Succeeded), None, status == Connected, false)
  }

  class Initializer {
    var isInitializing: bool
    var txHash: Option<string>
    var txStatus: Option<TxStatus>
    var currentStep: Step

    /** The states rendered so far; the updates made between two awaits render together. */
    ghost var renders: seq<SpawnState>

    function State(): SpawnState
      reads this
    {
      SpawnState(isInitializing, txHash, txStatus, currentStep)
    }

    constructor ()
      ensures State() == SpawnState(false, None, None, Checking) && renders == []
    {
      isInitializing, txHash, txStatus, currentStep := false, None, None, Checking;
      renders := [];
    }

    method InitializePlayer(status: WalletStatus, work: Reply<string>) returns (r: InitResult)
      modifies this
      ensures status != Connected ==>
        && r == InitResult(false, false, Some(NotConnected))
        && State() == old(State()) && renders == old(renders)
      ensures status == Connected ==>
        && renders == old(renders)
             + [old(State()).(isInitializing := true, currentStep := Checking, txStatus := Some(Pending)),
                State()]
        && !isInitializing
      ensures status == Connected && work.Ok? ==>
        && currentStep == Success && txStatus == Some(Succeeded) && txHash == Some(work.value)
        && r == InitResult(true, false, None)
      ensures status == Connected && work.Err? ==>
        && currentStep == Checking && txStatus == Some(Rejected) && txHash == old(txHash)
        && r == InitResult(false, false, Some(MessageOr(work.error, InitFailed)))
    {
      if status != Connected {
        return InitResult(false, false, Some(NotConnected));
      }
      isInitializing, currentStep, txStatus := true, Checking, Some(Pending);
      renders := renders + [State()];
      match work {
        case Ok(hash) =>
          currentStep, txStatus, txHash := Success, Some(Succeeded), Some(hash);
          r := InitResult(true, false, None);
        case Err(e) =>
          txStatus := Some(Rejected);
          r := InitResult(false, false, Some(MessageOr(e, InitFailed)));
      }
      isInitializing := false;
      renders := renders + [State()];
    }
  }
}
