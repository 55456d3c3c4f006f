/** The move hook: three permission-guarded stub operations over the `isMoving`, `error` and
    `txHash` state cells. The awaited work (a delay and a random hash) is an oracle `work`:
    `Ok(hash)` when it resolves with that hash, `Err(e)` when it rejects. */
module ChessMove {
  import opened Js
  import opened Wallet

  datatype MoveParams = MoveParams(gameId: int, fromRank: int, fromFile: int, toRank: int, toFile: int)

  datatype Operation = MakeMoveOp | CreateGameOp | ResignGameOp

  /** The message an operation reports when the rejection carries none. */
  function DefaultFailure(op: Operation): string
  {
    match op
    case MakeMoveOp => "Move failed"
    case CreateGameOp => "Game creation failed"
    case ResignGameOp => "Resign failed"
  }

  const NotConnected := "Wallet not connected"

  /** `{ success: true, txHash }` or `{ success: false, error }`. */
  datatype TxResult = Succeeded(txHash: string) | Failed(error: string)

  datatype MoveState = MoveState(isMoving: bool, error: Option<string>, txHash: Option<string>)

  /** The other members of the returned record. */
  datatype MoveView = MoveView(isConnected: bool, supportsCreateGame: bool, supportsResignGame: bool)

  function View(status: WalletStatus): (v: MoveView)
    ensures v.isConnected <==> status == Connected
    ensures v.supportsCreateGame && v.supportsResignGame
  {
    MoveView(status == Connected, true, true)
  }

  class Mover {
    var isMoving: bool
    var error: Option<string>
    var txHash: Option<string>

    /** The states rendered so far; the updates made between two awaits render together. */
    ghost var renders: seq<MoveState>

    function State(): MoveState
      reads this
    {
      MoveState(isMoving, error, txHash)
    }

    constructor ()
      ensures State() == MoveState(false, None, None) && renders == []
    {
      isMoving, error, txHash := false, None, None;
      renders := [];
    }

    /** The discipline every operation follows. Not connected: only `error` changes, to
        "Wallet not connected", which is also returned. Connected: a render with `isMoving`
        set and `error` cleared comes first; then `isMoving` is false again, and either the
        hash is stored and returned, or the rejection's message (or the operation's default)
        is stored and returned while `txHash` keeps its value. */
    twostate predicate Settled(op: Operation, status: WalletStatus, work: Reply<string>, r: TxResult)
      reads this
    {
      if status != Connected then
        && r == Failed(NotConnected)
        && State() == old(State()).(error := Some(NotConnected))
        && renders == old(renders) + [State()]
      else
        && renders == old(renders) + [old(State()).(isMoving := true, error := None), State()]
        && !isMoving
        && match work
           case Ok(hash) => r == Succeeded(hash) && txHash == Some(hash) && error == None
           case Err(e) =>
             && r == Failed(MessageOr(e, DefaultFailure(op)))
             && error == Some(r.error) && txHash == old(txHash)
    }

    method Submit(op: Operation, status: WalletStatus, work: Reply<string>) returns (r: TxResult)
      modifies this
      ensures Settled(op, status, work, r)
    {
      if status != Connected {
        error := Some(NotConnected);
        renders := renders + [State()];
        return Failed(NotConnected);
      }
      isMoving, error := true, None;
      renders := renders + [State()];
      match work {
        case Ok(hash) =>
          txHash := Some(hash);
          r := Succeeded(hash);
        case Err(e) =>
          error := Some(MessageOr(e, DefaultFailure(op)));
          r := Failed(MessageOr(e, DefaultFailure(op)));
      }
      isMoving := false;
      renders := renders + [State()];
    }

    method MakeMove(params: MoveParams, status: WalletStatus, work: Reply<string>) returns (r: TxResult)
      modifies this
      ensures Settled(MakeMoveOp, status, work, r)
    {
      r := Submit(MakeMoveOp, status, work);
    }

    method CreateGame(isSinglePlayer: bool, status: WalletStatus, work: Reply<string>) returns (r: TxResult)
      modifies this
      ensures Settled(CreateGameOp, status, work, r)
    {
      r := Submit(CreateGameOp, status, work);
    }

    method ResignGame(gameId: int, status: WalletStatus, work: Reply<string>) returns (r: TxResult)
      modifies this
      ensures Settled(ResignGameOp, status, work, r)
    {
      r := Submit(ResignGameOp, status, work);
    }
  }
}
