/**
 * The home page component (src/app/page.tsx) as an object: one field per
 * piece of page state, one method per handler, the asynchronous handlers
 * split at their await.  Each method's new state is the matching transition
 * of module Session, where its properties are proved.
 */
module Page {
  import opened Types
  import Request
  import Session

  class Home {
    var lawnDimensions: LawnDimensions
    var mowerPosition: MowerPosition
    var mowerPath: seq<Point>
    var isLoading: bool
    var status: Session.Status
    var apiStatus: Session.ApiStatus

    function State(): Session.SessionState
      reads this
    {
      Session.SessionState(lawnDimensions, mowerPosition, mowerPath, isLoading, status, apiStatus)
    }

    /** The initial state: 5x5 lawn, pose (1, 2, N), no path, idle, checking. */
    constructor ()
      ensures State() == Session.Initial()
      ensures lawnDimensions == LawnDimensions(5, 5) && mowerPosition == MowerPosition(1, 2, N)
      ensures mowerPath == [] && !isLoading && apiStatus == Session.Checking
    {
      lawnDimensions := LawnDimensions(5, 5);
      mowerPosition := MowerPosition(1, 2, N);
      mowerPath := [];
      isLoading := false;
      status := Session.Waiting;
      apiStatus := Session.Checking;
    }

    /** The `disabled` flag handed to the control panel. */
    function ControlsDisabled(): (disabled: bool)
      reads this
      ensures disabled <==> !Session.ControlsEnabled(State())
    {
      isLoading || apiStatus != Session.Connected
    }

    method CheckApiHealthStart()
      modifies this
      ensures State() == Session.StartHealthCheck(old(State()))
    {
      apiStatus := Session.Checking;
    }

    method CheckApiHealthFinish(ok: bool)
      modifies this
      ensures State() == Session.FinishHealthCheck(old(State()), ok)
    {
      if ok {
        apiStatus := Session.Connected;
        status := Session.ApiReachable;
      } else {
        apiStatus := Session.Disconnected;
        status := Session.ApiUnreachable;
      }
    }

    method HandleCellClick(x: int, y: int)
      modifies this
      ensures State() == Session.ClickCell(old(State()), x, y)
    {
      if x < lawnDimensions.width && y < lawnDimensions.height {
        mowerPosition := mowerPosition.(x := x, y := y);
        status := Session.Placed(x, y);
      }
    }

    /** executeMowerCommand up to the call: the request it sends, if any. */
    method ExecuteMowerCommandStart(commands: string) returns (request: Option<MowerCommandRequest>)
      modifies this
      ensures (State(), request) == Session.StartExecute(old(State()), commands)
    {
      if apiStatus != Session.Connected {
        status := Session.ApiUnavailable;
        return None;
      }
      isLoading := true;
      status := Session.Executing(commands);
      request := Some(Request.BuildRequest(lawnDimensions, mowerPosition, commands));
    }

    /** executeMowerCommand after the call: apply the outcome, then clear the busy flag. */
    method ExecuteMowerCommandFinish(outcome: Session.ExecOutcome)
      modifies this
      ensures State() == Session.FinishExecute(old(State()), outcome)
    {
      match outcome {
        case Success(resp) =>
          mowerPosition := MowerPosition(resp.x, resp.y, resp.direction);
          mowerPath := mowerPath + [Point(resp.x, resp.y)];
          status := Session.Executed(mowerPosition);
        case Failure =>
          status := Session.ExecutionFailed;
      }
      isLoading := false;
    }

    method ResetMower()
      modifies this
      ensures State() == Session.ResetMower(old(State()))
    {
      mowerPosition := MowerPosition(1, 2, N);
      mowerPath := [];
      status := Session.MowerWasReset;
    }

    method ClearPath()
      modifies this
      ensures State() == Session.ClearPath(old(State()))
    {
      mowerPath := [];
      status := Session.PathWasCleared;
    }

    /** The settings form's onDimensionsChange. */
    method SetLawnDimensions(dims: LawnDimensions)
      modifies this
      ensures State() == Session.SetDimensions(old(State()), dims)
    {
      lawnDimensions := dims;
    }

    /** The control panel's onPositionChange. */
    method SetMowerPosition(pose: MowerPosition)
      modifies this
      ensures State() == Session.SetPosition(old(State()), pose)
    {
      mowerPosition := pose;
    }
  }
}
