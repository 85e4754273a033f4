/**
 * The session of the home page (src/app/page.tsx) as pure transitions.
 *
 * The state is the six pieces of page state.  The two asynchronous handlers
 * are split at their single await: checkApiHealth into StartHealthCheck and
 * FinishHealthCheck, executeMowerCommand into StartExecute (which builds the
 * request) and FinishExecute (which applies the executor's outcome).
 *
 * The second half of the module puts the page's enable rules in front of the
 * handlers (a disabled control fires nothing) and counts the remote calls
 * sent and not yet answered, to show that at most one execute call is ever
 * outstanding.
 */
module Session {
  import opened Types
  import Request
  import LawnSettings
  import MowerControls

  datatype ApiStatus = Checking | Connected | Disconnected

  /** The status line, by which message it last showed. */
  datatype Status =
    | Waiting
    | ApiReachable
    | ApiUnreachable
    | Placed(x: int, y: int)
    | ApiUnavailable
    | Executing(commands: string)
    | Executed(pose: MowerPosition)
    | ExecutionFailed
    | MowerWasReset
    | PathWasCleared

  datatype SessionState = SessionState(
    lawnDimensions: LawnDimensions,
    mowerPosition: MowerPosition,
    mowerPath: seq<Point>,
    isLoading: bool,
    status: Status,
    apiStatus: ApiStatus)

  /** How the execute call ended: the executor's answer, or any transport error. */
  datatype ExecOutcome = Success(response: MowerResponse) | Failure

  const DefaultDimensions: LawnDimensions := LawnDimensions(5, 5)
  const DefaultPosition: MowerPosition := MowerPosition(1, 2, N)

  /**
   * The state on mount: the default 5x5 lawn with the mower at (1, 2) facing
   * north, inside the lawn; no path, idle, and the connection still unknown,
   * so the control panel starts disabled.
   */
  function Initial(): (s: SessionState)
    ensures s.lawnDimensions == DefaultDimensions && s.mowerPosition == DefaultPosition
    ensures 0 <= s.mowerPosition.x < s.lawnDimensions.width
            && 0 <= s.mowerPosition.y < s.lawnDimensions.height
    ensures s.mowerPath == [] && !s.isLoading && s.status == Waiting && s.apiStatus == Checking
    ensures !ControlsEnabled(s) && SettingsEnabled(s) && !HealthButtonEnabled(s)
  {
    SessionState(DefaultDimensions, DefaultPosition, [], false, Waiting, Checking)
  }

  /** checkApiHealth up to the await: the status badge shows the check. */
  function StartHealthCheck(s: SessionState): (t: SessionState)
    ensures t.apiStatus == Checking
    ensures t.(apiStatus := s.apiStatus) == s
  {
    s.(apiStatus := Checking)
  }

  /** checkApiHealth after the await: connected on success, disconnected on failure. */
  function FinishHealthCheck(s: SessionState, ok: bool): (t: SessionState)
    ensures t.apiStatus == (if ok then Connected else Disconnected)
    ensures t.status == (if ok then ApiReachable else ApiUnreachable)
    ensures t.(apiStatus := s.apiStatus, status := s.status) == s
  {
    if ok then s.(apiStatus := Connected, status := ApiReachable)
    else s.(apiStatus := Disconnected, status := ApiUnreachable)
  }

  /**
   * handleCellClick: inside the lawn (only the upper bounds are tested) the
   * mower moves to (x, y) and keeps its heading; otherwise nothing happens.
   */
  function ClickCell(s: SessionState, x: int, y: int): (t: SessionState)
    ensures x < s.lawnDimensions.width && y < s.lawnDimensions.height ==>
              t.mowerPosition == MowerPosition(x, y, s.mowerPosition.direction)
              && t.status == Placed(x, y)
              && t.(mowerPosition := s.mowerPosition, status := s.status) == s
    ensures !(x < s.lawnDimensions.width && y < s.lawnDimensions.height) ==> t == s
  {
    if x < s.lawnDimensions.width && y < s.lawnDimensions.height then
      s.(mowerPosition := s.mowerPosition.(x := x, y := y), status := Placed(x, y))
    else s
  }

  /**
   * executeMowerCommand up to the await.  Without a connection only the status
   * changes and no request is made; otherwise the busy flag is raised and the
   * request is built from the current lawn and pose.
   */
  function StartExecute(s: SessionState, commands: string): (r: (SessionState, Option<MowerCommandRequest>))
    ensures s.apiStatus != Connected ==> r.1.None? && r.0 == s.(status := ApiUnavailable)
    ensures s.apiStatus == Connected ==>
              r.1 == Some(Request.BuildRequest(s.lawnDimensions, s.mowerPosition, commands))
              && r.0.isLoading && r.0.status == Executing(commands)
              && r.0.(isLoading := s.isLoading, status := s.status) == s
  {
    if s.apiStatus != Connected then (s.(status := ApiUnavailable), None)
    else
      (s.(isLoading := true, status := Executing(commands)),
       Some(Request.BuildRequest(s.lawnDimensions, s.mowerPosition, commands)))
  }

  /**
   * executeMowerCommand after the await.  On success the pose is replaced by
   * the response's and exactly one point is appended to the path; on failure
   * pose and path stay.  The busy flag ends cleared either way, and neither
   * the lawn nor the connection state is touched.
   */
  function FinishExecute(s: SessionState, outcome: ExecOutcome): (t: SessionState)
    ensures !t.isLoading
    ensures t.lawnDimensions == s.lawnDimensions && t.apiStatus == s.apiStatus
    ensures outcome.Success? ==>
              var resp := outcome.response;
              t.mowerPosition == MowerPosition(resp.x, resp.y, resp.direction)
              && t.mowerPath == s.mowerPath + [Point(resp.x, resp.y)]
              && t.status == Executed(t.mowerPosition)
    ensures outcome.Failure? ==>
              t.mowerPosition == s.mowerPosition && t.mowerPath == s.mowerPath
              && t.status == ExecutionFailed
  {
    match outcome
    case Success(resp) =>
      var pose := MowerPosition(resp.x, resp.y, resp.direction);
      s.(mowerPosition := pose, mowerPath := s.mowerPath + [Point(resp.x, resp.y)],
         status := Executed(pose), isLoading := false)
    case Failure =>
      s.(status := ExecutionFailed, isLoading := false)
  }

  /** resetMower: default pose, empty path. */
  function ResetMower(s: SessionState): (t: SessionState)
    ensures t.mowerPosition == DefaultPosition && t.mowerPath == [] && t.status == MowerWasReset
    ensures t.(mowerPosition := s.mowerPosition, mowerPath := s.mowerPath, status := s.status) == s
  {
    s.(mowerPosition := DefaultPosition, mowerPath := [], status := MowerWasReset)
  }

  /** clearPath: empty path; pose and lawn stay. */
  function ClearPath(s: SessionState): (t: SessionState)
    ensures t.mowerPath == [] && t.status == PathWasCleared
    ensures t.(mowerPath := s.mowerPath, status := s.status) == s
  {
    s.(mowerPath := [], status := PathWasCleared)
  }

  /** The settings form's callback: new dimensions; the mower is not moved. */
  function SetDimensions(s: SessionState, dims: LawnDimensions): (t: SessionState)
    ensures t.lawnDimensions == dims && t.(lawnDimensions := s.lawnDimensions) == s
  {
    s.(lawnDimensions := dims)
  }

  /** The control panel's callback: the pose is replaced wholesale. */
  function SetPosition(s: SessionState, pose: MowerPosition): (t: SessionState)
    ensures t.mowerPosition == pose && t.(mowerPosition := s.mowerPosition) == s
  {
    s.(mowerPosition := pose)
  }

  /** The control panel is enabled exactly when idle and connected. */
  predicate ControlsEnabled(s: SessionState) { !s.isLoading && s.apiStatus == Connected }

  /** The settings form and the clear and reset buttons are enabled when idle. */
  predicate SettingsEnabled(s: SessionState) { !s.isLoading }

  /** The connection test button is enabled unless a check is running. */
  predicate HealthButtonEnabled(s: SessionState) { s.apiStatus != Checking }

  // ---- The page with its enable rules --------------------------------------

  /** One operator action or one arriving answer. */
  datatype UiEvent =
    | HealthButton
    | HealthReply(ok: bool)
    | GridClick(x: int, y: int)
    | ManualButton(button: MowerControls.Button)
    | SequenceButton(sequence: string)
    | ExecuteReply(outcome: ExecOutcome)
    | DimensionInput(field: LawnSettings.DimensionField, parsed: Option<int>)
    | CoordinateInput(coordinate: MowerControls.Coordinate, parsed: Option<int>)
    | DirectionInput(direction: Direction)
    | ResetButton
    | ClearButton

  /**
   * The session with the number of execute calls and of health calls that
   * were sent and are not answered yet.
   */
  datatype World = World(session: SessionState, executing: nat, checking: nat)

  /** On mount the page starts one health check. */
  function InitialWorld(): (w: World)
    ensures w.session == Initial() && w.executing == 0 && w.checking == 1
  {
    World(Initial(), 0, 1)
  }

  /**
   * Hand a command string, if any, to executeMowerCommand.  A call is sent,
   * and counted, exactly when there is a string and the API is connected.
   */
  function Dispatch(w: World, commands: Option<string>): (v: World)
    ensures commands.None? ==> v == w
    ensures v.checking == w.checking
    ensures v.executing == (if commands.Some? && w.session.apiStatus == Connected
                            then w.executing + 1 else w.executing)
    ensures commands.Some? ==> v.session == StartExecute(w.session, commands.value).0
  {
    match commands
    case None => w
    case Some(c) =>
      var (t, request) := StartExecute(w.session, c);
      World(t, if request.Some? then w.executing + 1 else w.executing, w.checking)
  }

  /**
   * One event, through the enable rule of the control it comes from: a
   * disabled control changes nothing, an enabled button dispatches its
   * command, and the grid, which has no enable rule, always reaches the
   * click handler.  A reply with no call outstanding is ignored.
   */
  function Step(w: World, e: UiEvent): (v: World)
    ensures (e.ManualButton? || e.SequenceButton? || e.CoordinateInput? || e.DirectionInput?) ==>
              !ControlsEnabled(w.session) ==> v == w
    ensures (e.DimensionInput? || e.ResetButton? || e.ClearButton?) ==>
              !SettingsEnabled(w.session) ==> v == w
    ensures e.HealthButton? && !HealthButtonEnabled(w.session) ==> v == w
    ensures e.HealthButton? && HealthButtonEnabled(w.session) ==>
              v == World(StartHealthCheck(w.session), w.executing, w.checking + 1)
    ensures e.HealthReply? && w.checking > 0 ==>
              v == World(FinishHealthCheck(w.session, e.ok), w.executing, w.checking - 1)
    ensures e.ManualButton? && ControlsEnabled(w.session) ==>
              v == Dispatch(w, Some(MowerControls.ButtonCommand(e.button)))
    ensures e.SequenceButton? && ControlsEnabled(w.session) ==>
              v == Dispatch(w, if e.sequence == "" then None else Some(e.sequence))
    ensures e.GridClick? ==> v == w.(session := ClickCell(w.session, e.x, e.y))
    ensures e.ExecuteReply? && w.executing > 0 ==>
              v == World(FinishExecute(w.session, e.outcome), w.executing - 1, w.checking)
    ensures (e.HealthReply? && w.checking == 0) || (e.ExecuteReply? && w.executing == 0) ==> v == w
    ensures e.DimensionInput? && SettingsEnabled(w.session) ==>
              v == w.(session := SetDimensions(w.session,
                        LawnSettings.OnDimensionInput(w.session.lawnDimensions, e.field, e.parsed)))
    ensures e.CoordinateInput? && ControlsEnabled(w.session) ==>
              v == w.(session := SetPosition(w.session,
                        MowerControls.OnCoordinateInput(w.session.mowerPosition, e.coordinate, e.parsed)))
    ensures e.DirectionInput? && ControlsEnabled(w.session) ==>
              v == w.(session := SetPosition(w.session,
                        MowerControls.HandleDirectionChange(w.session.mowerPosition, e.direction)))
    ensures e.ResetButton? && SettingsEnabled(w.session) ==> v == w.(session := ResetMower(w.session))
    ensures e.ClearButton? && SettingsEnabled(w.session) ==> v == w.(session := ClearPath(w.session))
  {
    var s := w.session;
    match e
    case HealthButton =>
      if HealthButtonEnabled(s) then World(StartHealthCheck(s), w.executing, w.checking + 1) else w
    case HealthReply(ok) =>
      if w.checking > 0 then World(FinishHealthCheck(s, ok), w.executing, w.checking - 1) else w
    case GridClick(x, y) =>
      w.(session := ClickCell(s, x, y))
    case ManualButton(b) =>
      Dispatch(w, MowerControls.PressButton(b, !ControlsEnabled(s)))
    case SequenceButton(q) =>
      Dispatch(w, MowerControls.SubmitSequence(q, !ControlsEnabled(s)))
    case ExecuteReply(o) =>
      if w.executing > 0 then World(FinishExecute(s, o), w.executing - 1, w.checking) else w
    case DimensionInput(f, p) =>
      if SettingsEnabled(s)
      then w.(session := SetDimensions(s, LawnSettings.OnDimensionInput(s.lawnDimensions, f, p)))
      else w
    case CoordinateInput(c, p) =>
      if ControlsEnabled(s)
      then w.(session := SetPosition(s, MowerControls.OnCoordinateInput(s.mowerPosition, c, p)))
      else w
    case DirectionInput(d) =>
      if ControlsEnabled(s)
      then w.(session := SetPosition(s, MowerControls.HandleDirectionChange(s.mowerPosition, d)))
      else w
    case ResetButton =>
      if SettingsEnabled(s) then w.(session := ResetMower(s)) else w
    case ClearButton =>
      if SettingsEnabled(s) then w.(session := ClearPath(s)) else w
  }

  function Run(w: World, events: seq<UiEvent>): World
    decreases |events|
  {
    if |events| == 0 then w else Run(Step(w, events[0]), events[1..])
  }

  /**
   * The busy flag tells exactly whether an execute call is outstanding, and
   * the `checking` status exactly whether a health call is.
   */
  predicate Consistent(w: World)
  {
    && w.executing == (if w.session.isLoading then 1 else 0)
    && w.checking == (if w.session.apiStatus == Checking then 1 else 0)
  }

  lemma InitialConsistent()
    ensures Consistent(InitialWorld())
  {
  }

  lemma StepConsistent(w: World, e: UiEvent)
    requires Consistent(w)
    ensures Consistent(Step(w, e))
  {
  }

  lemma {:induction false} RunConsistent(w: World, events: seq<UiEvent>)
    requires Consistent(w)
    ensures Consistent(Run(w, events))
    decreases |events|
  {
    if |events| > 0 {
      StepConsistent(w, events[0]);
      RunConsistent(Step(w, events[0]), events[1..]);
    }
  }

  /** Whatever the operator does and whatever arrives, at most one call of each kind is outstanding. */
  lemma AtMostOneOutstanding(events: seq<UiEvent>)
    ensures Run(InitialWorld(), events).executing <= 1
    ensures Run(InitialWorld(), events).checking <= 1
  {
    RunConsistent(InitialWorld(), events);
  }

  /** While a call is outstanding, neither kind of dispatch sends anything or changes anything. */
  lemma BusyRefusesDispatch(w: World, e: UiEvent)
    requires w.session.isLoading || w.session.apiStatus != Connected
    requires e.ManualButton? || e.SequenceButton?
    ensures Step(w, e) == w
  {
  }

  /** A dispatch that sent a request blocks any dispatch right after it. */
  lemma SecondDispatchRefused(w: World, first: UiEvent, second: UiEvent)
    requires first.ManualButton? || first.SequenceButton?
    requires second.ManualButton? || second.SequenceButton?
    requires Step(w, first).executing > w.executing
    ensures Step(Step(w, first), second) == Step(w, first)
  {
  }

  /** Only the health check changes the connection state. */
  lemma OnlyHealthCheckChangesApiStatus(w: World, e: UiEvent)
    requires !e.HealthButton? && !e.HealthReply?
    ensures Step(w, e).session.apiStatus == w.session.apiStatus
  {
  }

  /** A failed call changes neither pose, path, lawn nor connection state. */
  lemma FailedReplyKeepsModel(w: World)
    ensures var t := Step(w, ExecuteReply(Failure)).session;
            t.mowerPosition == w.session.mowerPosition && t.mowerPath == w.session.mowerPath
            && t.lawnDimensions == w.session.lawnDimensions && t.apiStatus == w.session.apiStatus
  {
  }

  /**
   * The grid is not disabled while a call is outstanding: a click moves the
   * mower at once, and a successful reply then overwrites that pose.
   */
  lemma ClickWhileBusyIsOverwritten(w: World, x: int, y: int, resp: MowerResponse)
    requires Consistent(w) && w.session.isLoading
    requires x < w.session.lawnDimensions.width && y < w.session.lawnDimensions.height
    ensures Step(w, GridClick(x, y)).session.mowerPosition
         == MowerPosition(x, y, w.session.mowerPosition.direction)
    ensures Step(Step(w, GridClick(x, y)), ExecuteReply(Success(resp))).session.mowerPosition
         == MowerPosition(resp.x, resp.y, resp.direction)
  {
  }

  /** A failed health check at start-up leaves every dispatch without effect. */
  lemma {:induction false} DisconnectedDispatchIsNoOp(button: MowerControls.Button, sequence: string)
    ensures var w := Run(InitialWorld(), [HealthReply(false)]);
            w.session.apiStatus == Disconnected && w.executing == 0
            && Step(w, ManualButton(button)) == w && Step(w, SequenceButton(sequence)) == w
  {
    var w := Run(InitialWorld(), [HealthReply(false)]);
    assert w == Step(InitialWorld(), HealthReply(false));
  }

  /** Start-up, connected, the default sequence, and the executor answering (1, 3, N). */
  lemma {:induction false} DefaultSequenceScenario(id: string, echo: string)
    ensures var reply := ExecuteReply(Success(MowerResponse(id, 1, 3, N, echo)));
            var w := Run(InitialWorld(), [HealthReply(true), SequenceButton("GAGAGAGAA"), reply]);
            w.session.mowerPosition == MowerPosition(1, 3, N)
            && w.session.mowerPath == [Point(1, 3)]
            && !w.session.isLoading && w.executing == 0
  {
    var reply := ExecuteReply(Success(MowerResponse(id, 1, 3, N, echo)));
    var w0 := InitialWorld();
    var w1 := Step(w0, HealthReply(true));
    var w2 := Step(w1, SequenceButton("GAGAGAGAA"));
    var w3 := Step(w2, reply);
    assert Run(w0, [HealthReply(true), SequenceButton("GAGAGAGAA"), reply]) == Run(w1, [SequenceButton("GAGAGAGAA"), reply]);
    assert Run(w1, [SequenceButton("GAGAGAGAA"), reply]) == Run(w2, [reply]);
    assert Run(w2, [reply]) == w3;
  }
}
