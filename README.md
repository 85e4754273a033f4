# Mower front-end: session state and command dispatch

This project models the client side of the MowItNow mower front-end. An
operator sets up a rectangular lawn, places one mower on it, and sends
commands to a remote executor. The commands are single tokens G, A and D,
or a whole sequence. The model covers these parts:

- **Shared records** (`types.dfy`, from `src/types/mower.ts`): lawn
  dimensions, pose, path point, request and response.
- **Request serialiser** (`request.dfy`). The lawn is sent as its inclusive
  top-right corner `"<width-1> <height-1>"`. The pose is sent as
  `"<x> <y> <letter>"`. The commands pass through unchanged. A reference parser
  reads the strings back. Proving that it recovers every input shows that the
  encoding loses nothing.
- **Lawn settings** (`lawn_settings.dfy`): each dimension is clamped to
  [1, 20], and an unparsable or zero input counts as 1.
- **Control panel** (`mower_controls.dfy`): pose edits clamp to `>= 0`. The
  three manual buttons each send one token. The sequence box stores its text
  upper-cased and will not submit an empty sequence.
- **Grid renderer** (`lawn_grid.dfy`): display row `r` shows model row
  `height-1-r`. Each cell shows the mower with its heading symbol, a path
  mark, or nothing.
- **Page session** (`session.dfy`, `page.dfy`, from `src/app/page.tsx`).
  `Session` holds the handlers as pure transitions over the six pieces of
  page state. The two awaiting handlers are split into a start step and a
  finish step, and the finish step takes the remote outcome as a parameter.
  `Session.Step` puts the page's enable rules in front of the handlers. It
  counts execute and health calls that were sent but not yet answered.
  `Page.Home` is the page as an object with one field per state variable.
  Each of its methods updates the fields as its handler does, and its
  `ensures` says the new state is the matching `Session` transition.

Two consequences of the code are worth stating on their own:

- `executeMowerCommand` tests only the connection state
  (`src/app/page.tsx:44`), not the busy flag. The rule that at most one
  execute call is in flight comes from the `disabled` props of the controls
  (`src/app/page.tsx:167`). So `Session.StartExecute` does not look at the
  busy flag, and the rule is proved one level up, in `Session.Step`.
- The grid has no `disabled` prop (`src/app/page.tsx:150-155`). A click while
  a call is in flight moves the mower at once, and the reply then overwrites
  that move (`Session.ClickWhileBusyIsOverwritten`).

## Model

| member | source | states |
|---|---|---|
| Types.DirectionLetter | src/app/page.tsx:55 | the heading is written as one of the letters N, E, S, W |
| Types.OrDefault | src/components/LawnSettings.tsx:36 | the JavaScript "parse, or else the fallback" of a number field: NaN and 0 both give the fallback; any other number is kept (also lines 51 and MowerControls.tsx 46, 60) |
| Request.NatToString | src/app/page.tsx:54-55 | decimal rendering: a canonical numeral (at least one digit, digits only, no leading zero except for 0 itself) |
| Request.IntToString | src/app/page.tsx:54-55 | integer rendering: canonical (no leading zero, no "-0"), never contains a space, starts with '-' exactly for negatives, and is the decimal rendering of the magnitude after the sign |
| Request.DigitsValuePositive | src/app/page.tsx:54-55 | digits that do not start with '0' have a positive value |
| Request.CanonicalNatUnique | src/app/page.tsx:54-55 | every canonical numeral is the decimal rendering of its own value, so the rendering of a number is the only canonical text for it |
| Request.CanonicalIntUnique | src/app/page.tsx:54-55 | every canonical integer text is the rendering of the integer it parses to |
| Request.DirectionLetterRoundTrip | src/app/page.tsx:55 | the heading letter reads back as the heading |
| Request.JoinSplit | src/app/page.tsx:54-55 | joining the space-separated parts with single spaces gives the text back |
| Request.NatToStringValue | src/app/page.tsx:54-55 | reading back the decimal digits gives the number |
| Request.IntRoundTrip | src/app/page.tsx:54-55 | parsing the rendering of any integer gives that integer |
| Request.EncodeLawn | src/app/page.tsx:54 | the lawn field reads back as the corner (width-1, height-1) and consists of two canonical integers separated by one space |
| Request.EncodePose | src/app/page.tsx:55 | the pose field reads back as exactly the pose and its two numbers are canonical integers |
| Request.LawnTextUnique | src/app/page.tsx:54 | EncodeLawn(d) is the only canonical two-number text that reads back as the corner of d |
| Request.PoseTextUnique | src/app/page.tsx:55 | EncodePose(p) is the only canonical pose text that reads back as p |
| Request.BuildRequest | src/app/page.tsx:53-57 | the request carries the commands unchanged, the lawn as its top-right corner and the pose, each recoverable and each written canonically, which fixes the exact text sent |
| Request.BuildRequestInjective | src/app/page.tsx:53-57 | different lawn, pose or commands never give the same request |
| Request.DefaultRequest | src/app/page.tsx:53-57 | 5x5, (1, 2, N), "GAGAGAGAA" gives "4 4", "1 2 N", "GAGAGAGAA" |
| LawnSettings.Clamp | src/components/LawnSettings.tsx:18 | the result lies in [1, 20]; an in-range value is kept; below gives 1, above gives 20 |
| LawnSettings.ClampIdempotent | src/components/LawnSettings.tsx:18 | clamping twice equals clamping once |
| LawnSettings.ClampExamples | src/components/LawnSettings.tsx:18 | 0 gives 1, 25 gives 20, 7 stays 7 |
| LawnSettings.HandleDimensionChange | src/components/LawnSettings.tsx:17-20 | the edited dimension gets the clamped value; the other dimension is kept |
| LawnSettings.OnDimensionInput | src/components/LawnSettings.tsx:36 | an input event leaves the edited dimension in [1, 20], keeps the other, treats NaN or 0 as 1, and applies any other parsed value through the clamp (also line 51) |
| LawnSettings.BothFieldsClamped | src/components/LawnSettings.tsx:17-19 | width 0 then height 25 gives a 1x20 lawn from any record |
| MowerControls.HandlePositionChange | src/components/MowerControls.tsx:27-29 | the edited coordinate becomes max(0, value), with no upper bound; the other coordinate and the heading are kept |
| MowerControls.HandleDirectionChange | src/components/MowerControls.tsx:23-25 | only the heading is replaced; x and y are kept |
| MowerControls.OnCoordinateInput | src/components/MowerControls.tsx:46 | an unparsable coordinate counts as 0 (also line 60) |
| MowerControls.ButtonCommand | src/components/MowerControls.tsx:91-107 | each button sends one command token: left "G", right "D", advance "A" |
| MowerControls.ButtonCommandInjective | src/components/MowerControls.tsx:91-107 | the three buttons send three different tokens |
| MowerControls.PressButton | src/components/MowerControls.tsx:90-94 | a press sends something exactly when the panel is enabled, and what it sends is that button's one-letter token |
| MowerControls.UpperChar | src/components/MowerControls.tsx:124 | a lower-case letter becomes its upper-case letter; every other character is kept |
| MowerControls.ToUpper | src/components/MowerControls.tsx:124 | same length, no lower-case letter left, character by character upper-casing |
| MowerControls.ToUpperIdempotent | src/components/MowerControls.tsx:124 | upper-casing twice equals upper-casing once |
| MowerControls.ToUpperAcceptsEitherCase | src/components/MowerControls.tsx:124 | commands typed in either case become a G/D/A command string |
| MowerControls.SubmitSequence | src/components/MowerControls.tsx:130-133 | nothing is sent exactly when the panel is disabled or the sequence is empty; otherwise the sequence is sent as it is |
| MowerControls.SequenceBox.constructor | src/components/MowerControls.tsx:21 | the box starts with "GAGAGAGAA" |
| MowerControls.SequenceBox.OnChange | src/components/MowerControls.tsx:124 | the stored text becomes the upper-cased input; no lower-case letter is ever stored |
| MowerControls.SequenceBox.Execute | src/components/MowerControls.tsx:131-133 | pressing execute hands over the stored sequence unless disabled or empty; what is handed over has no lower-case letter |
| LawnGrid.DirectionSymbol | src/components/LawnGrid.tsx:13-18 | a heading is drawn as one of the four arrows |
| LawnGrid.DirectionSymbolInjective | src/components/LawnGrid.tsx:13-18 | the four headings have four different symbols |
| LawnGrid.FirstMowerAt | src/components/LawnGrid.tsx:27 | `find`: no result exactly when no mower stands on the cell; otherwise the first mower that does |
| LawnGrid.PathVisits | src/components/LawnGrid.tsx:28 | the inner `some`: true exactly when the path contains the point |
| LawnGrid.AnyPathVisits | src/components/LawnGrid.tsx:28 | the outer `some`: true exactly when some path contains the point |
| LawnGrid.RenderCell | src/components/LawnGrid.tsx:26-45 | a cell keeps its coordinates; it shows a mower exactly when one stands there, with the first such mower's symbol; it shows a path exactly when no mower stands there and some path visits it |
| LawnGrid.RowToY | src/components/LawnGrid.tsx:52 | display row `row` maps to a model row on the lawn exactly when `row` lies in [0, height) |
| LawnGrid.RowToYSelfInverse | src/components/LawnGrid.tsx:52 | the row-to-y mapping is its own inverse |
| LawnGrid.Render | src/components/LawnGrid.tsx:49-55 | `height` rows of `width` cells; display cell (r, c) shows model cell (c, height-1-r) |
| LawnGrid.RenderedCellsOnLawn | src/components/LawnGrid.tsx:49-53 | every rendered cell has coordinates on the lawn |
| LawnGrid.EveryCellRenderedOnce | src/components/LawnGrid.tsx:49-53 | every lawn cell appears at display row height-1-y, column x, and at no other place |
| LawnGrid.ClickedPoint | src/components/LawnGrid.tsx:39-52 | a click on display cell (r, c) of the rendered grid reports model point (c, height-1-r), which lies on the lawn |
| Session.Initial | src/app/page.tsx:11-16 | the page mounts with a 5x5 lawn and the mower at (1, 2, N), which lies on it; no path, idle, the connection unknown, so the control panel is disabled, the settings are enabled and the test button is disabled |
| Session.StartHealthCheck | src/app/page.tsx:23-26 | the connection state becomes checking; nothing else changes |
| Session.FinishHealthCheck | src/app/page.tsx:27-33 | success gives connected, failure gives disconnected, with the matching message; nothing else changes |
| Session.ClickCell | src/app/page.tsx:36-41 | below the width and height bounds, x and y are replaced and the heading is kept; otherwise the state is unchanged |
| Session.StartExecute | src/app/page.tsx:43-57 | when not connected, only the status changes and no request is made; when connected, the busy flag is set and the request is built from the current lawn and pose |
| Session.FinishExecute | src/app/page.tsx:59-77 | success replaces the pose by the response's and appends exactly that point to the path; failure keeps pose and path; the busy flag ends cleared and the lawn and connection state are untouched either way |
| Session.ResetMower | src/app/page.tsx:88-92 | the pose becomes (1, 2, N) and the path is emptied; the lawn and flags are kept |
| Session.ClearPath | src/app/page.tsx:94-97 | the path is emptied; pose, lawn and flags are kept |
| Session.SetDimensions | src/app/page.tsx:122-126 | new dimensions replace the old ones; the mower is not moved |
| Session.SetPosition | src/app/page.tsx:162-164 | the pose is replaced wholesale; nothing else changes |
| Session.ControlsEnabled | src/app/page.tsx:167 | the control panel (coordinates, heading, three buttons, sequence box; MowerControls.tsx lines 48, 62, 74, 93, 101, 109, 127, 133) is enabled exactly when idle and connected; used by Session.Step and Page.Home.ControlsDisabled |
| Session.SettingsEnabled | src/app/page.tsx:125-142 | the settings form and the reset and clear buttons are enabled exactly when idle; used by Session.Step |
| Session.HealthButtonEnabled | src/app/page.tsx:176 | the test button is enabled exactly when no check is running; used by Session.Step |
| Session.Dispatch | src/app/page.tsx:43-50 | no command string changes nothing; a call is sent and counted exactly when there is a string and the API is connected; the session follows executeMowerCommand up to its await |
| Session.Step | src/app/page.tsx:125-176 | every event is pinned: a disabled control changes nothing; an enabled manual button dispatches that button's token and an enabled sequence box its non-empty text; an enabled test button starts a check and counts it; an enabled dimension, coordinate or heading edit, reset or clear reaches exactly its handler; a grid click always reaches the click handler and changes no counter; a reply to an outstanding call is applied by its finish step and uncounted, and a reply with none outstanding is ignored |
| Session.InitialWorld | src/app/page.tsx:18-21 | the page mounts in Session.Initial with no execute call and the one mount-time health call outstanding |
| Session.InitialConsistent | src/app/page.tsx:11-21 | at start-up, no execute call is outstanding and the mount-time health call is |
| Session.StepConsistent | src/app/page.tsx:167 | under the enable rules, every event keeps the busy flag equal to "an execute call is outstanding" and the checking state equal to "a health call is outstanding" |
| Session.RunConsistent | src/app/page.tsx:43-77 | the same holds after any sequence of events |
| Session.AtMostOneOutstanding | src/app/page.tsx:167 | from start-up, at most one execute call and at most one health call are ever outstanding |
| Session.BusyRefusesDispatch | src/app/page.tsx:167 | while busy or not connected, a button or sequence dispatch sends nothing and changes nothing |
| Session.SecondDispatchRefused | src/app/page.tsx:49 | a dispatch that sent a request blocks the next dispatch |
| Session.OnlyHealthCheckChangesApiStatus | src/app/page.tsx:23-34 | no event other than the health check and its reply changes the connection state |
| Session.FailedReplyKeepsModel | src/app/page.tsx:72-77 | a failed call changes neither pose, path, lawn nor connection state |
| Session.ClickWhileBusyIsOverwritten | src/app/page.tsx:36-41 | a grid click while a call is outstanding moves the mower to the clicked cell with its heading kept, and the successful reply then overwrites that pose |
| Session.DisconnectedDispatchIsNoOp | src/app/page.tsx:44-47 | after a failed start-up health check, no dispatch sends a request or changes the state |
| Session.DefaultSequenceScenario | src/app/page.tsx:62-69 | connected, sending the default sequence and receiving (1, 3, N) gives pose (1, 3, N), path [(1, 3)], and idle |
| Page.Home.constructor | src/app/page.tsx:11-16 | the page starts with a 5x5 lawn, pose (1, 2, N), empty path, idle, and checking |
| Page.Home.ControlsDisabled | src/app/page.tsx:167 | the panel is disabled exactly when busy or not connected |
| Page.Home.CheckApiHealthStart | src/app/page.tsx:23-26 | the new state is `Session.StartHealthCheck` of the old one |
| Page.Home.CheckApiHealthFinish | src/app/page.tsx:27-33 | the new state is `Session.FinishHealthCheck` of the old one |
| Page.Home.HandleCellClick | src/app/page.tsx:36-41 | the new state is `Session.ClickCell` of the old one |
| Page.Home.ExecuteMowerCommandStart | src/app/page.tsx:43-57 | the new state and the returned request are `Session.StartExecute` of the old state |
| Page.Home.ExecuteMowerCommandFinish | src/app/page.tsx:59-77 | the new state is `Session.FinishExecute` of the old one |
| Page.Home.ResetMower | src/app/page.tsx:88-92 | the new state is `Session.ResetMower` of the old one |
| Page.Home.ClearPath | src/app/page.tsx:94-97 | the new state is `Session.ClearPath` of the old one |
| Page.Home.SetLawnDimensions | src/app/page.tsx:124 | the new state is `Session.SetDimensions` of the old one |
| Page.Home.SetMowerPosition | src/app/page.tsx:164 | the new state is `Session.SetPosition` of the old one |

## Left out

- `src/lib/api.ts`: the fetch calls, the JSON coding and the base URL from
  the environment are left out. A call's result enters only as the outcome
  handed to the finish step. A transport error or a body that is not JSON
  is covered by `Failure`. A 2xx body that is valid JSON but lacks `x` or
  `y`, or carries another direction string, does not throw and is applied
  as it is (`src/app/page.tsx:62-69`); `Success` carries only well-formed
  responses, so the model cannot express that case.
- `executeBatchMowers` and `BatchMowerRequest`: the page never calls them.
- `next.config.ts`: build configuration only.
- The movement algorithm (what G, D and A do) and boundary enforcement belong
  to the remote executor. The client applies whatever pose comes back and does
  not check it against the lawn.
- async/await and React's update scheduling are modelled as separate start
  and finish steps. The status line is a coarse enum rather than the French
  messages, and `console.error` is left out.
- JSX, CSS classes, labels, hover styles and the status badge's colours are
  left out.
- `parseInt`: the model takes its result as given, with `None` for NaN. How
  the browser turns the input text into a number is left out.
- The sequence box is gated more loosely than the page gates it.
  `MowerControls.SequenceBox.OnChange` has no disabled flag, although the
  text input is disabled with the panel (`src/components/MowerControls.tsx:127`).
  The `SequenceButton` event of `Session.Step` carries any string, not only
  the box's stored upper-cased text. Both over-approximate what the page can
  do, so the invariants proved over all events still hold for it.
- MowerControls.ToUpper: upper-cases only the ASCII letters a-z. JavaScript's
  `toUpperCase` also maps other Unicode letters, some of them to two
  characters.
- Request.IntToString: JavaScript numbers are modelled as exact unbounded
  integers, always written in plain decimal. JavaScript writes numbers of
  magnitude 1e21 and above in exponent notation ("1e+21"). Such values do
  reach the serialiser. The coordinate inputs are bounded below only
  (`Math.max(0, value)`, `src/components/MowerControls.tsx:28`), so a typed
  22-digit x is sent in exponent form, and the pose of a reply is applied
  verbatim (`src/app/page.tsx:62-66`). Only the lawn fields are bounded, by
  the clamp to [1, 20]. Integers beyond 2^53, which JavaScript rounds, are
  not modelled either.
- The remote side's parser of the request is not in the repository. The
  parser here is only the reference inverse used to state the round trips.
