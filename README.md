# Scoreboard monitor: delta processor and service grid

This project models the core of a terminal monitor for an attack/defence CTF
scoreboard, written in Dafny. The monitor polls the scoreboard once per round.
It finds the monitored team, compares each of its services with the previous
round, and draws the services as a grid of columns in the terminal.

Two parts are modelled.

**The per-round delta processor** (`data_processor.py`, modules `DataProcessor`, `Scoreboard` and `OrderedDict`):
- The JSON snapshot becomes datatypes. A key read with a default is an
  `Option` with that default applied. A key read by subscript is an `Option`
  whose absence is the program's `KeyError`, which the model reports as
  `Outcome.MissingKey`.
- Python's insertion-ordered `dict` is `OrderedDict.Dict`: a key sequence plus a map.
- The team search is a loop with an early return.
- For each service the model computes:
  - the SLA and the SLA-adjusted score;
  - every delta against the previous round's record of the same service;
  - the three checks in `S P G` order;
  - a table holding the first failure reason of each service.
- When a service has no previous record, each delta is the current value minus 0, that is the current value. The defence-flag delta is minus the current `lost` (`FirstObservationDeltas`).
- Finally, when the snapshot has a non-empty top-level service list, the model puts the services in that list's order. Otherwise they keep the order in which the team first lists them.
- Each loop is a `method` proved equal to a functional specification, and the properties are lemmas about those specifications.

**The service grid** (`terminal_ui.py`, module `TerminalUi`):
- padding and aligned cells;
- the score and flag delta fragments;
- the check letters;
- the number and width of the columns for a terminal width;
- the cut of the services into blocks of columns, the eight cells of each column and the lines each block prints.

The string helpers Python provides live in `Text`: `strip`, `replace`, `join`, `split`, `str(int)` and `f"{v:+}"`.

Numbers are modelled as `int` and `real`, not as IEEE floats. Python's true
division is exact real division. The `//` in the layout code always has a
positive divisor, so it matches Dafny's `/`.

Two things are parameters of the grid model rather than definitions:
- `vlen`, the visible width of a string, which the program computes with
  `wcswidth` after removing colour codes. Lemmas that need a concrete width
  use `PlainWidth` (the string length).
- `fmt`, the `:.2f` / `:+.2f` rendering of a float.

The terminal width is also a parameter, where the program reads it from the terminal.

## Model

| member | source | states |
|---|---|---|
| DataProcessor.FirstTeamIndex | data_processor.py:9-11 | the index of the first team whose shortname is the target, or the length of the list when none matches |
| DataProcessor.FindTeamInScoreboard | data_processor.py:5-12 | None without a scoreboard; otherwise a team exactly when some team has the target shortname, and then the first such team |
| DataProcessor.FailureMessage | data_processor.py:78 | no contract of its own; FailureMessageIsOneTrimmedLine and MissingStdoutMessage state what it yields |
| DataProcessor.FailureMessageIsOneTrimmedLine | data_processor.py:78 | a recorded failure reason contains no newline and starts and ends with a non-space character |
| DataProcessor.MissingStdoutMessage | data_processor.py:78 | a failed check without stdout is reported as "Errore sconosciuto" |
| DataProcessor.CheckResults | data_processor.py:67-74 | only the letters S, P and G are ever recorded; CheckResultIsLastOfKind states each letter's result |
| DataProcessor.LastOfKindAtEnd | data_processor.py:67-74 | when the last check has the letter's action, the letter's result is that check's outcome |
| DataProcessor.LastOfKindSkip | data_processor.py:67-74 | a last check of another action does not change the letter's result |
| DataProcessor.CheckResultIsLastOfKind | data_processor.py:67-74 | a letter's result is ok exactly when the last recognised check of that action exited with 101; unrecognised actions are ignored and a later check overrides an earlier one |
| DataProcessor.OrderedChecks | data_processor.py:83-88 | exactly three entries, in the order S, P, G, each ok only if recorded as ok (a missing action counts as failed) |
| DataProcessor.RecordFailures | data_processor.py:70-79 | the failure table stays a well-formed dictionary; RecordFailuresKeepsFirst and RecordFailuresExtends state its contents |
| DataProcessor.RecordFailuresKeepsFirst | data_processor.py:70-79 | a service's checks add a failure reason only if the service has none yet and a recognised check failed, and then it is the first failure's message |
| DataProcessor.RecordFailuresExtends | data_processor.py:76-79 | recording failures never changes or reorders an existing entry |
| DataProcessor.RecordChecks | data_processor.py:70-79 | the check loop leaves the letter results and the failure table equal to their functional specifications |
| DataProcessor.OrderChecks | data_processor.py:83-88 | the ordering loop yields S, P, G, each ok exactly when its letter was recorded as ok |
| DataProcessor.SlaIsPercentage | data_processor.py:45 | with 0 <= successful <= total and total > 0 the SLA is between 0 and 100, and 100 when every check passed |
| DataProcessor.ServiceView | data_processor.py:39-63 | no contract of its own; ServiceViewMissingKey, ServiceViewDeltas and ServiceViewSla state its errors and its values |
| DataProcessor.ServiceViewChecks | data_processor.py:39-63 | a service's metrics and its error cases do not depend on its checks |
| DataProcessor.ServiceViewMissingKey | data_processor.py:45-63 | a service raises KeyError exactly when `totalChecks`, `successfulChecks` (when total > 0), the previous `successfulChecks` (when the previous total > 0), `stolen` or `lost` is missing |
| DataProcessor.ServiceViewDeltas | data_processor.py:40-63 | every metric is the current value with default 0, and every delta is current minus previous (0 when there is no previous record); the defence-flag delta is the negated lost delta |
| DataProcessor.FirstObservationDeltas | data_processor.py:49-63 | with no previous record each delta equals the current value, and the defence-flag delta is minus the lost flags |
| DataProcessor.ServiceViewSla | data_processor.py:45-46 | SLA and adjusted score are 0 without checks; with consistent counts the SLA is in [0, 100] and a non-negative score is never raised by the adjustment |
| DataProcessor.SlaScenario | data_processor.py:45-46 | 8 of 10 checks passed give an SLA of 80, and a score of 50 is adjusted to 40 |
| DataProcessor.ProcessedChecks | data_processor.py:65-88 | every processed record's checks are S, P, G, each ok exactly when the last check of that action succeeded |
| DataProcessor.ProcessServices | data_processor.py:35-107 | the fold over the services keeps both dictionaries well formed |
| DataProcessor.ProcessServicesFails | data_processor.py:35-63 | the service loop fails exactly when some service's record is missing a required key |
| DataProcessor.ProcessServicesExtendsFailing | data_processor.py:77-79 | later services never overwrite or reorder an earlier failure reason |
| DataProcessor.ProcessServicesKeys | data_processor.py:91 | the loop stores a record under exactly the shortnames of the services it walks |
| DataProcessor.ProcessServicesCoversFailures | data_processor.py:76-79 | every service with a failed recognised check gets a failure reason |
| DataProcessor.ProcessServicesBuiltFrom | data_processor.py:35-107 | every stored record and failure reason comes from a service of the team with that shortname |
| DataProcessor.IndexByShortname | data_processor.py:33 | no contract of its own; IndexHoldsLast states which record each name maps to |
| DataProcessor.IndexHoldsLast | data_processor.py:33 | the previous round's index has a name exactly when some previous service has it, and maps it to the last such service |
| DataProcessor.Reorder | data_processor.py:109-115 | the reordered services keep distinct keys |
| DataProcessor.ReorderFollowsServiceList | data_processor.py:109-115 | the reordered services are exactly the processed ones named in the service list, with their values unchanged, ordered by first mention in the list |
| DataProcessor.ReorderSelects | data_processor.py:111-114 | a service is kept exactly when it was processed and the list names it, and keeps its record |
| DataProcessor.ReorderOrders | data_processor.py:111-114 | the kept services follow the list's order of first mention |
| DataProcessor.ReorderOrdersStep | data_processor.py:111-114 | one more list entry keeps the kept services in order of first mention |
| DataProcessor.ReorderServices | data_processor.py:109-115 | the reordering loop equals its functional specification |
| DataProcessor.ProcessServiceLoop | data_processor.py:35-107 | the service loop, which reassigns the two dictionaries it builds on each pass, equals the fold `ProcessServices` |
| DataProcessor.Process | data_processor.py:14-117 | no contract of its own; the ProcessIsNoneIffTeamAbsent, ProcessMissingKey and ProcessView lemmas state its outcome |
| DataProcessor.ProcessDataForDisplay | data_processor.py:14-117 | the whole procedure equals its functional specification `Process` |
| DataProcessor.ProcessIsNoneIffTeamAbsent | data_processor.py:18-22 | the result is "no team" exactly when the current snapshot has no team with the target shortname, whatever the previous snapshot is |
| DataProcessor.ProcessMissingKey | data_processor.py:33-63 | a KeyError exactly when the previous team lacks `services`, the team lacks `services`, or some service lacks a required key |
| DataProcessor.ProcessViewIdentity | data_processor.py:24-31 | the view copies the team's name, shortname, position and score, and both its dictionaries are well formed |
| DataProcessor.ProcessViewServices | data_processor.py:35-115 | the view's services are exactly the team's shortnames (filtered by the service list when there is one), each the record computed from a service of that name |
| DataProcessor.ProcessViewChecks | data_processor.py:81-106 | every service in the view lists the checks S, P, G in that order |
| DataProcessor.ProcessViewFailing | data_processor.py:70-79 | a service has a failure reason exactly when one of its records has a failed recognised check, and the reason is that record's first failure message |
| DataProcessor.ProcessViewOrder | data_processor.py:109-115 | with a service list, the view's services follow the list's order of first mention |
| DataProcessor.ProcessServicesKeyOrder | data_processor.py:35-91 | the loop's service keys are the starting keys followed by each new shortname as the loop meets it, because storing under an existing name keeps its place |
| DataProcessor.ArrivalsOrder | data_processor.py:35-91 | those keys keep the starting keys in front; every later key is a new shortname of some service, and they follow the services' order of first appearance |
| DataProcessor.ProcessViewTeamOrder | data_processor.py:109-115 | without a non-empty service list, the view's services are the team's, in the order in which the team first lists each shortname |
| Text.Strip | data_processor.py:78 | the result is a slice of the input with only whitespace removed at either end, and does not begin or end with whitespace |
| Text.ReplaceNewlines | data_processor.py:78 | same length, every newline turned into a space and nothing else changed |
| Text.SignedIntRoundTrip | terminal_ui.py:68 | reading back the signed rendering of an integer gives the integer |
| Text.IntRoundTrip | terminal_ui.py:187-188 | reading back `str` of an integer gives the integer |
| Text.SplitJoin | terminal_ui.py:75 | splitting at a character what was joined with it gives the parts back, when no part contains it |
| TerminalUi.PadStr | terminal_ui.py:29-42 | no contract of its own; see PadStrLayout |
| TerminalUi.PadStrLayout | terminal_ui.py:29-42 | exactly max(0, width - visible width) spaces are added and the text is kept whole: after it for left, before it for right, half (rounded down) before it for center |
| TerminalUi.PadStrCentred | terminal_ui.py:36-39 | centring puts as many spaces after the text as before it, or one more |
| TerminalUi.PadStrEnds | terminal_ui.py:34-42 | left alignment starts with the text and right alignment ends with it |
| TerminalUi.PadStrPlainWidth | terminal_ui.py:29-42 | measured by plain length the result is max(width, length of the text) long |
| TerminalUi.AlignedCell | terminal_ui.py:44-49 | no contract of its own; see AlignedCellLayout |
| TerminalUi.AlignedCellLayout | terminal_ui.py:44-49 | left part, then max(1, width - both visible widths) spaces, then right part |
| TerminalUi.AlignedCellPlainWidth | terminal_ui.py:44-49 | measured by plain length the cell is max(width, both lengths + 1) long |
| TerminalUi.FormatScoreDelta | terminal_ui.py:53-62 | a dash exactly when the change is below 0.001 in magnitude; otherwise green for a gain and red otherwise, around the signed value and the optional arrow |
| TerminalUi.FormatFlagDelta | terminal_ui.py:64-68 | empty exactly when the change is 0; otherwise a space, an opening parenthesis, the green colour code exactly for a gain (red for a loss), the number, the reset code and a closing parenthesis |
| TerminalUi.FormatFlagDeltaReadsBack | terminal_ui.py:64-68 | for a non-zero change the number between the colour codes reads back as the change and starts with '+' exactly for a gain |
| TerminalUi.CheckLetters | terminal_ui.py:70-75 | no contract of its own; CheckLettersSplit and GetCheckLetters state what it yields |
| TerminalUi.CheckLettersSplit | terminal_ui.py:70-75 | splitting the check letters at the spaces gives one coloured letter per check, in input order |
| TerminalUi.GetCheckLetters | terminal_ui.py:70-75 | the letter loop yields the checks' coloured letters joined by single spaces, and nothing for no checks |
| TerminalUi.ColsPerRow | terminal_ui.py:164-165 | at least one column, and no more than there are services |
| TerminalUi.ColWidth | terminal_ui.py:168 | no contract of its own; LayoutFits states that the width fills the row and is at least 32 |
| TerminalUi.LayoutFits | terminal_ui.py:154-168 | on a terminal at least 32 wide: 1 <= columns <= services, the columns and separators fit in the terminal, each column is at least 32 wide, one more column would not fit while services remain, and one more character per column would not fit |
| TerminalUi.ServiceColumn | terminal_ui.py:182-203 | a column has exactly eight cells, the last one blank and as wide as the column |
| TerminalUi.ServiceColumnWidths | terminal_ui.py:182-203 | measured by plain length, no cell is narrower than the column |
| TerminalUi.ServiceColumnLabels | terminal_ui.py:184-202 | the second cell contains the bold service name and the seventh the bracketed check letters |
| TerminalUi.FillColumn | terminal_ui.py:182-203 | the eight appends build exactly the service's column |
| TerminalUi.BuildColumns | terminal_ui.py:178-203 | one column per service of the chunk, each that service's column |
| TerminalUi.RowLines | terminal_ui.py:205-215 | every row is printed joined by the separator, with the dashed rule inserted before row 2 |
| TerminalUi.RuleLineWidth | terminal_ui.py:209-211 | the rule is columns * width + (columns - 1) * 3 long |
| TerminalUi.RuleLineFits | terminal_ui.py:168-211 | the rule of a full row fits in the terminal |
| TerminalUi.BlockShape | terminal_ui.py:182-215 | a block prints nine lines: its names on the second, the rule on the third, a blank row last |
| TerminalUi.ChunkBlock | terminal_ui.py:174-220 | one pass lays out services i to i + columns (clipped) and adds a divider exactly when services remain |
| TerminalUi.ChunkStep | terminal_ui.py:173-175 | one pass keeps the chunking invariant |
| TerminalUi.ChunkedDone | terminal_ui.py:173-175 | when the loop ends the blocks cover every service once, in order |
| TerminalUi.ChunkLoop | terminal_ui.py:171-220 | the blocks cover every service exactly once, in order; each holds 1 to columns services, all but the last are full, and all but the last are followed by the divider |
| TerminalUi.DisplayServices | terminal_ui.py:143-220 | nothing without services; the narrow-terminal warning exactly when the terminal is under 32 wide; otherwise the layout's columns and width, with the services cut into well-built blocks |

## Left out

- main.py: the polling loop, sleeping, interrupt handling and the round bookkeeping are orchestration around network calls.
- api_client.py: HTTP requests and JSON decoding. The model starts from decoded snapshots.
- config.py: constants only. The colour codes, 32 and the separator are inlined.
- Screen output: `clear_screen`, `play_alert_sound`, `get_terminal_width` and `print`. Printed text is returned as values: the block lines, the divider and the warning.
- `_display_game_status_header` (terminal_ui.py:99-129): it depends on the wall clock and a float progress value.
- `_display_alerts_box` and the footer that calls it: box drawing of the failure table.
- The team header lines (terminal_ui.py:136-141). Line 141 reads a team-level `score_delta` that `process_data_for_display` never sets. On real data that line raises `KeyError` before the grid is drawn, so the grid is modelled from line 143 on, as if the header were absent.
- `visible_len`: wcswidth and the colour-code regex are external. The width is the parameter `vlen`.
- `:.2f` and `:+.2f` float rendering: these are Python's float formatting, and they are the parameter `fmt`.
- JSON `null` values, wrong value types and non-dictionary entries are not represented. A key is either present with a value of the expected type or absent.
- Missing `shortname` keys: entries of the previous team's services (data_processor.py:33), the current team's services (data_processor.py:36) and the snapshot's top-level service list (data_processor.py:112) raise `KeyError` in the program when they lack one. In the model every such entry has a shortname, so these three `KeyError` paths are not represented.
- DataProcessor.ProcessViewServices: does not say which record wins when the team lists two services with the same shortname. The model computes the program's answer (the later record, in the earlier one's position), but the lemma states only that the record comes from some service of that name.
- DataProcessor.ProcessViewFailing: likewise, for duplicate shortnames it states only that the reason comes from some record of that name.
