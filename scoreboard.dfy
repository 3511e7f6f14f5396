/**
 * The scoreboard JSON as the scoring engine sends it, and the per-team view the processor
 * builds from it. A key that the processor reads with a default (`.get(key, 0)`) is an
 * Option whose default the processor applies; a key it reads with `record[key]` is an
 * Option too, and its absence is the KeyError outcome.
 */
module Scoreboard {
  import opened Wrappers
  import opened OrderedDict

  /** One availability check of one service in one round. */
  datatype Check = Check(action: Option<string>, exitCode: Option<int>, stdout: Option<string>)

  /** A team's raw statistics for one service. */
  datatype ServiceStats = ServiceStats(
    shortname: string,
    score: Option<real>,
    attackerScore: Option<real>,
    victimScore: Option<real>,
    stolen: Option<int>,
    lost: Option<int>,
    successfulChecks: Option<int>,
    totalChecks: Option<int>,
    checks: Option<seq<Check>>)

  /** One row of the scoreboard table. */
  datatype Team = Team(
    name: Option<string>,
    shortname: Option<string>,
    position: Option<int>,
    score: Option<real>,
    services: Option<seq<ServiceStats>>)

  /** An entry of the snapshot's top-level service list, the canonical service order. */
  datatype ServiceInfo = ServiceInfo(shortname: string)

  /** The JSON of one round: `scoreboard` (the teams) and `services` may each be absent. */
  datatype Snapshot = Snapshot(scoreboard: Option<seq<Team>>, services: Option<seq<ServiceInfo>>)

  /** One of the three check letters shown for a service, with its outcome. */
  datatype CheckDetail = CheckDetail(action: char, ok: bool)

  /** The per-service record the processor builds for the display. */
  datatype ProcessedService = ProcessedService(
    score: real,
    scoreDelta: real,
    sla: real,
    slaDelta: real,
    slaAdjustedScore: real,
    slaAdjustedScoreDelta: real,
    attackScore: real,
    attackFlag: int,
    attackScoreDelta: real,
    attackFlagDelta: int,
    defenseScore: real,
    defenseFlag: int,
    defenseScoreDelta: real,
    defenseFlagDelta: int,
    checks: seq<CheckDetail>)

  /** The processed view of one team: identity fields, services and failure reasons. */
  datatype TeamView = TeamView(
    name: Option<string>,
    shortname: Option<string>,
    position: Option<int>,
    score: Option<real>,
    services: Dict<ProcessedService>,
    failingServices: Dict<string>)

  /**
   * What processing a snapshot gives: no data for the team (Python's None), a KeyError
   * raised for a required key that is absent, or the view.
   */
  datatype Outcome = TeamNotFound | MissingKey(key: string) | View(view: TeamView)
}
