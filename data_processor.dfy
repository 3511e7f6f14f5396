/**
 * The per-round delta processor: finds the monitored team in a scoreboard snapshot and turns
 * its raw per-service statistics, against the previous round's, into the view the terminal
 * shows (SLA, SLA-adjusted score, deltas, the three checks in S P G order, failure reasons).
 */
module DataProcessor {
  import opened Wrappers
  import opened Text
  import opened OrderedDict
  import opened Scoreboard

  /** The exit code with which a check reports success. */
  const SuccessExitCode := 101
  /** The failure reason recorded when a failed check carries no stdout. */
  const UnknownError := "Errore sconosciuto"
  /** The order in which the three check letters are listed. */
  const CheckOrder := "SPG"

  // ===== find_team_in_scoreboard =====

  /** Index of the first team whose shortname is `target`, or |teams| when there is none. */
  function FirstTeamIndex(teams: seq<Team>, target: string): (i: nat)
    ensures i <= |teams|
    ensures forall j :: 0 <= j < i ==> teams[j].shortname != Some(target)
    ensures i < |teams| ==> teams[i].shortname == Some(target)
  {
    if |teams| == 0 then 0
    else if teams[0].shortname == Some(target) then 0
    else 1 + FirstTeamIndex(teams[1..], target)
  }

  /** The team record the display is built from: the first one with the target shortname. */
  function FindTeam(data: Snapshot, target: string): Option<Team> {
    match data.scoreboard
    case None => None
    case Some(teams) =>
      var i := FirstTeamIndex(teams, target);
      if i < |teams| then Some(teams[i]) else None
  }

  method FindTeamInScoreboard(data: Snapshot, target: string) returns (r: Option<Team>)
    ensures data.scoreboard.None? ==> r == None
    ensures data.scoreboard.Some? ==>
      var teams := data.scoreboard.value;
      && (r.Some? <==> exists k :: 0 <= k < |teams| && teams[k].shortname == Some(target))
      && (r.Some? ==> exists k :: 0 <= k < |teams| && r.value == teams[k]
                        && teams[k].shortname == Some(target)
                        && forall j :: 0 <= j < k ==> teams[j].shortname != Some(target))
    ensures r == FindTeam(data, target)
  {
    if data.scoreboard.None? {
      return None;
    }
    var teams := data.scoreboard.value;
    var i := 0;
    while i < |teams|
      invariant 0 <= i <= |teams|
      invariant forall j :: 0 <= j < i ==> teams[j].shortname != Some(target)
    {
      if teams[i].shortname == Some(target) {
        assert FirstTeamIndex(teams, target) == i;
        return Some(teams[i]);
      }
      i := i + 1;
    }
    assert FirstTeamIndex(teams, target) == |teams|;
    return None;
  }

  // ===== checks =====

  /** The letter for a recognised check action; None for any other action. */
  function ActionLetter(action: Option<string>): (r: Option<char>)
    ensures r.Some? ==> r.value in CheckOrder
  {
    if action == Some("CHECK_SLA") then Some('S')
    else if action == Some("PUT_FLAG") then Some('P')
    else if action == Some("GET_FLAG") then Some('G')
    else None
  }

  predicate CheckOk(c: Check) {
    c.exitCode == Some(SuccessExitCode)
  }

  /** A recognised check that did not succeed: the kind that records a failure reason. */
  predicate FailedCheck(c: Check) {
    ActionLetter(c.action).Some? && !CheckOk(c)
  }

  /** The failure reason of a check: its stdout (or the default), stripped, newlines to spaces. */
  function FailureMessage(c: Check): string {
    ReplaceNewlines(Strip(c.stdout.GetOr(UnknownError)))
  }

  lemma FailureMessageIsOneTrimmedLine(c: Check)
    ensures var m := FailureMessage(c);
      && (forall k :: 0 <= k < |m| ==> m[k] != '\n')
      && (|m| > 0 ==> !IsSpace(m[0]) && !IsSpace(m[|m| - 1]))
  {
    var s := Strip(c.stdout.GetOr(UnknownError));
    assert |s| > 0 ==> s[0] != '\n' && s[|s| - 1] != '\n';
  }

  /** A failed check without stdout records the default reason unchanged. */
  lemma MissingStdoutMessage(c: Check)
    requires c.stdout.None?
    ensures FailureMessage(c) == UnknownError
  {
    var u := UnknownError;
    assert !IsSpace(u[0]) && !IsSpace(u[|u| - 1]);
    StripTrimmed(u);
    assert forall k :: 0 <= k < |u| ==> u[k] != '\n';
    assert ReplaceNewlines(u) == u;
  }

  /**
   * The letter-to-outcome table after the check loop: each recognised check sets the entry of
   * its letter, so a later check of the same kind overwrites an earlier one.
   */
  function CheckResults(checks: seq<Check>): (m: map<char, bool>)
    ensures forall l :: l in m ==> l in CheckOrder
    decreases |checks|
  {
    if |checks| == 0 then map[]
    else
      var m := CheckResults(checks[..|checks| - 1]);
      var c := checks[|checks| - 1];
      match ActionLetter(c.action)
      case Some(l) => m[l := CheckOk(c)]
      case None => m
  }

  /** `results.get(letter, False)`: a letter with no check counts as failed. */
  function OkOf(results: map<char, bool>, letter: char): bool {
    if letter in results then results[letter] else false
  }

  /** The last recognised check with this letter exists and succeeded. */
  ghost predicate LastOfKindOk(checks: seq<Check>, letter: char) {
    exists i :: 0 <= i < |checks| && ActionLetter(checks[i].action) == Some(letter) && CheckOk(checks[i])
      && forall j :: i < j < |checks| ==> ActionLetter(checks[j].action) != Some(letter)
  }

  /** When the last check has this letter, it alone decides LastOfKindOk. */
  lemma LastOfKindAtEnd(checks: seq<Check>, letter: char)
    requires |checks| > 0 && ActionLetter(checks[|checks| - 1].action) == Some(letter)
    ensures LastOfKindOk(checks, letter) <==> CheckOk(checks[|checks| - 1])
  {
    var n := |checks|;
    if LastOfKindOk(checks, letter) {
      var i :| 0 <= i < n && ActionLetter(checks[i].action) == Some(letter) && CheckOk(checks[i])
               && forall j :: i < j < n ==> ActionLetter(checks[j].action) != Some(letter);
      assert i == n - 1;
    }
  }

  /** When the last check has another letter or none, it does not affect LastOfKindOk. */
  lemma LastOfKindSkip(checks: seq<Check>, letter: char)
    requires |checks| > 0 && ActionLetter(checks[|checks| - 1].action) != Some(letter)
    ensures LastOfKindOk(checks, letter) <==> LastOfKindOk(checks[..|checks| - 1], letter)
  {
    var n := |checks|;
    var init := checks[..n - 1];
    if LastOfKindOk(init, letter) {
      var i :| 0 <= i < n - 1 && ActionLetter(init[i].action) == Some(letter) && CheckOk(init[i])
               && forall j :: i < j < n - 1 ==> ActionLetter(init[j].action) != Some(letter);
      assert checks[i] == init[i];
      assert forall j :: i < j < n ==> ActionLetter(checks[j].action) != Some(letter);
    }
    if LastOfKindOk(checks, letter) {
      var i :| 0 <= i < n && ActionLetter(checks[i].action) == Some(letter) && CheckOk(checks[i])
               && forall j :: i < j < n ==> ActionLetter(checks[j].action) != Some(letter);
      assert i < n - 1 && init[i] == checks[i];
      assert forall j :: i < j < n - 1 ==> init[j] == checks[j];
    }
  }

  lemma {:induction false} CheckResultIsLastOfKind(checks: seq<Check>, letter: char)
    ensures OkOf(CheckResults(checks), letter) <==> LastOfKindOk(checks, letter)
  {
    if |checks| > 0 {
      var n := |checks|;
      var c := checks[n - 1];
      CheckResultIsLastOfKind(checks[..n - 1], letter);
      if ActionLetter(c.action) == Some(letter) {
        LastOfKindAtEnd(checks, letter);
      } else {
        LastOfKindSkip(checks, letter);
      }
    }
  }

  /** The three details in S, P, G order, each defaulting to failed. */
  function OrderedChecks(results: map<char, bool>): (r: seq<CheckDetail>)
    ensures |r| == |CheckOrder| == 3
    ensures forall i :: 0 <= i < 3 ==> r[i] == CheckDetail(CheckOrder[i], OkOf(results, CheckOrder[i]))
  {
    [CheckDetail('S', OkOf(results, 'S')), CheckDetail('P', OkOf(results, 'P')),
     CheckDetail('G', OkOf(results, 'G'))]
  }

  /** Index of the first recognised failed check, or |checks| when there is none. */
  function FirstFailedIndex(checks: seq<Check>): (i: nat)
    ensures i <= |checks|
    ensures forall j :: 0 <= j < i ==> !FailedCheck(checks[j])
    ensures i < |checks| ==> FailedCheck(checks[i])
  {
    if |checks| == 0 then 0
    else if FailedCheck(checks[0]) then 0
    else 1 + FirstFailedIndex(checks[1..])
  }

  predicate HasFailure(checks: seq<Check>) {
    FirstFailedIndex(checks) < |checks|
  }

  function FirstFailureMessage(checks: seq<Check>): string
    requires HasFailure(checks)
  {
    FailureMessage(checks[FirstFailedIndex(checks)])
  }

  /**
   * The failing-services table after the check loop of service `name`: each failed recognised
   * check records its reason unless `name` already has one.
   */
  function RecordFailures(checks: seq<Check>, name: string, failing: Dict<string>): (r: Dict<string>)
    requires Valid(failing)
    ensures Valid(r)
    decreases |checks|
  {
    if |checks| == 0 then failing
    else
      var f := RecordFailures(checks[..|checks| - 1], name, failing);
      var c := checks[|checks| - 1];
      if FailedCheck(c) && name !in f.vals then Put(f, name, FailureMessage(c)) else f
  }

  /** The reason recorded is the first failure's, and an existing reason is never replaced. */
  lemma {:induction false} RecordFailuresKeepsFirst(checks: seq<Check>, name: string, failing: Dict<string>)
    requires Valid(failing)
    ensures RecordFailures(checks, name, failing) ==
      if name in failing.vals || !HasFailure(checks) then failing
      else Put(failing, name, FirstFailureMessage(checks))
  {
    if |checks| > 0 {
      var n := |checks|;
      var init := checks[..n - 1];
      RecordFailuresKeepsFirst(init, name, failing);
      assert forall j :: 0 <= j < n - 1 ==> init[j] == checks[j];
      if HasFailure(init) {
        assert FirstFailedIndex(checks) == FirstFailedIndex(init);
      } else if FailedCheck(checks[n - 1]) {
        assert FirstFailedIndex(checks) == n - 1;
      } else {
        assert FirstFailedIndex(checks) == n;
      }
    }
  }

  lemma RecordFailuresExtends(checks: seq<Check>, name: string, failing: Dict<string>)
    requires Valid(failing)
    ensures Extends(failing, RecordFailures(checks, name, failing))
  {
    RecordFailuresKeepsFirst(checks, name, failing);
  }

  /** The check loop (data_processor.py:67-79): fills the letter table and the failure table. */
  method RecordChecks(checks: seq<Check>, name: string, failing0: Dict<string>)
    returns (results: map<char, bool>, failing: Dict<string>)
    requires Valid(failing0)
    ensures Valid(failing)
    ensures results == CheckResults(checks)
    ensures failing == RecordFailures(checks, name, failing0)
  {
    results := map[];
    failing := failing0;
    var i := 0;
    while i < |checks|
      invariant 0 <= i <= |checks|
      invariant Valid(failing)
      invariant results == CheckResults(checks[..i])
      invariant failing == RecordFailures(checks[..i], name, failing0)
    {
      var check := checks[i];
      assert checks[..i + 1][..i] == checks[..i];
      var letter := ActionLetter(check.action);
      if letter.Some? {
        var isOk := check.exitCode == Some(SuccessExitCode);
        results := results[letter.value := isOk];
        if !isOk && name !in failing.vals {
          failing := Put(failing, name, FailureMessage(check));
        }
      }
      i := i + 1;
    }
    assert checks[..i] == checks;
  }

  /** The S, P, G loop (data_processor.py:83-88). */
  method OrderChecks(results: map<char, bool>) returns (details: seq<CheckDetail>)
    ensures |details| == 3
    ensures forall i :: 0 <= i < 3 ==> details[i].action == CheckOrder[i]
    ensures forall i :: 0 <= i < 3 ==> details[i].ok == (CheckOrder[i] in results && results[CheckOrder[i]])
    ensures details == OrderedChecks(results)
  {
    details := [];
    var i := 0;
    while i < |CheckOrder|
      invariant 0 <= i <= |CheckOrder|
      invariant |details| == i
      invariant forall k :: 0 <= k < i ==> details[k] == CheckDetail(CheckOrder[k], OkOf(results, CheckOrder[k]))
    {
      var letter := CheckOrder[i];
      details := details + [CheckDetail(letter, if letter in results then results[letter] else false)];
      i := i + 1;
    }
  }

  // ===== SLA and deltas of one service =====

  /** `successfulChecks / totalChecks * 100`, with Python's true division. */
  function Sla(successful: int, total: int): real
    requires total > 0
  {
    (successful as real / total as real) * 100.0
  }

  /** A ratio of checks that passed is a percentage. */
  lemma SlaIsPercentage(successful: int, total: int)
    requires 0 <= successful <= total && total > 0
    ensures 0.0 <= Sla(successful, total) <= 100.0
    ensures successful == total ==> Sla(successful, total) == 100.0
  {
    var q := successful as real / total as real;
    assert q * total as real == successful as real;
    assert q <= 1.0;
  }

  /** The current service's SLA: totalChecks is required, successfulChecks only when it is used. */
  function CurrentSla(s: ServiceStats): Result<real, string> {
    match s.totalChecks
    case None => Err("totalChecks")
    case Some(total) =>
      if total > 0 then
        match s.successfulChecks
        case None => Err("successfulChecks")
        case Some(ok) => Ok(Sla(ok, total))
      else Ok(0.0)
  }

  /** The previous service's SLA: 0 with no previous record or no checks. */
  function PreviousSla(prev: Option<ServiceStats>): Result<real, string> {
    match prev
    case None => Ok(0.0)
    case Some(p) =>
      var total := p.totalChecks.GetOr(0);
      if total > 0 then
        match p.successfulChecks
        case None => Err("successfulChecks")
        case Some(ok) => Ok(Sla(ok, total))
      else Ok(0.0)
  }

  /** The previous record's score-type fields, each 0 when the record or the field is absent. */
  function PrevScore(prev: Option<ServiceStats>): real {
    if prev.Some? then prev.value.score.GetOr(0.0) else 0.0
  }

  function PrevAttackerScore(prev: Option<ServiceStats>): real {
    if prev.Some? then prev.value.attackerScore.GetOr(0.0) else 0.0
  }

  function PrevVictimScore(prev: Option<ServiceStats>): real {
    if prev.Some? then prev.value.victimScore.GetOr(0.0) else 0.0
  }

  /** The previous record's flag counts, each 0 when the record or the field is absent. */
  function PrevStolen(prev: Option<ServiceStats>): int {
    if prev.Some? then prev.value.stolen.GetOr(0) else 0
  }

  function PrevLost(prev: Option<ServiceStats>): int {
    if prev.Some? then prev.value.lost.GetOr(0) else 0
  }

  /** The processed record of one service against its previous record (data_processor.py:40-63). */
  function ServiceView(s: ServiceStats, prev: Option<ServiceStats>, checks: seq<CheckDetail>)
    : Result<ProcessedService, string>
  {
    match CurrentSla(s)
    case Err(k) => Err(k)
    case Ok(sla) =>
      match PreviousSla(prev)
      case Err(k) => Err(k)
      case Ok(prevSla) =>
        if s.stolen.None? then Err("stolen")
        else if s.lost.None? then Err("lost")
        else
          var score := s.score.GetOr(0.0);
          var attacker := s.attackerScore.GetOr(0.0);
          var victim := s.victimScore.GetOr(0.0);
          var prevScore := PrevScore(prev);
          var slaAdjusted := score * (sla / 100.0);
          var prevSlaAdjusted := prevScore * (prevSla / 100.0);
          Ok(ProcessedService(
            score := score,
            scoreDelta := score - prevScore,
            sla := sla,
            slaDelta := sla - prevSla,
            slaAdjustedScore := slaAdjusted,
            slaAdjustedScoreDelta := slaAdjusted - prevSlaAdjusted,
            attackScore := attacker,
            attackFlag := s.stolen.value,
            attackScoreDelta := attacker - PrevAttackerScore(prev),
            attackFlagDelta := s.stolen.value - PrevStolen(prev),
            defenseScore := victim,
            defenseFlag := s.lost.value,
            defenseScoreDelta := victim - PrevVictimScore(prev),
            defenseFlagDelta := -(s.lost.value - PrevLost(prev)),
            checks := checks))
  }

  /** The checks take no part in whether the record fails; they are stored as given. */
  lemma ServiceViewChecks(s: ServiceStats, prev: Option<ServiceStats>, checks: seq<CheckDetail>)
    ensures ServiceView(s, prev, checks).Err? <==> ServiceView(s, prev, []).Err?
    ensures ServiceView(s, prev, checks).Err? ==> ServiceView(s, prev, checks) == ServiceView(s, prev, [])
    ensures ServiceView(s, prev, checks).Ok? ==>
      ServiceView(s, prev, checks).value == ServiceView(s, prev, []).value.(checks := checks)
  {
  }

  /** A KeyError is raised exactly when a key the service loop indexes directly is absent. */
  lemma ServiceViewMissingKey(s: ServiceStats, prev: Option<ServiceStats>, checks: seq<CheckDetail>)
    ensures ServiceView(s, prev, checks).Err? <==>
      || s.totalChecks.None?
      || (s.totalChecks.value > 0 && s.successfulChecks.None?)
      || (prev.Some? && prev.value.totalChecks.GetOr(0) > 0 && prev.value.successfulChecks.None?)
      || s.stolen.None?
      || s.lost.None?
  {
  }

  /** Every delta is the current value minus the previous one; the defense-flag delta is negated. */
  lemma ServiceViewDeltas(s: ServiceStats, prev: Option<ServiceStats>, checks: seq<CheckDetail>)
    requires ServiceView(s, prev, checks).Ok?
    ensures var r := ServiceView(s, prev, checks).value;
      var prevSla := PreviousSla(prev).value;
      && r.checks == checks
      && r.score == s.score.GetOr(0.0)
      && r.sla == CurrentSla(s).value
      && r.slaAdjustedScore == r.score * r.sla / 100.0
      && r.scoreDelta == r.score - PrevScore(prev)
      && r.slaDelta == r.sla - prevSla
      && r.slaAdjustedScoreDelta == r.slaAdjustedScore - PrevScore(prev) * prevSla / 100.0
      && r.attackScore == s.attackerScore.GetOr(0.0)
      && r.attackScoreDelta == r.attackScore - PrevAttackerScore(prev)
      && r.attackFlag == s.stolen.value
      && r.attackFlagDelta == r.attackFlag - PrevStolen(prev)
      && r.defenseScore == s.victimScore.GetOr(0.0)
      && r.defenseScoreDelta == r.defenseScore - PrevVictimScore(prev)
      && r.defenseFlag == s.lost.value
      && r.defenseFlagDelta == PrevLost(prev) - r.defenseFlag
  {
  }

  /** With no previous record every delta is the full current value (the lost flags negated). */
  lemma FirstObservationDeltas(s: ServiceStats, checks: seq<CheckDetail>)
    requires ServiceView(s, None, checks).Ok?
    ensures var r := ServiceView(s, None, checks).value;
      && r.scoreDelta == r.score
      && r.slaDelta == r.sla
      && r.slaAdjustedScoreDelta == r.slaAdjustedScore
      && r.attackScoreDelta == r.attackScore
      && r.attackFlagDelta == r.attackFlag
      && r.defenseScoreDelta == r.defenseScore
      && r.defenseFlagDelta == -r.defenseFlag
  {
  }

  /** SLA is 0 without checks and a percentage of passed checks otherwise; it scales the score. */
  lemma ServiceViewSla(s: ServiceStats, prev: Option<ServiceStats>, checks: seq<CheckDetail>)
    requires ServiceView(s, prev, checks).Ok?
    ensures var r := ServiceView(s, prev, checks).value;
      && (s.totalChecks.value <= 0 ==> r.sla == 0.0 && r.slaAdjustedScore == 0.0)
      && (s.totalChecks.value > 0 && 0 <= s.successfulChecks.value <= s.totalChecks.value ==>
            && 0.0 <= r.sla <= 100.0
            && (r.score >= 0.0 ==> 0.0 <= r.slaAdjustedScore <= r.score))
  {
    var r := ServiceView(s, prev, checks).value;
    if s.totalChecks.value > 0 && 0 <= s.successfulChecks.value <= s.totalChecks.value {
      SlaIsPercentage(s.successfulChecks.value, s.totalChecks.value);
      var f := r.sla / 100.0;
      assert 0.0 <= f <= 1.0;
      if r.score >= 0.0 {
        assert r.slaAdjustedScore == r.score * f;
        assert r.score * f <= r.score * 1.0;
      }
    }
  }

  /** 8 of 10 checks passed give an SLA of 80, and a score of 50 is adjusted to 40. */
  lemma SlaScenario()
    ensures var s := ServiceStats("svc", Some(50.0), None, None, Some(0), Some(0), Some(8), Some(10), None);
      var r := ServiceView(s, None, []).value;
      ServiceView(s, None, []).Ok? && r.sla == 80.0 && r.slaAdjustedScore == 40.0
  {
    var s := ServiceStats("svc", Some(50.0), None, None, Some(0), Some(0), Some(8), Some(10), None);
    assert Sla(8, 10) == 80.0 by {
      assert (8 as real) / (10 as real) == 0.8;
    }
    assert CurrentSla(s) == Ok(80.0);
    assert PreviousSla(None) == Ok(0.0);
    assert s.score.GetOr(0.0) == 50.0 && PrevScore(None) == 0.0;
    assert 50.0 * (80.0 / 100.0) == 40.0;
  }

  // ===== the service loop =====

  /** The previous round's record of service `name`, if there is one. */
  function PrevRecord(prevIndex: map<string, ServiceStats>, name: string): Option<ServiceStats> {
    if name in prevIndex then Some(prevIndex[name]) else None
  }

  /** `service.get('checks', [])`. */
  function ChecksOf(s: ServiceStats): seq<Check> {
    s.checks.GetOr([])
  }

  /** The record the loop body of data_processor.py:35-107 builds for service `s`. */
  function ProcessedRecord(s: ServiceStats, prevIndex: map<string, ServiceStats>): Result<ProcessedService, string> {
    ServiceView(s, PrevRecord(prevIndex, s.shortname), OrderedChecks(CheckResults(ChecksOf(s))))
  }

  ghost predicate CanonicalChecks(details: seq<CheckDetail>) {
    |details| == 3 && forall i :: 0 <= i < 3 ==> details[i].action == CheckOrder[i]
  }

  /** A processed record lists S, P, G, each ok exactly when the last check of that kind succeeded. */
  lemma ProcessedChecks(s: ServiceStats, prevIndex: map<string, ServiceStats>)
    requires ProcessedRecord(s, prevIndex).Ok?
    ensures var details := ProcessedRecord(s, prevIndex).value.checks;
      && CanonicalChecks(details)
      && forall i :: 0 <= i < 3 ==> (details[i].ok <==> LastOfKindOk(ChecksOf(s), CheckOrder[i]))
  {
    var details := ProcessedRecord(s, prevIndex).value.checks;
    assert details == OrderedChecks(CheckResults(ChecksOf(s)));
    forall i | 0 <= i < 3
      ensures details[i].ok <==> LastOfKindOk(ChecksOf(s), CheckOrder[i])
    {
      CheckResultIsLastOfKind(ChecksOf(s), CheckOrder[i]);
    }
  }

  /** The two dictionaries the service loop fills. */
  datatype Acc = Acc(services: Dict<ProcessedService>, failing: Dict<string>)

  ghost predicate AccValid(acc: Acc) {
    Valid(acc.services) && Valid(acc.failing)
  }

  /** One iteration's effect: store the record under the service's name, record its failures. */
  function Advance(acc: Acc, s: ServiceStats, ps: ProcessedService): (next: Acc)
    requires AccValid(acc)
    ensures AccValid(next)
  {
    Acc(Put(acc.services, s.shortname, ps), RecordFailures(ChecksOf(s), s.shortname, acc.failing))
  }

  /** The service loop from the state `acc` on: a KeyError in any service aborts the whole call. */
  function ProcessServices(svcs: seq<ServiceStats>, prevIndex: map<string, ServiceStats>, acc: Acc)
    : (r: Result<Acc, string>)
    requires AccValid(acc)
    ensures r.Ok? ==> AccValid(r.value)
    decreases |svcs|
  {
    if |svcs| == 0 then Ok(acc)
    else
      var s := svcs[0];
      match ProcessedRecord(s, prevIndex)
      case Err(k) => Err(k)
      case Ok(ps) => ProcessServices(svcs[1..], prevIndex, Advance(acc, s, ps))
  }

  /** The loop raises exactly when some service lacks a required key. */
  lemma {:induction false} ProcessServicesFails(svcs: seq<ServiceStats>, prevIndex: map<string, ServiceStats>, acc: Acc)
    requires AccValid(acc)
    ensures ProcessServices(svcs, prevIndex, acc).Err? <==>
      exists s :: s in svcs && ProcessedRecord(s, prevIndex).Err?
  {
    if |svcs| > 0 {
      var s := svcs[0];
      assert svcs == [s] + svcs[1..];
      if ProcessedRecord(s, prevIndex).Ok? {
        ProcessServicesFails(svcs[1..], prevIndex, Advance(acc, s, ProcessedRecord(s, prevIndex).value));
      }
    }
  }

  /** Every entry of the two dictionaries was built from some service record in `all`. */
  ghost predicate BuiltFrom(acc: Acc, all: seq<ServiceStats>, prevIndex: map<string, ServiceStats>) {
    && (forall k :: k in acc.services.vals ==>
          exists s :: s in all && s.shortname == k && ProcessedRecord(s, prevIndex) == Ok(acc.services.vals[k]))
    && (forall k :: k in acc.failing.vals ==>
          exists s :: s in all && s.shortname == k && HasFailure(ChecksOf(s))
                      && acc.failing.vals[k] == FirstFailureMessage(ChecksOf(s)))
  }

  lemma AdvanceRecordsFromAll(acc: Acc, s: ServiceStats, prevIndex: map<string, ServiceStats>, all: seq<ServiceStats>)
    requires AccValid(acc) && s in all && BuiltFrom(acc, all, prevIndex)
    requires ProcessedRecord(s, prevIndex).Ok?
    ensures var next := Advance(acc, s, ProcessedRecord(s, prevIndex).value);
      forall k :: k in next.services.vals ==>
        exists t :: t in all && t.shortname == k && ProcessedRecord(t, prevIndex) == Ok(next.services.vals[k])
  {
    var ps := ProcessedRecord(s, prevIndex).value;
    var next := Advance(acc, s, ps);
    forall k | k in next.services.vals
      ensures exists t :: t in all && t.shortname == k && ProcessedRecord(t, prevIndex) == Ok(next.services.vals[k])
    {
      if k == s.shortname {
        assert next.services.vals[k] == ps;
      } else {
        assert next.services.vals[k] == acc.services.vals[k];
      }
    }
  }

  lemma AdvanceFailuresFromAll(acc: Acc, s: ServiceStats, prevIndex: map<string, ServiceStats>, all: seq<ServiceStats>)
    requires AccValid(acc) && s in all && BuiltFrom(acc, all, prevIndex)
    requires ProcessedRecord(s, prevIndex).Ok?
    ensures var next := Advance(acc, s, ProcessedRecord(s, prevIndex).value);
      forall k :: k in next.failing.vals ==>
        exists t :: t in all && t.shortname == k && HasFailure(ChecksOf(t))
                    && next.failing.vals[k] == FirstFailureMessage(ChecksOf(t))
  {
    var next := Advance(acc, s, ProcessedRecord(s, prevIndex).value);
    RecordFailuresKeepsFirst(ChecksOf(s), s.shortname, acc.failing);
    forall k | k in next.failing.vals
      ensures exists t :: t in all && t.shortname == k && HasFailure(ChecksOf(t))
                          && next.failing.vals[k] == FirstFailureMessage(ChecksOf(t))
    {
      if k in acc.failing.vals {
        assert next.failing.vals[k] == acc.failing.vals[k];
      } else {
        assert k == s.shortname && HasFailure(ChecksOf(s));
      }
    }
  }

  /** Failure reasons are only ever added: no entry is overwritten by a later service. */
  lemma {:induction false} ProcessServicesExtendsFailing(svcs: seq<ServiceStats>,
                                                         prevIndex: map<string, ServiceStats>, acc: Acc)
    requires AccValid(acc)
    ensures ProcessServices(svcs, prevIndex, acc).Ok? ==>
      Extends(acc.failing, ProcessServices(svcs, prevIndex, acc).value.failing)
  {
    if |svcs| == 0 {
      assert Extends(acc.failing, acc.failing);
    } else if ProcessedRecord(svcs[0], prevIndex).Ok? {
      var s := svcs[0];
      var next := Advance(acc, s, ProcessedRecord(s, prevIndex).value);
      RecordFailuresExtends(ChecksOf(s), s.shortname, acc.failing);
      ProcessServicesExtendsFailing(svcs[1..], prevIndex, next);
      if ProcessServices(svcs[1..], prevIndex, next).Ok? {
        ExtendsTransitive(acc.failing, next.failing, ProcessServices(svcs[1..], prevIndex, next).value.failing);
      }
    }
  }

  /** The loop adds exactly the names of the services it walks over. */
  lemma {:induction false} ProcessServicesKeys(svcs: seq<ServiceStats>, prevIndex: map<string, ServiceStats>, acc: Acc)
    requires AccValid(acc)
    ensures ProcessServices(svcs, prevIndex, acc).Ok? ==>
      var res := ProcessServices(svcs, prevIndex, acc).value;
      forall k :: k in res.services.vals <==> k in acc.services.vals || exists s :: s in svcs && s.shortname == k
  {
    if |svcs| > 0 && ProcessedRecord(svcs[0], prevIndex).Ok? {
      var s := svcs[0];
      assert svcs == [s] + svcs[1..];
      var next := Advance(acc, s, ProcessedRecord(s, prevIndex).value);
      ProcessServicesKeys(svcs[1..], prevIndex, next);
    }
  }

  /** The position of the first service called `name`, or the length when there is none. */
  function FirstServiceIndex(svcs: seq<ServiceStats>, name: string): (i: nat)
    ensures i <= |svcs|
    ensures forall j :: 0 <= j < i ==> svcs[j].shortname != name
    ensures i < |svcs| ==> svcs[i].shortname == name
  {
    if |svcs| == 0 then 0
    else if svcs[0].shortname == name then 0
    else 1 + FirstServiceIndex(svcs[1..], name)
  }

  /** `keys` followed by the shortnames of `svcs` not already present, each once, as the loop meets them. */
  function Arrivals(keys: seq<string>, svcs: seq<ServiceStats>): seq<string>
    decreases |svcs|
  {
    if |svcs| == 0 then keys
    else
      var name := svcs[0].shortname;
      Arrivals(if name in keys then keys else keys + [name], svcs[1..])
  }

  /** Storing under an existing name keeps its place, so the loop's keys arrive in order of first appearance. */
  lemma {:induction false} ProcessServicesKeyOrder(svcs: seq<ServiceStats>, prevIndex: map<string, ServiceStats>, acc: Acc)
    requires AccValid(acc)
    ensures ProcessServices(svcs, prevIndex, acc).Ok? ==>
      ProcessServices(svcs, prevIndex, acc).value.services.keys == Arrivals(acc.services.keys, svcs)
  {
    if |svcs| > 0 && ProcessedRecord(svcs[0], prevIndex).Ok? {
      var s := svcs[0];
      var next := Advance(acc, s, ProcessedRecord(s, prevIndex).value);
      assert next.services.keys ==
        if s.shortname in acc.services.keys then acc.services.keys else acc.services.keys + [s.shortname];
      ProcessServicesKeyOrder(svcs[1..], prevIndex, next);
    }
  }

  /** Arrivals keeps `keys` in front and appends new names, each from `svcs`, in order of first appearance. */
  lemma {:induction false} ArrivalsOrder(keys: seq<string>, svcs: seq<ServiceStats>)
    ensures var r := Arrivals(keys, svcs);
      && |keys| <= |r| && r[..|keys|] == keys
      && (forall i :: |keys| <= i < |r| ==> r[i] !in keys && FirstServiceIndex(svcs, r[i]) < |svcs|)
      && (forall i, j :: |keys| <= i < j < |r| ==>
            FirstServiceIndex(svcs, r[i]) < FirstServiceIndex(svcs, r[j]))
    decreases |svcs|
  {
    if |svcs| > 0 {
      var name := svcs[0].shortname;
      var tail := svcs[1..];
      var keys' := if name in keys then keys else keys + [name];
      ArrivalsOrder(keys', tail);
      var r := Arrivals(keys, svcs);
      assert r == Arrivals(keys', tail);
      forall x | x != name
        ensures FirstServiceIndex(svcs, x) == 1 + FirstServiceIndex(tail, x)
      {
      }
      forall i | |keys'| <= i < |r|
        ensures r[i] != name
      {
        assert r[i] !in keys';
      }
      if name !in keys {
        assert r[|keys|] == keys'[|keys|] == name;
        assert r[..|keys|] == r[..|keys'|][..|keys|];
      }
    }
  }

  /** Every service with a failed recognised check ends up with a failure reason. */
  lemma {:induction false} ProcessServicesCoversFailures(svcs: seq<ServiceStats>,
                                                         prevIndex: map<string, ServiceStats>, acc: Acc)
    requires AccValid(acc)
    ensures ProcessServices(svcs, prevIndex, acc).Ok? ==>
      forall s :: s in svcs && HasFailure(ChecksOf(s)) ==>
        s.shortname in ProcessServices(svcs, prevIndex, acc).value.failing.vals
  {
    if |svcs| > 0 && ProcessedRecord(svcs[0], prevIndex).Ok? {
      var s := svcs[0];
      assert svcs == [s] + svcs[1..];
      var next := Advance(acc, s, ProcessedRecord(s, prevIndex).value);
      RecordFailuresKeepsFirst(ChecksOf(s), s.shortname, acc.failing);
      ProcessServicesCoversFailures(svcs[1..], prevIndex, next);
      ProcessServicesExtendsFailing(svcs[1..], prevIndex, next);
    }
  }

  /** Every record and every failure reason the loop stores comes from a service in `all`. */
  lemma {:induction false} ProcessServicesBuiltFrom(svcs: seq<ServiceStats>, prevIndex: map<string, ServiceStats>,
                                                    acc: Acc, all: seq<ServiceStats>)
    requires AccValid(acc)
    requires forall s :: s in svcs ==> s in all
    requires BuiltFrom(acc, all, prevIndex)
    ensures ProcessServices(svcs, prevIndex, acc).Ok? ==>
      BuiltFrom(ProcessServices(svcs, prevIndex, acc).value, all, prevIndex)
  {
    if |svcs| > 0 && ProcessedRecord(svcs[0], prevIndex).Ok? {
      var s := svcs[0];
      var next := Advance(acc, s, ProcessedRecord(s, prevIndex).value);
      AdvanceRecordsFromAll(acc, s, prevIndex, all);
      AdvanceFailuresFromAll(acc, s, prevIndex, all);
      ProcessServicesBuiltFrom(svcs[1..], prevIndex, next, all);
    }
  }

  // ===== prev_services =====

  /** `{s['shortname']: s for s in services}`: a later record with the same name wins. */
  function IndexByShortname(svcs: seq<ServiceStats>): map<string, ServiceStats>
    decreases |svcs|
  {
    if |svcs| == 0 then map[]
    else
      var last := svcs[|svcs| - 1];
      IndexByShortname(svcs[..|svcs| - 1])[last.shortname := last]
  }

  /** A name is indexed exactly when some record has it, and it maps to the last such record. */
  lemma {:induction false} IndexHoldsLast(svcs: seq<ServiceStats>, name: string)
    ensures name in IndexByShortname(svcs) <==> exists i :: 0 <= i < |svcs| && svcs[i].shortname == name
    ensures name in IndexByShortname(svcs) ==>
      exists i :: (0 <= i < |svcs| && IndexByShortname(svcs)[name] == svcs[i]
                   && svcs[i].shortname == name
                   && (forall j :: i < j < |svcs| ==> svcs[j].shortname != name))
  {
    if |svcs| > 0 {
      var n := |svcs|;
      var init := svcs[..n - 1];
      var m := IndexByShortname(svcs);
      assert m == IndexByShortname(init)[svcs[n - 1].shortname := svcs[n - 1]];
      IndexHoldsLast(init, name);
      assert forall j :: 0 <= j < n - 1 ==> svcs[j] == init[j];
      if svcs[n - 1].shortname == name {
        assert m[name] == svcs[n - 1];
      } else if name in IndexByShortname(init) {
        var i :| 0 <= i < |init| && IndexByShortname(init)[name] == init[i] && init[i].shortname == name
                 && (forall j :: i < j < |init| ==> init[j].shortname != name);
        assert m[name] == svcs[i];
      } else {
        assert name !in m;
        assert forall i :: 0 <= i < n ==> svcs[i].shortname != name;
      }
    }
  }

  /** The previous team's services by name; `previous_team['services']` must be present. */
  function PreviousIndex(prevTeam: Option<Team>): Result<map<string, ServiceStats>, string> {
    match prevTeam
    case None => Ok(map[])
    case Some(t) =>
      match t.services
      case None => Err("services")
      case Some(svcs) => Ok(IndexByShortname(svcs))
  }

  /** The team record of the previous round, when there is a previous snapshot. */
  function PreviousTeam(previous: Option<Snapshot>, target: string): Option<Team> {
    if previous.Some? then FindTeam(previous.value, target) else None
  }

  // ===== canonical service order =====

  /** Index of the first entry of the service list named `name`, or |infos|. */
  function FirstInfoIndex(infos: seq<ServiceInfo>, name: string): (i: nat)
    ensures i <= |infos|
    ensures forall j :: 0 <= j < i ==> infos[j].shortname != name
    ensures i < |infos| ==> infos[i].shortname == name
  {
    if |infos| == 0 then 0
    else if infos[0].shortname == name then 0
    else 1 + FirstInfoIndex(infos[1..], name)
  }

  /** The reordering loop of data_processor.py:109-115 over the first `|infos|` entries. */
  function Reorder(infos: seq<ServiceInfo>, services: Dict<ProcessedService>): (r: Dict<ProcessedService>)
    requires Valid(services)
    ensures Valid(r)
    decreases |infos|
  {
    if |infos| == 0 then Empty()
    else
      var r := Reorder(infos[..|infos| - 1], services);
      var name := infos[|infos| - 1].shortname;
      if name in services.vals then Put(r, name, services.vals[name]) else r
  }

  lemma FirstInfoIndexOfPrefix(infos: seq<ServiceInfo>, name: string)
    requires |infos| > 0
    ensures var n := |infos|;
      var i := FirstInfoIndex(infos[..n - 1], name);
      && (i < n - 1 ==> FirstInfoIndex(infos, name) == i)
      && (i == n - 1 ==> FirstInfoIndex(infos, name) == if infos[n - 1].shortname == name then n - 1 else n)
  {
    var n := |infos|;
    assert forall j :: 0 <= j < n - 1 ==> infos[..n - 1][j] == infos[j];
  }

  /** Only services in the list, each once, with its value, in the order of first mention. */
  lemma {:induction false} ReorderFollowsServiceList(infos: seq<ServiceInfo>, services: Dict<ProcessedService>)
    requires Valid(services)
    ensures var r := Reorder(infos, services);
      && (forall k :: k in r.vals <==> k in services.vals && FirstInfoIndex(infos, k) < |infos|)
      && (forall k :: k in r.vals ==> r.vals[k] == services.vals[k])
      && (forall i, j :: 0 <= i < j < |r.keys| ==>
            FirstInfoIndex(infos, r.keys[i]) < FirstInfoIndex(infos, r.keys[j]))
  {
    ReorderSelects(infos, services);
    ReorderOrders(infos, services);
  }

  /** The reordered dictionary holds exactly the listed services, with their values. */
  lemma {:induction false} ReorderSelects(infos: seq<ServiceInfo>, services: Dict<ProcessedService>)
    requires Valid(services)
    ensures var r := Reorder(infos, services);
      && (forall k :: k in r.vals <==> k in services.vals && FirstInfoIndex(infos, k) < |infos|)
      && (forall k :: k in r.vals ==> r.vals[k] == services.vals[k])
  {
    if |infos| > 0 {
      var n := |infos|;
      var init := infos[..n - 1];
      ReorderSelects(init, services);
      forall k ensures FirstInfoIndex(init, k) < n - 1 ==> FirstInfoIndex(infos, k) == FirstInfoIndex(init, k)
        ensures FirstInfoIndex(init, k) == n - 1 ==>
          FirstInfoIndex(infos, k) == if infos[n - 1].shortname == k then n - 1 else n
      {
        FirstInfoIndexOfPrefix(infos, k);
      }
    }
  }

  /** The reordered dictionary's keys follow the list's order of first mention. */
  lemma {:induction false} ReorderOrders(infos: seq<ServiceInfo>, services: Dict<ProcessedService>)
    requires Valid(services)
    ensures var r := Reorder(infos, services);
      forall i, j :: 0 <= i < j < |r.keys| ==>
        FirstInfoIndex(infos, r.keys[i]) < FirstInfoIndex(infos, r.keys[j])
  {
    if |infos| > 0 {
      var n := |infos|;
      var init := infos[..n - 1];
      ReorderOrders(init, services);
      ReorderSelects(init, services);
      ReorderOrdersStep(infos, services);
    }
  }

  /** Appending one entry to the list keeps the reordered keys in order of first mention. */
  lemma ReorderOrdersStep(infos: seq<ServiceInfo>, services: Dict<ProcessedService>)
    requires Valid(services) && |infos| > 0
    requires var init := infos[..|infos| - 1];
      var r0 := Reorder(init, services);
      && (forall k :: k in r0.vals <==> k in services.vals && FirstInfoIndex(init, k) < |init|)
      && (forall i, j :: 0 <= i < j < |r0.keys| ==>
            FirstInfoIndex(init, r0.keys[i]) < FirstInfoIndex(init, r0.keys[j]))
    ensures var r := Reorder(infos, services);
      forall i, j :: 0 <= i < j < |r.keys| ==>
        FirstInfoIndex(infos, r.keys[i]) < FirstInfoIndex(infos, r.keys[j])
  {
    var n := |infos|;
    var init := infos[..n - 1];
    var name := infos[n - 1].shortname;
    var r0 := Reorder(init, services);
    var r := Reorder(infos, services);
    var added := name in services.vals && name !in r0.vals;
    assert r.keys == if added then r0.keys + [name] else r0.keys;
    forall i, j | 0 <= i < j < |r.keys|
      ensures FirstInfoIndex(infos, r.keys[i]) < FirstInfoIndex(infos, r.keys[j])
    {
      assert r.keys[i] == r0.keys[i] && r0.keys[i] in r0.vals;
      FirstInfoIndexOfPrefix(infos, r.keys[i]);
      FirstInfoIndexOfPrefix(infos, r.keys[j]);
      if j < |r0.keys| {
        assert r.keys[j] == r0.keys[j] && r0.keys[j] in r0.vals;
      } else {
        assert r.keys[j] == name && name in services.vals && name !in r0.vals;
        assert FirstInfoIndex(init, name) == n - 1;
      }
    }
  }

  /** The reordering loop (data_processor.py:111-114). */
  method ReorderServices(infos: seq<ServiceInfo>, services: Dict<ProcessedService>)
    returns (ordered: Dict<ProcessedService>)
    requires Valid(services)
    ensures Valid(ordered)
    ensures ordered == Reorder(infos, services)
  {
    ordered := Empty();
    var i := 0;
    while i < |infos|
      invariant 0 <= i <= |infos|
      invariant Valid(ordered)
      invariant ordered == Reorder(infos[..i], services)
    {
      assert infos[..i + 1][..i] == infos[..i];
      var name := infos[i].shortname;
      if name in services.vals {
        ordered := Put(ordered, name, services.vals[name]);
      }
      i := i + 1;
    }
    assert infos[..i] == infos;
  }

  /** `current_data.get('services')` is a non-empty list. */
  predicate HasServiceList(current: Snapshot) {
    current.services.Some? && |current.services.value| > 0
  }

  function CanonicalServices(current: Snapshot, services: Dict<ProcessedService>): (r: Dict<ProcessedService>)
    requires Valid(services)
    ensures Valid(r)
  {
    if HasServiceList(current) then Reorder(current.services.value, services) else services
  }

  // ===== process_data_for_display =====

  /** What process_data_for_display returns for the current and previous snapshots. */
  function Process(current: Snapshot, previous: Option<Snapshot>, target: string): Outcome {
    match FindTeam(current, target)
    case None => TeamNotFound
    case Some(team) =>
      match PreviousIndex(PreviousTeam(previous, target))
      case Err(k) => MissingKey(k)
      case Ok(prevIndex) =>
        match team.services
        case None => MissingKey("services")
        case Some(svcs) =>
          match ProcessServices(svcs, prevIndex, Acc(Empty(), Empty()))
          case Err(k) => MissingKey(k)
          case Ok(acc) =>
            View(TeamView(team.name, team.shortname, team.position, team.score,
                          CanonicalServices(current, acc.services), acc.failing))
  }

  /** The loop over the team's services (data_processor.py:35-107). */
  method ProcessServiceLoop(svcs: seq<ServiceStats>, prevIndex: map<string, ServiceStats>)
    returns (r: Result<Acc, string>)
    ensures r == ProcessServices(svcs, prevIndex, Acc(Empty(), Empty()))
  {
    var services: Dict<ProcessedService> := Empty();
    var failing: Dict<string> := Empty();
    var i := 0;
    while i < |svcs|
      invariant 0 <= i <= |svcs|
      invariant Valid(services) && Valid(failing)
      invariant ProcessServices(svcs[i..], prevIndex, Acc(services, failing))
             == ProcessServices(svcs, prevIndex, Acc(Empty(), Empty()))
    {
      var service := svcs[i];
      assert svcs[i..][0] == service && svcs[i..][1..] == svcs[i + 1..];
      var name := service.shortname;
      var prev := PrevRecord(prevIndex, name);
      var metrics := ServiceView(service, prev, []);
      ServiceViewChecks(service, prev, OrderedChecks(CheckResults(ChecksOf(service))));
      if metrics.Err? {
        return Err(metrics.error);
      }
      var results, failing' := RecordChecks(ChecksOf(service), name, failing);
      var ordered := OrderChecks(results);
      var record := metrics.value.(checks := ordered);
      assert ProcessedRecord(service, prevIndex) == Ok(record);
      services := Put(services, name, record);
      failing := failing';
      i := i + 1;
    }
    return Ok(Acc(services, failing));
  }

  method ProcessDataForDisplay(current: Snapshot, previous: Option<Snapshot>, target: string)
    returns (r: Outcome)
    ensures r == Process(current, previous, target)
  {
    var currentTeam := FindTeamInScoreboard(current, target);
    var previousTeam: Option<Team> := None;
    if previous.Some? {
      previousTeam := FindTeamInScoreboard(previous.value, target);
    }
    if currentTeam.None? {
      return TeamNotFound;
    }
    var team := currentTeam.value;

    var prevIndex: map<string, ServiceStats> := map[];
    if previousTeam.Some? {
      if previousTeam.value.services.None? {
        return MissingKey("services");
      }
      prevIndex := IndexByShortname(previousTeam.value.services.value);
    }
    assert PreviousIndex(PreviousTeam(previous, target)) == Ok(prevIndex);

    if team.services.None? {
      return MissingKey("services");
    }
    var loop := ProcessServiceLoop(team.services.value, prevIndex);
    if loop.Err? {
      return MissingKey(loop.error);
    }
    var services := loop.value.services;
    if HasServiceList(current) {
      services := ReorderServices(current.services.value, services);
    }
    return View(TeamView(team.name, team.shortname, team.position, team.score, services, loop.value.failing));
  }

  // ===== properties of the whole call =====

  /** None exactly when the current team is absent; a missing previous team is tolerated. */
  lemma ProcessIsNoneIffTeamAbsent(current: Snapshot, previous: Option<Snapshot>, target: string)
    ensures Process(current, previous, target) == TeamNotFound <==> FindTeam(current, target).None?
  {
  }

  /** A KeyError exactly when the previous team or the team lacks `services`, or a service a key. */
  lemma ProcessMissingKey(current: Snapshot, previous: Option<Snapshot>, target: string)
    requires FindTeam(current, target).Some?
    ensures var team := FindTeam(current, target).value;
      var prevIndex := PreviousIndex(PreviousTeam(previous, target));
      Process(current, previous, target).MissingKey? <==>
        || prevIndex.Err?
        || team.services.None?
        || exists s :: s in team.services.value && ProcessedRecord(s, prevIndex.value).Err?
  {
    var team := FindTeam(current, target).value;
    var prevIndex := PreviousIndex(PreviousTeam(previous, target));
    if prevIndex.Ok? && team.services.Some? {
      ProcessServicesFails(team.services.value, prevIndex.value, Acc(Empty(), Empty()));
    }
  }

  /** The view copies the team's name, shortname, position and score. */
  lemma ProcessViewIdentity(current: Snapshot, previous: Option<Snapshot>, target: string)
    requires Process(current, previous, target).View?
    ensures var v := Process(current, previous, target).view;
      var team := FindTeam(current, target).value;
      && v.name == team.name && v.shortname == team.shortname
      && v.position == team.position && v.score == team.score
      && Valid(v.services) && Valid(v.failingServices)
  {
  }

  /** The view holds one record per shortname of the team, filtered by the service list when there is one. */
  lemma ProcessViewServices(current: Snapshot, previous: Option<Snapshot>, target: string)
    requires Process(current, previous, target).View?
    ensures var v := Process(current, previous, target).view;
      var svcs := FindTeam(current, target).value.services.value;
      var prevIndex := PreviousIndex(PreviousTeam(previous, target)).value;
      && (forall k :: k in v.services.vals <==>
            (exists s :: s in svcs && s.shortname == k)
            && (HasServiceList(current) ==> FirstInfoIndex(current.services.value, k) < |current.services.value|))
      && (forall k :: k in v.services.vals ==>
            exists s :: s in svcs && s.shortname == k && ProcessedRecord(s, prevIndex) == Ok(v.services.vals[k]))
  {
    var svcs := FindTeam(current, target).value.services.value;
    var prevIndex := PreviousIndex(PreviousTeam(previous, target)).value;
    var acc0 := Acc(Empty(), Empty());
    ProcessServicesBuiltFrom(svcs, prevIndex, acc0, svcs);
    ProcessServicesKeys(svcs, prevIndex, acc0);
    var acc := ProcessServices(svcs, prevIndex, acc0).value;
    if HasServiceList(current) {
      ReorderFollowsServiceList(current.services.value, acc.services);
    }
  }

  /** Every record in the view lists the checks S, P, G in that order. */
  lemma ProcessViewChecks(current: Snapshot, previous: Option<Snapshot>, target: string)
    requires Process(current, previous, target).View?
    ensures var v := Process(current, previous, target).view;
      forall k :: k in v.services.vals ==> CanonicalChecks(v.services.vals[k].checks)
  {
    var v := Process(current, previous, target).view;
    var svcs := FindTeam(current, target).value.services.value;
    var prevIndex := PreviousIndex(PreviousTeam(previous, target)).value;
    ProcessViewServices(current, previous, target);
    forall k | k in v.services.vals
      ensures CanonicalChecks(v.services.vals[k].checks)
    {
      var s :| s in svcs && s.shortname == k && ProcessedRecord(s, prevIndex) == Ok(v.services.vals[k]);
      ProcessedChecks(s, prevIndex);
    }
  }

  /** A service has a failure reason exactly when one of its records has a failed check; the reason is that record's first failure. */
  lemma ProcessViewFailing(current: Snapshot, previous: Option<Snapshot>, target: string)
    requires Process(current, previous, target).View?
    ensures var v := Process(current, previous, target).view;
      var svcs := FindTeam(current, target).value.services.value;
      && (forall k :: k in v.failingServices.vals ==>
            exists s :: s in svcs && s.shortname == k && HasFailure(ChecksOf(s))
                        && v.failingServices.vals[k] == FirstFailureMessage(ChecksOf(s)))
      && (forall s :: s in svcs && HasFailure(ChecksOf(s)) ==> s.shortname in v.failingServices.vals)
  {
    var team := FindTeam(current, target).value;
    var prevIndex := PreviousIndex(PreviousTeam(previous, target)).value;
    var svcs := team.services.value;
    ProcessServicesBuiltFrom(svcs, prevIndex, Acc(Empty(), Empty()), svcs);
    ProcessServicesCoversFailures(svcs, prevIndex, Acc(Empty(), Empty()));
  }

  /** Without a service list, the view keeps the team's services in order of first appearance. */
  lemma ProcessViewTeamOrder(current: Snapshot, previous: Option<Snapshot>, target: string)
    requires Process(current, previous, target).View?
    requires !HasServiceList(current)
    ensures var v := Process(current, previous, target).view;
      var svcs := FindTeam(current, target).value.services.value;
      && (forall i :: 0 <= i < |v.services.keys| ==> FirstServiceIndex(svcs, v.services.keys[i]) < |svcs|)
      && (forall i, j :: 0 <= i < j < |v.services.keys| ==>
            FirstServiceIndex(svcs, v.services.keys[i]) < FirstServiceIndex(svcs, v.services.keys[j]))
  {
    var team := FindTeam(current, target).value;
    var prevIndex := PreviousIndex(PreviousTeam(previous, target)).value;
    var acc0 := Acc(Empty(), Empty());
    ProcessServicesKeyOrder(team.services.value, prevIndex, acc0);
    ArrivalsOrder([], team.services.value);
  }

  /** With a service list, the view follows its order of first mention. */
  lemma ProcessViewOrder(current: Snapshot, previous: Option<Snapshot>, target: string)
    requires Process(current, previous, target).View?
    requires HasServiceList(current)
    ensures var v := Process(current, previous, target).view;
      var infos := current.services.value;
      forall i, j :: 0 <= i < j < |v.services.keys| ==>
        FirstInfoIndex(infos, v.services.keys[i]) < FirstInfoIndex(infos, v.services.keys[j])
  {
    var team := FindTeam(current, target).value;
    var prevIndex := PreviousIndex(PreviousTeam(previous, target)).value;
    var acc := ProcessServices(team.services.value, prevIndex, Acc(Empty(), Empty())).value;
    ReorderFollowsServiceList(current.services.value, acc.services);
  }
}
