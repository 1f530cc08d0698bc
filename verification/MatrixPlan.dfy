/**
 * The test-matrix planner and its checker: selecting cases from the registry, building a run plan, checking a plan
 * against the registry, and aggregating execution records into a release gate.
 */
module MatrixPlan {
  import opened Prelude
  import opened Text

  const RUN_SCHEMA_VERSION := 1
  const MAX_CASES := 512
  const MAX_PROFILES := 64
  const MAX_TEXT_LENGTH := 400
  const MAX_TIMEOUT_SECONDS := 86_400

  // ---------------------------------------------------------------------------------------------
  // The registry
  // ---------------------------------------------------------------------------------------------

  datatype Support =
    Required | Supported | Experimental | Planned | HardwareBlocked | Unsupported | OtherSupport(text: string)

  datatype Variant = Debug | ReleaseEquivalent | OtherVariant(text: string)

  datatype Case = Case(
    id: string,
    gate: string,
    sender: string,
    receiver: string,
    profile: string,
    support: Support,
    variant: Variant,
    physical: bool,
    repetitions: int,
    timeout: int,
    tags: seq<string>
  )

  /** `profiles` gives each transfer profile's scenario. */
  datatype Registry = Registry(revision: string, profiles: map<string, string>, cases: seq<Case>)

  predicate LowerOrDigit(c: char) {
    'a' <= c <= 'z' || '0' <= c <= '9'
  }

  predicate IsIdentifier(s: string) {
    1 <= |s| <= 96 && LowerOrDigit(s[0])
    && forall i :: 0 <= i < |s| ==> LowerOrDigit(s[i]) || s[i] == '_' || s[i] == '.' || s[i] == '-'
  }

  predicate IsProfileIdentifier(s: string) {
    1 <= |s| <= 64 && LowerOrDigit(s[0])
    && forall i :: 0 <= i < |s| ==> LowerOrDigit(s[i]) || s[i] == '_' || s[i] == '-'
  }

  predicate IsRunIdentifier(s: string) {
    1 <= |s| <= 96 && (LowerOrDigit(s[0]) || 'A' <= s[0] <= 'Z')
    && forall i :: 0 <= i < |s| ==>
         LowerOrDigit(s[i]) || 'A' <= s[i] <= 'Z' || s[i] == '_' || s[i] == '.' || s[i] == '-'
  }

  predicate IsCommit(s: string) {
    7 <= |s| <= 64 && forall i :: 0 <= i < |s| ==> IsLowerHex(s[i])
  }

  predicate TextOk(s: string) {
    1 <= |s| <= MAX_TEXT_LENGTH && forall i :: 0 <= i < |s| ==> s[i] as int >= 32
  }

  predicate CaseOk(profiles: map<string, string>, c: Case) {
    && IsIdentifier(c.id) && IsIdentifier(c.gate) && c.profile in profiles
    && !c.support.OtherSupport? && !c.variant.OtherVariant?
    && 1 <= c.repetitions <= 10 && 30 <= c.timeout <= MAX_TIMEOUT_SECONDS
    && (forall i :: 0 <= i < |c.tags| ==> IsProfileIdentifier(c.tags[i]))
    && (c.physical ==> c.variant.ReleaseEquivalent? && c.repetitions >= 3)
  }

  ghost predicate DistinctIds(cases: seq<Case>) {
    forall i, j :: 0 <= i < j < |cases| ==> cases[i].id != cases[j].id
  }

  /** The registry rules the planner relies on. */
  ghost predicate RegistryOk(reg: Registry) {
    && reg.profiles != map[] && |reg.profiles| <= MAX_PROFILES
    && 0 < |reg.cases| <= MAX_CASES
    && (forall i :: 0 <= i < |reg.cases| ==> CaseOk(reg.profiles, reg.cases[i]))
    && DistinctIds(reg.cases)
  }

  datatype RegistryError =
    BadProfiles | TooManyProfiles | BadCases | TooManyCases | BadCase(index: nat) | DuplicateCase(id: string)

  /** Collects every violation; there is none exactly when the registry keeps the rules. */
  method ValidateRegistry(reg: Registry) returns (errors: seq<RegistryError>)
    ensures errors == [] <==> RegistryOk(reg)
  {
    errors := [];
    if reg.profiles == map[] {
      errors := errors + [BadProfiles];
    } else if |reg.profiles| > MAX_PROFILES {
      errors := errors + [TooManyProfiles];
    }
    if reg.cases == [] {
      errors := errors + [BadCases];
      return;
    }
    if |reg.cases| > MAX_CASES {
      errors := errors + [TooManyCases];
    }
    var seen: set<string> := {};
    for k := 0 to |reg.cases|
      invariant seen == set i | 0 <= i < k :: reg.cases[i].id
      invariant errors != [] ==> !RegistryOk(reg)
      invariant errors == [] ==> reg.profiles != map[] && |reg.profiles| <= MAX_PROFILES && |reg.cases| <= MAX_CASES
      invariant errors == [] ==> forall i :: 0 <= i < k ==> CaseOk(reg.profiles, reg.cases[i])
      invariant errors == [] ==> forall i, j :: 0 <= i < j < k ==> reg.cases[i].id != reg.cases[j].id
    {
      var c := reg.cases[k];
      if !CaseOk(reg.profiles, c) {
        errors := errors + [BadCase(k)];
      }
      if c.id in seen {
        errors := errors + [DuplicateCase(c.id)];
      }
      seen := seen + {c.id};
    }
  }

  // ---------------------------------------------------------------------------------------------
  // Selecting cases
  // ---------------------------------------------------------------------------------------------

  datatype Request =
    Request(caseIds: seq<string>, gate: Option<string>, tag: Option<string>, scenarios: seq<string>,
            directions: seq<string>)

  datatype PlanError =
    | NotOneMode | DuplicateIds | UnknownIds | IncompleteLegacy | NothingSelected
    | BadRunId | BadCommit | BadVariant | BadOverride
    | TooFewRepetitions(id: string) | WrongVariant(id: string)

  function Modes(r: Request): nat {
    (if r.caseIds != [] then 1 else 0) + (if r.gate.Some? then 1 else 0) + (if r.tag.Some? then 1 else 0)
    + (if r.scenarios != [] || r.directions != [] then 1 else 0)
  }

  ghost predicate NoRepeats(s: seq<string>) {
    forall i, j :: 0 <= i < j < |s| ==> s[i] != s[j]
  }

  /** Whether the request selects the case. */
  predicate Chosen(reg: Registry, r: Request, c: Case) {
    if r.caseIds != [] then c.id in r.caseIds
    else if r.gate.Some? then c.gate == r.gate.value
    else if r.tag.Some? then r.tag.value in c.tags
    else
      && c.gate == "current-physical-harness"
      && c.sender + ":" + c.receiver in r.directions
      && c.profile in reg.profiles && reg.profiles[c.profile] in r.scenarios
  }

  function SelectionName(r: Request): string {
    if r.caseIds != [] then "case"
    else if r.gate.Some? then "gate:" + r.gate.value
    else if r.tag.Some? then "tag:" + r.tag.value
    else "legacy"
  }

  /** The chosen cases in registry order. */
  function Select(reg: Registry, r: Request, cases: seq<Case>): (s: seq<Case>)
    ensures forall i :: 0 <= i < |s| ==> s[i] in cases && Chosen(reg, r, s[i])
    ensures forall c :: c in cases && Chosen(reg, r, c) ==> c in s
  {
    if cases == [] then []
    else (if Chosen(reg, r, cases[0]) then [cases[0]] else []) + Select(reg, r, cases[1..])
  }

  predicate IsKnown(reg: Registry, id: string) {
    exists k :: 0 <= k < |reg.cases| && reg.cases[k].id == id
  }

  ghost function Resolve(reg: Registry, r: Request): Result<(seq<Case>, string), PlanError> {
    if Modes(r) != 1 then Err(NotOneMode)
    else if r.caseIds != [] && !NoRepeats(r.caseIds) then Err(DuplicateIds)
    else if r.caseIds != [] && exists i :: 0 <= i < |r.caseIds| && !IsKnown(reg, r.caseIds[i]) then Err(UnknownIds)
    else if r.caseIds == [] && r.gate.None? && r.tag.None? && (r.scenarios == [] || r.directions == [])
        then Err(IncompleteLegacy)
    else if Select(reg, r, reg.cases) == [] then Err(NothingSelected)
    else Ok((Select(reg, r, reg.cases), SelectionName(r)))
  }

  method HasRepeats(s: seq<string>) returns (repeats: bool)
    ensures repeats <==> !NoRepeats(s)
  {
    var seen: set<string> := {};
    for k := 0 to |s|
      invariant seen == set i | 0 <= i < k :: s[i]
      invariant NoRepeats(s[..k])
    {
      if s[k] in seen {
        return true;
      }
      seen := seen + {s[k]};
      assert s[..k + 1] == s[..k] + [s[k]];
    }
    assert s[..|s|] == s;
    return false;
  }

  method ResolveCases(reg: Registry, r: Request) returns (out: Result<(seq<Case>, string), PlanError>)
    ensures out == Resolve(reg, r)
  {
    if Modes(r) != 1 {
      return Err(NotOneMode);
    }
    if r.caseIds != [] {
      var repeats := HasRepeats(r.caseIds);
      if repeats {
        return Err(DuplicateIds);
      }
      for k := 0 to |r.caseIds|
        invariant forall i :: 0 <= i < k ==> IsKnown(reg, r.caseIds[i])
      {
        if !IsKnown(reg, r.caseIds[k]) {
          return Err(UnknownIds);
        }
      }
    } else if r.gate.None? && r.tag.None? && (r.scenarios == [] || r.directions == []) {
      return Err(IncompleteLegacy);
    }
    var selected := Select(reg, r, reg.cases);
    if selected == [] {
      return Err(NothingSelected);
    }
    return Ok((selected, SelectionName(r)));
  }

  lemma {:induction false} SelectKeepsDistinct(reg: Registry, r: Request, cases: seq<Case>)
    requires DistinctIds(cases)
    ensures DistinctIds(Select(reg, r, cases))
  {
    if cases != [] {
      var rest := Select(reg, r, cases[1..]);
      SelectKeepsDistinct(reg, r, cases[1..]);
      forall i | 0 <= i < |rest|
        ensures rest[i].id != cases[0].id
      {
        var k :| 0 <= k < |cases[1..]| && cases[1..][k] == rest[i];
        assert cases[k + 1] == rest[i];
      }
    }
  }

  /** The first list is the second with some entries left out, in the same order. */
  predicate Subsequence(a: seq<Case>, b: seq<Case>) {
    a == [] || (b != [] && (if a[0] == b[0] then Subsequence(a[1..], b[1..]) else Subsequence(a, b[1..])))
  }

  lemma {:induction false} SelectIsSubsequence(reg: Registry, r: Request, cases: seq<Case>)
    ensures Subsequence(Select(reg, r, cases), cases)
  {
    if cases != [] {
      SelectIsSubsequence(reg, r, cases[1..]);
      var rest := Select(reg, r, cases[1..]);
      if Chosen(reg, r, cases[0]) {
        assert ([cases[0]] + rest)[1..] == rest;
      } else {
        assert [] + rest == rest;
        assert rest != [] ==> Chosen(reg, r, rest[0]);
      }
    }
  }

  lemma SelectExactly(reg: Registry, r: Request, c: Case)
    ensures c in Select(reg, r, reg.cases) <==> c in reg.cases && Chosen(reg, r, c)
  {
    if c in Select(reg, r, reg.cases) {
      var i :| 0 <= i < |Select(reg, r, reg.cases)| && Select(reg, r, reg.cases)[i] == c;
    }
  }

  /** The harness case has a direction and a scenario that were asked for. */
  predicate LegacyMatch(reg: Registry, r: Request, c: Case) {
    && c.gate == "current-physical-harness"
    && c.profile in reg.profiles && reg.profiles[c.profile] in r.scenarios
    && c.sender + (":" + c.receiver) in r.directions
  }

  /**
   * What a request resolves to, mode by mode: registry cases in registry order, and exactly those with an id asked for,
   * of the gate, carrying the tag, or of an old direction and scenario; every id asked for is there.
   */
  lemma ResolvesToWhatWasAsked(reg: Registry, r: Request)
    requires Resolve(reg, r).Ok?
    ensures var out := Resolve(reg, r).value.0;
            && out != [] && Subsequence(out, reg.cases)
            && (r.caseIds != [] ==>
                  && (forall c :: c in out <==> c in reg.cases && c.id in r.caseIds)
                  && (forall id :: id in r.caseIds ==> exists c :: c in out && c.id == id))
            && (r.gate.Some? ==> forall c :: c in out <==> c in reg.cases && c.gate == r.gate.value)
            && (r.tag.Some? ==> forall c :: c in out <==> c in reg.cases && r.tag.value in c.tags)
            && (r.scenarios != [] ==> forall c :: c in out <==> c in reg.cases && LegacyMatch(reg, r, c))
    ensures RegistryOk(reg) ==> DistinctIds(Resolve(reg, r).value.0)
  {
    var out := Resolve(reg, r).value.0;
    SelectIsSubsequence(reg, r, reg.cases);
    forall c
      ensures c in out <==> c in reg.cases && Chosen(reg, r, c)
    {
      SelectExactly(reg, r, c);
    }
    if r.caseIds != [] { AllIdsFound(reg, r); }
    assert forall c: Case :: c.sender + ":" + c.receiver == c.sender + (":" + c.receiver);
    if RegistryOk(reg) { SelectKeepsDistinct(reg, r, reg.cases); }
  }

  lemma AllIdsFound(reg: Registry, r: Request)
    requires Resolve(reg, r).Ok? && r.caseIds != []
    ensures forall id :: id in r.caseIds ==> exists c :: c in Resolve(reg, r).value.0 && c.id == id
  {
    forall id | id in r.caseIds
      ensures exists c :: c in Resolve(reg, r).value.0 && c.id == id
    {
      var i :| 0 <= i < |r.caseIds| && r.caseIds[i] == id;
      assert IsKnown(reg, r.caseIds[i]);
      var n :| 0 <= n < |reg.cases| && reg.cases[n].id == id;
      SelectExactly(reg, r, reg.cases[n]);
    }
  }

  lemma LabelsAreText()
    ensures TextOk("case") && TextOk("gate:") && TextOk("tag:") && TextOk("legacy")
  {
  }

  /** A request that resolves names a gate or a tag of some registry case. */
  lemma SelectionIsNamed(reg: Registry, r: Request)
    requires RegistryOk(reg) && Resolve(reg, r).Ok?
    ensures r.caseIds == [] && r.gate.Some? ==> IsIdentifier(r.gate.value)
    ensures r.caseIds == [] && r.gate.None? && r.tag.Some? ==> IsProfileIdentifier(r.tag.value)
  {
    var c := Select(reg, r, reg.cases)[0];
    assert c in reg.cases && Chosen(reg, r, c);
    var k :| 0 <= k < |reg.cases| && reg.cases[k] == c;
    assert CaseOk(reg.profiles, reg.cases[k]);
  }

  /** The selection's name passes the plan's text check: gates and tags come from registry cases. */
  lemma SelectionNameOk(reg: Registry, r: Request)
    requires RegistryOk(reg) && Resolve(reg, r).Ok?
    ensures TextOk(SelectionName(r))
  {
    LabelsAreText();
    SelectionIsNamed(reg, r);
    if r.caseIds == [] && r.gate.Some? {
      TextAppend("gate:", r.gate.value);
    } else if r.caseIds == [] && r.tag.Some? {
      TextAppend("tag:", r.tag.value);
    }
  }

  lemma TextAppend(lead: string, name: string)
    requires |lead| <= 5 && TextOk(lead) && (IsIdentifier(name) || IsProfileIdentifier(name))
    ensures TextOk(lead + name)
  {
    forall i | 0 <= i < |name|
      ensures name[i] as int >= 32
    {
      assert name[i] == name[i];
    }
  }

  // ---------------------------------------------------------------------------------------------
  // Building a plan
  // ---------------------------------------------------------------------------------------------

  datatype Disposition = Execute | NotRun | DeferUnsupported | DeferHardware | OtherDisposition(text: string)

  datatype Execution = Execution(
    caseId: string,
    repetition: int,
    sender: string,
    receiver: string,
    scenario: string,
    support: Support,
    timeout: int,
    disposition: Disposition
  )

  datatype Plan = Plan(
    schemaVersion: int,
    revision: string,
    runId: string,
    commit: string,
    variant: Variant,
    selection: string,
    dryRun: bool,
    executions: seq<Execution>
  )

  /** What the caller of the planner chooses. */
  datatype RunOptions =
    RunOptions(runId: string, commit: string, variant: Variant, selection: string, dryRun: bool, override: Option<int>)

  function DispositionOf(support: Support, dryRun: bool): Disposition {
    match support
    case Planned => NotRun
    case Unsupported => DeferUnsupported
    case HardwareBlocked => DeferHardware
    case _ => if dryRun then NotRun else Execute
  }

  function RepetitionsOf(c: Case, o: RunOptions): int {
    if o.override.Some? then o.override.value else c.repetitions
  }

  function OptionsError(o: RunOptions): Option<PlanError> {
    if !IsRunIdentifier(o.runId) then Some(BadRunId)
    else if !IsCommit(o.commit) then Some(BadCommit)
    else if o.variant.OtherVariant? then Some(BadVariant)
    else if o.override.Some? && !(1 <= o.override.value <= 10) then Some(BadOverride)
    else None
  }

  function CaseError(c: Case, o: RunOptions): Option<PlanError> {
    if o.override.Some? && o.override.value < c.repetitions then Some(TooFewRepetitions(c.id))
    else if DispositionOf(c.support, o.dryRun).Execute? && c.variant != o.variant then Some(WrongVariant(c.id))
    else None
  }

  function ScenarioOf(reg: Registry, c: Case): string {
    if c.profile in reg.profiles then reg.profiles[c.profile] else ""
  }

  function ExecutionOf(reg: Registry, c: Case, o: RunOptions, repetition: int): Execution {
    Execution(c.id, repetition, c.sender, c.receiver, ScenarioOf(reg, c), c.support, c.timeout,
              DispositionOf(c.support, o.dryRun))
  }

  /** Repetitions 1 to n of one case. */
  function CaseExecutions(reg: Registry, c: Case, o: RunOptions, n: int): (r: seq<Execution>)
    ensures |r| == if n < 0 then 0 else n
    ensures forall i :: 0 <= i < |r| ==> r[i] == ExecutionOf(reg, c, o, i + 1)
    decreases if n < 0 then 0 else n
  {
    if n <= 0 then [] else CaseExecutions(reg, c, o, n - 1) + [ExecutionOf(reg, c, o, n)]
  }

  /** The executions of one case, or its complaint. */
  function OneCase(reg: Registry, c: Case, o: RunOptions): Result<seq<Execution>, PlanError> {
    if CaseError(c, o).Some? then Err(CaseError(c, o).value) else Ok(CaseExecutions(reg, c, o, RepetitionsOf(c, o)))
  }

  /** One list after the other; the first complaint wins. */
  function Then(a: Result<seq<Execution>, PlanError>, b: Result<seq<Execution>, PlanError>)
    : Result<seq<Execution>, PlanError>
  {
    if a.Err? then a else if b.Err? then b else Ok(a.value + b.value)
  }

  lemma ThenIsAssociative(
    a: Result<seq<Execution>, PlanError>, b: Result<seq<Execution>, PlanError>, c: Result<seq<Execution>, PlanError>)
    ensures Then(Then(a, b), c) == Then(a, Then(b, c))
  {
    if a.Ok? && b.Ok? && c.Ok? { assert (a.value + b.value) + c.value == a.value + (b.value + c.value); }
  }

  /** All executions in case order, or the first case's complaint. */
  function Executions(reg: Registry, cases: seq<Case>, o: RunOptions): Result<seq<Execution>, PlanError> {
    if cases == [] then Ok([]) else Then(OneCase(reg, cases[0], o), Executions(reg, cases[1..], o))
  }

  function BuildPlan(reg: Registry, cases: seq<Case>, o: RunOptions): Result<Plan, PlanError> {
    if OptionsError(o).Some? then Err(OptionsError(o).value)
    else
      match Executions(reg, cases, o)
      case Err(e) => Err(e)
      case Ok(all) => Ok(Plan(RUN_SCHEMA_VERSION, reg.revision, o.runId, o.commit, o.variant, o.selection, o.dryRun,
          all))
  }

  lemma ThenNothing(a: Result<seq<Execution>, PlanError>)
    ensures Then(a, Ok([])) == a && Then(Ok([]), a) == a
  {
    if a.Ok? { assert a.value + [] == a.value && [] + a.value == a.value; }
  }

  lemma {:induction false} ExecutionsAppend(reg: Registry, cases: seq<Case>, c: Case, o: RunOptions)
    ensures Executions(reg, cases + [c], o) == Then(Executions(reg, cases, o), OneCase(reg, c, o))
  {
    var more, last := cases + [c], OneCase(reg, c, o);
    ThenNothing(last);
    if cases == [] {
      assert more == [c] && more[1..] == [];
    } else {
      ExecutionsAppend(reg, cases[1..], c, o);
      assert more[1..] == cases[1..] + [c] && more[0] == cases[0];
      ThenIsAssociative(OneCase(reg, cases[0], o), Executions(reg, cases[1..], o), last);
    }
  }

  lemma {:induction false} ExecutionsFailEarly(reg: Registry, cases: seq<Case>, k: nat, o: RunOptions)
    requires k <= |cases| && Executions(reg, cases[..k], o).Err?
    ensures Executions(reg, cases, o) == Executions(reg, cases[..k], o)
    decreases |cases| - k
  {
    if k == |cases| {
      assert cases[..k] == cases;
    } else {
      ExecutionsAppend(reg, cases[..k], cases[k], o);
      assert cases[..k] + [cases[k]] == cases[..k + 1];
      ExecutionsFailEarly(reg, cases, k + 1, o);
    }
  }

  /** The nested loops of the planner. */
  method BuildRunPlan(reg: Registry, cases: seq<Case>, o: RunOptions) returns (r: Result<Plan, PlanError>)
    ensures r == BuildPlan(reg, cases, o)
  {
    var bad := OptionsError(o);
    if bad.Some? {
      return Err(bad.value);
    }
    var executions: seq<Execution> := [];
    for k := 0 to |cases|
      invariant Executions(reg, cases[..k], o) == Ok(executions)
    {
      var c := cases[k];
      ExecutionsAppend(reg, cases[..k], c, o);
      assert cases[..k] + [c] == cases[..k + 1];
      var complaint := CaseError(c, o);
      if complaint.Some? {
        ExecutionsFailEarly(reg, cases, k + 1, o);
        return Err(complaint.value);
      }
      var count := RepetitionsOf(c, o);
      ghost var before := executions;
      var repetition := 1;
      while repetition <= count
        invariant 1 <= repetition && (repetition <= count + 1 || (repetition == 1 && count < 1))
        invariant executions == before + CaseExecutions(reg, c, o, repetition - 1)
        decreases count - repetition
      {
        executions := executions + [ExecutionOf(reg, c, o, repetition)];
        repetition := repetition + 1;
      }
      assert CaseExecutions(reg, c, o, repetition - 1) == CaseExecutions(reg, c, o, count);
    }
    assert cases[..|cases|] == cases;
    return Ok(Plan(RUN_SCHEMA_VERSION, reg.revision, o.runId, o.commit, o.variant, o.selection, o.dryRun, executions));
  }

  // ---------------------------------------------------------------------------------------------
  // Checking a plan
  // ---------------------------------------------------------------------------------------------

  /** The checker's table: a later case with the same id replaces an earlier one. */
  function Known(cases: seq<Case>, id: string): (r: Option<Case>)
    ensures r.Some? ==> r.value in cases && r.value.id == id
    ensures r.None? ==> forall i :: 0 <= i < |cases| ==> cases[i].id != id
  {
    if cases == [] then None
    else if cases[|cases| - 1].id == id then Some(cases[|cases| - 1])
    else Known(cases[..|cases| - 1], id)
  }

  predicate HeaderOk(plan: Plan, reg: Registry) {
    && plan.schemaVersion == RUN_SCHEMA_VERSION && plan.revision == reg.revision && IsRunIdentifier(plan.runId)
    && IsCommit(plan.commit) && !plan.variant.OtherVariant? && TextOk(plan.selection) && plan.executions != []
  }

  /** One execution agrees with its case and with the kind of run. */
  predicate Agrees(plan: Plan, reg: Registry, c: Case, e: Execution) {
    && e.sender == c.sender && e.receiver == c.receiver && e.scenario == ScenarioOf(reg, c)
    && e.support == c.support && e.timeout == c.timeout
    && !e.disposition.OtherDisposition?
    && e.disposition == DispositionOf(c.support, plan.dryRun)
    && !(plan.dryRun && e.disposition.Execute?)
    && (e.disposition.Execute? ==> plan.variant == c.variant)
  }

  predicate ExecutionOk(plan: Plan, reg: Registry, e: Execution) {
    var c := Known(reg.cases, e.caseId);
    c.Some? && 1 <= e.repetition <= 10 && Agrees(plan, reg, c.value, e)
  }

  predicate SameIdentity(a: Execution, b: Execution) {
    a.caseId == b.caseId && a.repetition == b.repetition
  }

  ghost predicate DistinctIdentities(all: seq<Execution>) {
    forall i, j :: 0 <= i < j < |all| ==> !SameIdentity(all[i], all[j])
  }

  /** The repetitions of one case, in plan order. */
  function RepsOf(all: seq<Execution>, id: string): seq<int> {
    if all == [] then []
    else RepsOf(all[..|all| - 1], id) + if all[|all| - 1].caseId == id then [all[|all| - 1].repetition] else []
  }

  function Max(s: seq<int>): (m: int)
    requires s != []
    ensures forall i :: 0 <= i < |s| ==> s[i] <= m
    ensures exists i :: 0 <= i < |s| && s[i] == m
  {
    if |s| == 1 then s[0]
    else
      var rest, last := Max(s[..|s| - 1]), s[|s| - 1];
      assert forall i :: 0 <= i < |s| - 1 ==> s[..|s| - 1][i] == s[i];
      if last > rest then last else rest
  }

  /** The numbers 1 to n. */
  function UpTo(n: int): (r: seq<int>)
    ensures |r| == if n < 0 then 0 else n
    ensures forall i :: 0 <= i < |r| ==> r[i] == i + 1
    decreases if n < 0 then 0 else n
  {
    if n <= 0 then [] else UpTo(n - 1) + [n]
  }

  /** Sorted, they are 1, 2, up to the largest, which is at least what the case requires. */
  predicate RepsOk(reps: seq<int>, required: int) {
    reps != [] && multiset(reps) == multiset(UpTo(Max(reps))) && Max(reps) >= required
  }

  predicate CaseRepsOk(reg: Registry, all: seq<Execution>, id: string) {
    var c := Known(reg.cases, id);
    c.Some? && RepsOk(RepsOf(all, id), c.value.repetitions)
  }

  /** What the checker accepts. */
  ghost predicate PlanOk(plan: Plan, reg: Registry) {
    && HeaderOk(plan, reg)
    && (forall i :: 0 <= i < |plan.executions| ==> ExecutionOk(plan, reg, plan.executions[i]))
    && DistinctIdentities(plan.executions)
    && (forall i :: 0 <= i < |plan.executions| ==> CaseRepsOk(reg, plan.executions, plan.executions[i].caseId))
  }

  datatype CheckError =
    | BadHeader
    | NoExecutions
    | UnknownCase(index: nat)
    | BadRepetition(index: nat)
    | DuplicateExecution(index: nat)
    | Disagrees(index: nat)
    | NotConsecutive(id: string)
    | TooFew(id: string)

  /** The identity set of the loop: exactly the executions so far, which are all different. */
  ghost predicate Identified(all: seq<Execution>, identities: set<(string, int)>) {
    && (forall i :: 0 <= i < |all| ==> (all[i].caseId, all[i].repetition) in identities)
    && (forall x <- identities :: exists i :: 0 <= i < |all| && (all[i].caseId, all[i].repetition) == x)
    && DistinctIdentities(all)
  }

  /** The table of the loop: for each case so far its repetitions so far. */
  ghost predicate Tabled(all: seq<Execution>, byCase: map<string, seq<int>>) {
    && (forall i :: 0 <= i < |all| ==> all[i].caseId in byCase)
    && (forall id <- byCase :: byCase[id] == RepsOf(all, id) && IsPlanned(all, id))
  }

  predicate IsPlanned(all: seq<Execution>, id: string) {
    exists i :: 0 <= i < |all| && all[i].caseId == id
  }

  lemma RepsOfAbsent(all: seq<Execution>, id: string)
    requires forall i :: 0 <= i < |all| ==> all[i].caseId != id
    ensures RepsOf(all, id) == []
  {
  }

  lemma IdentifiedStep(all: seq<Execution>, identities: set<(string, int)>, e: Execution)
    requires Identified(all, identities)
    ensures (e.caseId, e.repetition) !in identities ==> Identified(all + [e], identities + {(e.caseId, e.repetition)})
    ensures (e.caseId, e.repetition) in identities ==> exists i :: 0 <= i < |all| && SameIdentity(all[i], e)
  {
    var more, x := all + [e], (e.caseId, e.repetition);
    if x in identities {
      var i :| 0 <= i < |all| && (all[i].caseId, all[i].repetition) == x;
      assert SameIdentity(all[i], e);
    } else {
      assert more[|all|] == e;
      forall y <- identities
        ensures exists i :: 0 <= i < |more| && (more[i].caseId, more[i].repetition) == y
      {
        var i :| 0 <= i < |all| && (all[i].caseId, all[i].repetition) == y;
        assert more[i] == all[i];
      }
    }
  }

  function Recorded(byCase: map<string, seq<int>>, e: Execution): map<string, seq<int>> {
    byCase[e.caseId := (if e.caseId in byCase then byCase[e.caseId] else []) + [e.repetition]]
  }

  lemma TabledStep(all: seq<Execution>, byCase: map<string, seq<int>>, e: Execution)
    requires Tabled(all, byCase)
    ensures Tabled(all + [e], Recorded(byCase, e))
  {
    var more, table := all + [e], Recorded(byCase, e);
    assert more[..|all|] == all && more[|all|] == e;
    if e.caseId !in byCase { RepsOfAbsent(all, e.caseId); }
    forall id <- table
      ensures table[id] == RepsOf(more, id) && IsPlanned(more, id)
    {
      if id != e.caseId {
        var i :| 0 <= i < |all| && all[i].caseId == id;
        assert more[i].caseId == id;
      }
    }
  }

  ghost predicate AllOk(plan: Plan, reg: Registry, all: seq<Execution>) {
    forall i :: 0 <= i < |all| ==> ExecutionOk(plan, reg, all[i])
  }

  lemma AllOkStep(plan: Plan, reg: Registry, k: nat)
    requires k < |plan.executions|
    ensures AllOk(plan, reg, plan.executions[..k + 1])
       <==> AllOk(plan, reg, plan.executions[..k]) && ExecutionOk(plan, reg, plan.executions[k])
  {
    var before, after := plan.executions[..k], plan.executions[..k + 1];
    assert after[k] == plan.executions[k] && forall i :: 0 <= i < k ==> after[i] == before[i];
  }

  /** Every execution by itself is in order and no two are the same. */
  ghost predicate ListOk(plan: Plan, reg: Registry) {
    AllOk(plan, reg, plan.executions) && DistinctIdentities(plan.executions)
  }

  lemma FoundWrong(plan: Plan, reg: Registry, k: nat)
    requires k <= |plan.executions|
    requires !AllOk(plan, reg, plan.executions[..k]) || !DistinctIdentities(plan.executions[..k])
    ensures !ListOk(plan, reg)
  {
    var before := plan.executions[..k];
    assert forall i :: 0 <= i < k ==> before[i] == plan.executions[i];
  }

  /** The checks on one execution; one whose case or repetition makes no sense is not counted. */
  method CheckExecution(plan: Plan, reg: Registry, k: nat, identities: set<(string, int)>)
    returns (errors: seq<CheckError>, counted: bool)
    requires k < |plan.executions|
    ensures var e := plan.executions[k];
            && (errors == [] <==> ExecutionOk(plan, reg, e) && (e.caseId, e.repetition) !in identities)
            && (counted <==> Known(reg.cases, e.caseId).Some? && 1 <= e.repetition <= 10)
  {
    var e := plan.executions[k];
    errors := [];
    var c := Known(reg.cases, e.caseId);
    if c.None? {
      return [UnknownCase(k)], false;
    }
    if !(1 <= e.repetition <= 10) {
      return [BadRepetition(k)], false;
    }
    if (e.caseId, e.repetition) in identities {
      errors := errors + [DuplicateExecution(k)];
    }
    if !Agrees(plan, reg, c.value, e) {
      errors := errors + [Disagrees(k)];
    }
    return errors, true;
  }

  /** All in order so far. */
  ghost predicate CheckedSo(
    plan: Plan, reg: Registry, k: nat, identities: set<(string, int)>, byCase: map<string, seq<int>>)
    requires k <= |plan.executions|
  {
    var all := plan.executions[..k];
    AllOk(plan, reg, all) && Identified(all, identities) && Tabled(all, byCase)
  }

  lemma CheckedStep(plan: Plan, reg: Registry, k: nat, identities: set<(string, int)>, byCase: map<string, seq<int>>)
    requires k < |plan.executions| && CheckedSo(plan, reg, k, identities, byCase)
    ensures var e := plan.executions[k];
            if ExecutionOk(plan, reg, e) && (e.caseId, e.repetition) !in identities
            then CheckedSo(plan, reg, k + 1, identities + {(e.caseId, e.repetition)}, Recorded(byCase, e))
            else !ListOk(plan, reg)
  {
    var e, all := plan.executions[k], plan.executions[..k];
    assert plan.executions[..k + 1] == all + [e];
    AllOkStep(plan, reg, k);
    IdentifiedStep(all, identities, e);
    TabledStep(all, byCase, e);
    if !ExecutionOk(plan, reg, e) {
      FoundWrong(plan, reg, k + 1);
    } else if (e.caseId, e.repetition) in identities {
      RepeatedIdentity(all, e);
      FoundWrong(plan, reg, k + 1);
    }
  }

  lemma CheckedEnds(plan: Plan, reg: Registry, identities: set<(string, int)>, byCase: map<string, seq<int>>)
    requires CheckedSo(plan, reg, |plan.executions|, identities, byCase)
    ensures ListOk(plan, reg) && Tabled(plan.executions, byCase)
  {
    assert plan.executions[..|plan.executions|] == plan.executions;
  }

  /** The state of the loop: what was found says whether everything so far is in order. */
  ghost predicate LoopOk(
    plan: Plan, reg: Registry, k: nat, errors: seq<CheckError>, identities: set<(string, int)>,
    byCase: map<string, seq<int>>)
  {
    && k <= |plan.executions|
    && (if errors == [] then CheckedSo(plan, reg, k, identities, byCase) else !ListOk(plan, reg))
    && KnownTable(reg, byCase)
  }

  ghost predicate KnownTable(reg: Registry, byCase: map<string, seq<int>>) {
    forall id <- byCase :: Known(reg.cases, id).Some? && byCase[id] != []
  }

  method CheckNext(
    plan: Plan, reg: Registry, k: nat, errors: seq<CheckError>, identities: set<(string, int)>,
    byCase: map<string, seq<int>>)
    returns (found: seq<CheckError>, seen: set<(string, int)>, table: map<string, seq<int>>)
    requires k < |plan.executions| && LoopOk(plan, reg, k, errors, identities, byCase)
    ensures LoopOk(plan, reg, k + 1, errors + found, seen, table)
  {
    var e := plan.executions[k];
    if errors == [] { CheckedStep(plan, reg, k, identities, byCase); }
    var counted;
    found, counted := CheckExecution(plan, reg, k, identities);
    seen, table := identities, byCase;
    if counted {
      seen, table := seen + {(e.caseId, e.repetition)}, Recorded(table, e);
    }
    assert errors == [] ==> errors + found == found;
  }

  /** The loop over the executions. */
  method CheckExecutions(plan: Plan, reg: Registry) returns (errors: seq<CheckError>, byCase: map<string, seq<int>>)
    ensures errors == [] <==> ListOk(plan, reg)
    ensures errors == [] ==> Tabled(plan.executions, byCase)
    ensures KnownTable(reg, byCase)
  {
    errors, byCase := [], map[];
    var identities: set<(string, int)> := {};
    for k := 0 to |plan.executions|
      invariant LoopOk(plan, reg, k, errors, identities, byCase)
    {
      var found;
      found, identities, byCase := CheckNext(plan, reg, k, errors, identities, byCase);
      errors := errors + found;
    }
    if errors == [] { CheckedEnds(plan, reg, identities, byCase); }
  }

  lemma RepeatedIdentity(all: seq<Execution>, e: Execution)
    requires exists i :: 0 <= i < |all| && SameIdentity(all[i], e)
    ensures !DistinctIdentities(all + [e])
  {
    var i :| 0 <= i < |all| && SameIdentity(all[i], e);
    var more := all + [e];
    assert more[i] == all[i] && more[|all|] == e;
  }

  /** The loop over the table. */
  method CheckRepetitions(reg: Registry, byCase: map<string, seq<int>>) returns (errors: seq<CheckError>)
    requires KnownTable(reg, byCase)
    ensures errors == [] <==> forall id <- byCase :: RepsOk(byCase[id], Known(reg.cases, id).value.repetitions)
  {
    errors := [];
    var rest := byCase.Keys;
    while rest != {}
      invariant rest <= byCase.Keys
      invariant errors == [] <==> forall id <- byCase.Keys - rest ::
           RepsOk(byCase[id], Known(reg.cases, id).value.repetitions)
      decreases |rest|
    {
      var id :| id in rest;
      var reps, required := byCase[id], Known(reg.cases, id).value.repetitions;
      var maximum := Max(reps);
      if multiset(reps) != multiset(UpTo(maximum)) {
        errors := errors + [NotConsecutive(id)];
      }
      if maximum < required {
        errors := errors + [TooFew(id)];
      }
      rest := rest - {id};
    }
  }

  /** The checker: no complaint exactly when the plan is in order. */
  method ValidateRunPlan(plan: Plan, reg: Registry) returns (errors: seq<CheckError>)
    ensures errors == [] <==> PlanOk(plan, reg)
  {
    errors := [];
    if plan.schemaVersion != RUN_SCHEMA_VERSION || plan.revision != reg.revision || !IsRunIdentifier(plan.runId)
       || !IsCommit(plan.commit) || plan.variant.OtherVariant? || !TextOk(plan.selection)
    {
      errors := [BadHeader];
    }
    if plan.executions == [] {
      errors := errors + [NoExecutions];
      return;
    }
    var listed, byCase := CheckExecutions(plan, reg);
    var counted := CheckRepetitions(reg, byCase);
    if listed == [] { TableDecides(plan, reg, byCase); }
    errors := errors + listed + counted;
  }

  lemma TableDecides(plan: Plan, reg: Registry, byCase: map<string, seq<int>>)
    requires AllOk(plan, reg, plan.executions) && Tabled(plan.executions, byCase)
    requires forall id <- byCase :: Known(reg.cases, id).Some?
    ensures (forall id <- byCase :: RepsOk(byCase[id], Known(reg.cases, id).value.repetitions))
       <==> (forall i :: 0 <= i < |plan.executions| ==> CaseRepsOk(reg, plan.executions, plan.executions[i].caseId))
  {
    var all := plan.executions;
    if forall i :: 0 <= i < |all| ==> CaseRepsOk(reg, all, all[i].caseId) {
      forall id <- byCase
        ensures RepsOk(byCase[id], Known(reg.cases, id).value.repetitions)
      {
        var i :| 0 <= i < |all| && all[i].caseId == id;
        assert CaseRepsOk(reg, all, all[i].caseId);
      }
    }
  }

  // ---------------------------------------------------------------------------------------------
  // The planner meets the checker
  // ---------------------------------------------------------------------------------------------

  lemma {:induction false} RepsOfAppend(a: seq<Execution>, b: seq<Execution>, id: string)
    ensures RepsOf(a + b, id) == RepsOf(a, id) + RepsOf(b, id)
  {
    if b == [] {
      assert a + b == a;
    } else {
      var most := b[..|b| - 1];
      RepsOfAppend(a, most, id);
      assert (a + b)[..|a + b| - 1] == a + most;
    }
  }

  lemma RepsOfOneMore(most: seq<Execution>, e: Execution, id: string)
    ensures RepsOf(most + [e], id) == RepsOf(most, id) + if e.caseId == id then [e.repetition] else []
  {
    assert (most + [e])[..|most|] == most;
  }

  /** One case contributes 1 to n to its own repetitions and nothing to any other's. */
  lemma {:induction false} RepsOfCase(reg: Registry, c: Case, o: RunOptions, n: int, id: string)
    ensures RepsOf(CaseExecutions(reg, c, o, n), id) == if id == c.id then UpTo(n) else []
    decreases if n < 0 then 0 else n
  {
    if n > 0 {
      RepsOfCase(reg, c, o, n - 1, id);
      RepsOfOneMore(CaseExecutions(reg, c, o, n - 1), ExecutionOf(reg, c, o, n), id);
    }
  }

  /** Every planned execution comes from one of the cases, which had no complaint. */
  ghost predicate FromCases(reg: Registry, cases: seq<Case>, o: RunOptions, e: Execution) {
    exists k :: 0 <= k < |cases| && CaseError(cases[k], o).None? && 1 <= e.repetition <= RepetitionsOf(cases[k], o)
                && e == ExecutionOf(reg, cases[k], o, e.repetition)
  }

  ghost predicate AllFromCases(reg: Registry, cases: seq<Case>, o: RunOptions, all: seq<Execution>) {
    forall i :: 0 <= i < |all| ==> FromCases(reg, cases, o, all[i])
  }

  lemma {:induction false} ExecutionsComeFromCases(reg: Registry, cases: seq<Case>, o: RunOptions)
    requires Executions(reg, cases, o).Ok?
    ensures AllFromCases(reg, cases, o, Executions(reg, cases, o).value)
  {
    if cases != [] {
      var rest := Executions(reg, cases[1..], o).value;
      var first := CaseExecutions(reg, cases[0], o, RepetitionsOf(cases[0], o));
      ExecutionsComeFromCases(reg, cases[1..], o);
      forall i | 0 <= i < |first + rest|
        ensures FromCases(reg, cases, o, (first + rest)[i])
      {
        if i < |first| {
          assert (first + rest)[i] == ExecutionOf(reg, cases[0], o, i + 1);
        } else {
          var e := rest[i - |first|];
          assert FromCases(reg, cases[1..], o, e);
          var k :| 0 <= k < |cases[1..]| && CaseError(cases[1..][k], o).None?
                   && 1 <= e.repetition <= RepetitionsOf(cases[1..][k], o)
                   && e == ExecutionOf(reg, cases[1..][k], o, e.repetition);
          assert cases[k + 1] == cases[1..][k];
        }
      }
    }
  }

  /** The whole list's repetitions are the first case's and then the others'. */
  lemma RepsOfFirst(reg: Registry, cases: seq<Case>, o: RunOptions, id: string)
    requires cases != [] && Executions(reg, cases, o).Ok?
    ensures Executions(reg, cases[1..], o).Ok?
    ensures RepsOf(Executions(reg, cases, o).value, id)
         == (if id == cases[0].id then UpTo(RepetitionsOf(cases[0], o)) else [])
            + RepsOf(Executions(reg, cases[1..], o).value, id)
  {
    var n := RepetitionsOf(cases[0], o);
    RepsOfCase(reg, cases[0], o, n, id);
    RepsOfAppend(CaseExecutions(reg, cases[0], o, n), Executions(reg, cases[1..], o).value, id);
  }

  lemma {:induction false} RepsOfUnplanned(reg: Registry, cases: seq<Case>, o: RunOptions, id: string)
    requires Executions(reg, cases, o).Ok? && forall k :: 0 <= k < |cases| ==> cases[k].id != id
    ensures RepsOf(Executions(reg, cases, o).value, id) == []
  {
    if cases != [] {
      RepsOfFirst(reg, cases, o, id);
      RepsOfUnplanned(reg, cases[1..], o, id);
    }
  }

  /** With distinct cases, each case's repetitions in the whole list are 1 to its count. */
  lemma {:induction false} RepsOfPlanned(reg: Registry, cases: seq<Case>, o: RunOptions, k: nat)
    requires DistinctIds(cases) && k < |cases| && Executions(reg, cases, o).Ok?
    ensures RepsOf(Executions(reg, cases, o).value, cases[k].id) == UpTo(RepetitionsOf(cases[k], o))
  {
    var id := cases[k].id;
    RepsOfFirst(reg, cases, o, id);
    if k == 0 {
      RepsOfUnplanned(reg, cases[1..], o, id);
      assert UpTo(RepetitionsOf(cases[0], o)) + [] == UpTo(RepetitionsOf(cases[0], o));
    } else {
      assert cases[1..][k - 1] == cases[k];
      RepsOfPlanned(reg, cases[1..], o, k - 1);
    }
  }

  lemma {:induction false} ExecutionsDistinct(reg: Registry, cases: seq<Case>, o: RunOptions)
    requires DistinctIds(cases) && Executions(reg, cases, o).Ok?
    ensures DistinctIdentities(Executions(reg, cases, o).value)
  {
    if cases != [] {
      var rest := Executions(reg, cases[1..], o).value;
      var first := CaseExecutions(reg, cases[0], o, RepetitionsOf(cases[0], o));
      ExecutionsDistinct(reg, cases[1..], o);
      ExecutionsComeFromCases(reg, cases[1..], o);
      forall j | 0 <= j < |rest|
        ensures rest[j].caseId != cases[0].id
      {
        assert FromCases(reg, cases[1..], o, rest[j]);
        var k :| 0 <= k < |cases[1..]| && rest[j] == ExecutionOf(reg, cases[1..][k], o, rest[j].repetition);
        assert cases[k + 1] == cases[1..][k];
      }
      JoinDistinct(first, rest, cases[0].id);
    }
  }

  lemma JoinDistinct(first: seq<Execution>, rest: seq<Execution>, id: string)
    requires forall i :: 0 <= i < |first| ==> first[i].caseId == id && first[i].repetition == i + 1
    requires DistinctIdentities(rest) && forall j :: 0 <= j < |rest| ==> rest[j].caseId != id
    ensures DistinctIdentities(first + rest)
  {
    var all := first + rest;
    forall i, j | 0 <= i < j < |all|
      ensures !SameIdentity(all[i], all[j])
    {
      if i >= |first| { assert all[i] == rest[i - |first|] && all[j] == rest[j - |first|]; }
    }
  }

  lemma {:induction false} KnownIsTheCase(cases: seq<Case>, k: nat)
    requires k < |cases| && DistinctIds(cases)
    ensures Known(cases, cases[k].id) == Some(cases[k])
  {
    if k < |cases| - 1 {
      KnownIsTheCase(cases[..|cases| - 1], k);
      assert cases[..|cases| - 1][k] == cases[k];
    }
  }

  /** A planned execution passes the checks on single executions. */
  lemma PlannedIsOk(reg: Registry, cases: seq<Case>, o: RunOptions, plan: Plan, e: Execution)
    requires RegistryOk(reg) && OptionsError(o).None? && FromCases(reg, cases, o, e)
    requires forall c <- cases :: c in reg.cases
    requires plan.dryRun == o.dryRun && plan.variant == o.variant
    ensures ExecutionOk(plan, reg, e)
  {
    var k :| 0 <= k < |cases| && CaseError(cases[k], o).None? && 1 <= e.repetition <= RepetitionsOf(cases[k], o)
             && e == ExecutionOf(reg, cases[k], o, e.repetition);
    var c := cases[k];
    assert c in cases;
    var n :| 0 <= n < |reg.cases| && reg.cases[n] == c;
    assert CaseOk(reg.profiles, reg.cases[n]);
    KnownIsTheCase(reg.cases, n);
  }

  /** Its case's repetitions pass the checks on repetitions. */
  lemma PlannedRepsOk(reg: Registry, cases: seq<Case>, o: RunOptions, all: seq<Execution>, e: Execution)
    requires RegistryOk(reg) && DistinctIds(cases) && OptionsError(o).None? && FromCases(reg, cases, o, e)
    requires (forall c <- cases :: c in reg.cases) && Executions(reg, cases, o) == Ok(all)
    ensures CaseRepsOk(reg, all, e.caseId)
  {
    var k :| 0 <= k < |cases| && CaseError(cases[k], o).None? && 1 <= e.repetition <= RepetitionsOf(cases[k], o)
             && e == ExecutionOf(reg, cases[k], o, e.repetition);
    var c := cases[k];
    assert c in cases;
    var n :| 0 <= n < |reg.cases| && reg.cases[n] == c;
    assert CaseOk(reg.profiles, reg.cases[n]);
    KnownIsTheCase(reg.cases, n);
    RepsOfPlanned(reg, cases, o, k);
    var reps := RepetitionsOf(c, o);
    assert RepsOf(all, c.id) == UpTo(reps);
    MaxOfUpTo(reps);
  }

  lemma MaxOfUpTo(n: int)
    requires n >= 1
    ensures Max(UpTo(n)) == n
  {
    assert UpTo(n)[n - 1] == n;
  }

  lemma {:induction false} ExecutionsNonempty(reg: Registry, cases: seq<Case>, o: RunOptions)
    requires cases != [] && Executions(reg, cases, o).Ok? && RepetitionsOf(cases[0], o) >= 1
    ensures Executions(reg, cases, o).value != []
  {
  }

  /** The list built from distinct registry cases passes every check on executions. */
  lemma PlannedListOk(reg: Registry, cases: seq<Case>, o: RunOptions, plan: Plan)
    requires RegistryOk(reg) && DistinctIds(cases) && OptionsError(o).None? && (forall c <- cases :: c in reg.cases)
    requires Executions(reg, cases, o) == Ok(plan.executions) && plan.dryRun == o.dryRun && plan.variant == o.variant
    ensures forall i :: 0 <= i < |plan.executions| ==> ExecutionOk(plan, reg, plan.executions[i])
    ensures DistinctIdentities(plan.executions)
    ensures forall i :: 0 <= i < |plan.executions| ==> CaseRepsOk(reg, plan.executions, plan.executions[i].caseId)
  {
    ExecutionsComeFromCases(reg, cases, o);
    ExecutionsDistinct(reg, cases, o);
    forall i | 0 <= i < |plan.executions|
      ensures ExecutionOk(plan, reg, plan.executions[i])
    {
      assert FromCases(reg, cases, o, plan.executions[i]);
      PlannedIsOk(reg, cases, o, plan, plan.executions[i]);
    }
    forall i | 0 <= i < |plan.executions|
      ensures CaseRepsOk(reg, plan.executions, plan.executions[i].caseId)
    {
      assert FromCases(reg, cases, o, plan.executions[i]);
      PlannedRepsOk(reg, cases, o, plan.executions, plan.executions[i]);
    }
  }

  /** Support levels whose cases are meant to be run. */
  predicate Runnable(support: Support) {
    support.Required? || support.Supported? || support.Experimental?
  }

  /** What is to happen to an execution of the case, level by level. */
  predicate Disposes(c: Case, dryRun: bool, variant: Variant, e: Execution) {
    && (e.disposition == Execute <==> Runnable(c.support) && !dryRun)
    && (e.disposition == NotRun <==> c.support.Planned? || (Runnable(c.support) && dryRun))
    && (e.disposition == DeferUnsupported <==> c.support.Unsupported?)
    && (e.disposition == DeferHardware <==> c.support.HardwareBlocked?)
    && (e.disposition == Execute ==> c.variant == variant)
  }

  /** The execution repeats what the registry says about the case. */
  predicate Copies(reg: Registry, c: Case, e: Execution) {
    && e.caseId == c.id && e.sender == c.sender && e.receiver == c.receiver && e.support == c.support
    && e.timeout == c.timeout && c.profile in reg.profiles && e.scenario == reg.profiles[c.profile]
  }

  lemma PlanIsNotEmpty(reg: Registry, cases: seq<Case>, o: RunOptions)
    requires RegistryOk(reg) && cases != [] && cases[0] in reg.cases && OptionsError(o).None?
    requires Executions(reg, cases, o).Ok?
    ensures Executions(reg, cases, o).value != []
  {
    var n :| 0 <= n < |reg.cases| && reg.cases[n] == cases[0];
    assert CaseOk(reg.profiles, reg.cases[n]);
    ExecutionsNonempty(reg, cases, o);
  }

  /**
   * Planner and checker agree: for every registry without violations, every request that resolves and every set of
   * options for which the planner succeeds, the checker has no complaint about the plan.
   */
  lemma PlanPassesCheck(reg: Registry, r: Request, o: RunOptions)
    requires RegistryOk(reg) && Resolve(reg, r).Ok?
    requires o.selection == Resolve(reg, r).value.1 && BuildPlan(reg, Resolve(reg, r).value.0, o).Ok?
    ensures PlanOk(BuildPlan(reg, Resolve(reg, r).value.0, o).value, reg)
  {
    var cases := Select(reg, r, reg.cases);
    SelectionNameOk(reg, r);
    SelectKeepsDistinct(reg, r, reg.cases);
    PlanIsNotEmpty(reg, cases, o);
    PlannedListOk(reg, cases, o, BuildPlan(reg, cases, o).value);
  }

  lemma PlannedExecutionIs(reg: Registry, cases: seq<Case>, o: RunOptions, e: Execution)
    requires RegistryOk(reg) && (forall c <- cases :: c in reg.cases) && FromCases(reg, cases, o, e)
    ensures exists c :: c in cases && Copies(reg, c, e) && Disposes(c, o.dryRun, o.variant, e)
  {
    var k :| 0 <= k < |cases| && CaseError(cases[k], o).None? && 1 <= e.repetition <= RepetitionsOf(cases[k], o)
             && e == ExecutionOf(reg, cases[k], o, e.repetition);
    var c := cases[k];
    assert c in cases;
    var n :| 0 <= n < |reg.cases| && reg.cases[n] == c;
    assert CaseOk(reg.profiles, reg.cases[n]);
    assert Copies(reg, c, e) && Disposes(c, o.dryRun, o.variant, e);
  }

  /**
   * What a plan holds: every execution repeats the registry's entry for its case and is run, left or deferred as the
   * case's support level and the kind of run say; and a case is planned for the repetitions 1 to the override, or to
   * what it requires when there is none.
   */
  lemma PlanSays(reg: Registry, cases: seq<Case>, o: RunOptions)
    requires RegistryOk(reg) && DistinctIds(cases) && (forall c <- cases :: c in reg.cases)
    requires BuildPlan(reg, cases, o).Ok?
    ensures var plan := BuildPlan(reg, cases, o).value;
            && plan.dryRun == o.dryRun && plan.variant == o.variant && plan.selection == o.selection
            && plan.runId == o.runId && plan.commit == o.commit && plan.revision == reg.revision
            && (forall e <- plan.executions ::
                  exists c :: c in cases && Copies(reg, c, e) && Disposes(c, o.dryRun, o.variant, e))
            && (forall i, k :: 0 <= i < |cases| ==>
                  (HasExecution(plan.executions, cases[i].id, k)
                   <==> 1 <= k <= if o.override.Some? then o.override.value else cases[i].repetitions))
  {
    var all := BuildPlan(reg, cases, o).value.executions;
    ExecutionsComeFromCases(reg, cases, o);
    forall e <- all
      ensures exists c :: c in cases && Copies(reg, c, e) && Disposes(c, o.dryRun, o.variant, e)
    {
      var i :| 0 <= i < |all| && all[i] == e;
      PlannedExecutionIs(reg, cases, o, all[i]);
    }
    forall i, k | 0 <= i < |cases|
      ensures HasExecution(all, cases[i].id, k)
         <==> 1 <= k <= if o.override.Some? then o.override.value else cases[i].repetitions
    {
      RepsOfPlanned(reg, cases, o, i);
      RepsCover(all, cases[i].id, RepetitionsOf(cases[i], o));
    }
  }

  /** Why a case cannot be planned. */
  predicate Objects(c: Case, o: RunOptions) {
    || (o.override.Some? && o.override.value < c.repetitions)
    || (Runnable(c.support) && !o.dryRun && c.variant != o.variant)
  }

  lemma {:induction false} ExecutionsOkIff(reg: Registry, cases: seq<Case>, o: RunOptions)
    requires forall i :: 0 <= i < |cases| ==> !cases[i].support.OtherSupport?
    ensures Executions(reg, cases, o).Ok? <==> forall i :: 0 <= i < |cases| ==> !Objects(cases[i], o)
  {
    if cases != [] {
      ExecutionsOkIff(reg, cases[1..], o);
      assert forall i :: 0 <= i < |cases| - 1 ==> cases[1..][i] == cases[i + 1];
      assert CaseError(cases[0], o).Some? <==> Objects(cases[0], o);
      if Executions(reg, cases[1..], o).Ok? && !Objects(cases[0], o) {
        forall i | 0 <= i < |cases|
          ensures !Objects(cases[i], o)
        {
          if i > 0 { assert cases[1..][i - 1] == cases[i]; }
        }
      }
    }
  }

  /** The planner succeeds if and only if the options are sound and no chosen case objects. */
  lemma PlanIsBuiltIff(reg: Registry, cases: seq<Case>, o: RunOptions)
    requires RegistryOk(reg) && (forall c <- cases :: c in reg.cases)
    ensures BuildPlan(reg, cases, o).Ok?
       <==> && IsRunIdentifier(o.runId) && IsCommit(o.commit) && (o.variant == Debug || o.variant == ReleaseEquivalent)
            && (o.override.Some? ==> 1 <= o.override.value <= 10)
            && forall i :: 0 <= i < |cases| ==> !Objects(cases[i], o)
  {
    forall i | 0 <= i < |cases|
      ensures !cases[i].support.OtherSupport?
    {
      assert cases[i] in cases;
      var n :| 0 <= n < |reg.cases| && reg.cases[n] == cases[i];
      assert CaseOk(reg.profiles, reg.cases[n]);
    }
    ExecutionsOkIff(reg, cases, o);
  }

  predicate HasExecution(all: seq<Execution>, id: string, repetition: int) {
    exists i :: 0 <= i < |all| && all[i].caseId == id && all[i].repetition == repetition
  }

  lemma {:induction false} RepsOfMember(all: seq<Execution>, id: string, k: int)
    ensures k in RepsOf(all, id) <==> HasExecution(all, id, k)
  {
    if all != [] {
      var most, last := all[..|all| - 1], all[|all| - 1];
      RepsOfMember(most, id, k);
      if HasExecution(most, id, k) {
        var i :| 0 <= i < |most| && most[i].caseId == id && most[i].repetition == k;
        assert all[i] == most[i];
      }
      if HasExecution(all, id, k) {
        var i :| 0 <= i < |all| && all[i].caseId == id && all[i].repetition == k;
        if i < |most| { assert most[i] == all[i]; }
      }
    }
  }

  /**
   * What acceptance means: a case that appears is planned for exactly the repetitions 1 to some n, each once, with n at
   * least what the registry requires and at most ten.
   */
  lemma AcceptedPlanCovers(plan: Plan, reg: Registry, i: nat)
    requires PlanOk(plan, reg) && i < |plan.executions|
    ensures var id := plan.executions[i].caseId; var n := Max(RepsOf(plan.executions, id));
            && Known(reg.cases, id).Some? && Known(reg.cases, id).value.repetitions <= n <= 10
            && (forall k :: HasExecution(plan.executions, id, k) <==> 1 <= k <= n)
            && DistinctIdentities(plan.executions)
  {
    var all, id := plan.executions, plan.executions[i].caseId;
    assert CaseRepsOk(reg, all, id);
    var n := Max(RepsOf(all, id));
    RepsCover(all, id, n);
    assert HasExecution(all, id, n) by { RepsOfMember(all, id, n); }
    var j :| 0 <= j < |all| && all[j].caseId == id && all[j].repetition == n;
    assert ExecutionOk(plan, reg, all[j]);
  }

  lemma RepsCover(all: seq<Execution>, id: string, n: int)
    requires multiset(RepsOf(all, id)) == multiset(UpTo(n))
    ensures forall k :: HasExecution(all, id, k) <==> 1 <= k <= n
  {
    var reps := RepsOf(all, id);
    forall k
      ensures HasExecution(all, id, k) <==> 1 <= k <= n
    {
      RepsOfMember(all, id, k);
      assert k in reps <==> k in multiset(reps);
      assert k in UpTo(n) <==> k in multiset(UpTo(n));
      if 1 <= k <= n { assert UpTo(n)[k - 1] == k; }
    }
  }

  // ---------------------------------------------------------------------------------------------
  // Aggregating records
  // ---------------------------------------------------------------------------------------------

  datatype Status = Pass | ProductFailure | InfrastructureFailure | StatusNotRun | StatusUnsupported | StatusHardware
                  | OtherStatus(text: string)

  datatype Record = Record(
    schemaVersion: int,
    runId: string,
    caseId: string,
    repetition: int,
    status: Status,
    classification: Option<string>,
    failureCode: Option<string>,
    logs: seq<string>,
    endpoints: seq<string>
  )

  function Classification(status: Status): Option<string> {
    match status
    case ProductFailure => Some("product")
    case InfrastructureFailure => Some("infrastructure")
    case _ => None
  }

  predicate IsRelative(path: string) {
    (path == "" || path[0] != '/') && ".." !in Components(path)
  }

  /** The outcomes that fit what was planned. */
  predicate Fits(disposition: Disposition, status: Status) {
    match disposition
    case Execute => status.Pass? || status.ProductFailure? || status.InfrastructureFailure?
    case NotRun => status.StatusNotRun?
    case DeferUnsupported => status.StatusUnsupported?
    case DeferHardware => status.StatusHardware?
    case OtherDisposition(_) => false
  }

  predicate RecordOk(runId: string, e: Execution, r: Record) {
    && r.schemaVersion == RUN_SCHEMA_VERSION && r.runId == runId && r.caseId == e.caseId && r.repetition == e.repetition
    && !r.status.OtherStatus?
    && r.classification == Classification(r.status)
    && (if Classification(r.status).None? then r.failureCode.None?
        else r.failureCode.Some? && IsProfileIdentifier(r.failureCode.value))
    && (forall i :: 0 <= i < |r.logs| ==> IsRelative(r.logs[i]))
    && (forall i :: 0 <= i < |r.endpoints| ==> IsRelative(r.endpoints[i]))
    && Fits(e.disposition, r.status)
  }

  function Substitute(runId: string, e: Execution, code: string): Record {
    Record(RUN_SCHEMA_VERSION, runId, e.caseId, e.repetition, InfrastructureFailure, Some("infrastructure"),
        Some(code), [], [])
  }

  /** What is on disk for each execution, where it can be read at all. */
  type Records = map<(string, int), Record>

  function RecordFor(runId: string, e: Execution, records: Records): Record {
    var read := if (e.caseId, e.repetition) in records then records[(e.caseId, e.repetition)]
                else Substitute(runId, e, "missing_or_malformed_execution_record");
    if RecordOk(runId, e, read) then read else Substitute(runId, e, "invalid_execution_record")
  }

  datatype Gate = NotApplicable | GatePass | GateFail

  /** `results` pairs each execution with the record that counts for it. */
  datatype Aggregate = Aggregate(results: seq<Record>, counts: map<Status, nat>, gate: Gate, failed: bool)

  function CountOf(results: seq<Record>, status: Status): (n: nat)
    ensures n <= |results|
  {
    if results == [] then 0
    else CountOf(results[..|results| - 1], status) + if results[|results| - 1].status == status then 1 else 0
  }

  /** A counter's entry, zero when there is none. */
  function Entry(counts: map<Status, nat>, status: Status): nat {
    if status in counts then counts[status] else 0
  }

  /** Counts the statuses as they come. */
  method CountStatuses(results: seq<Record>) returns (counts: map<Status, nat>)
    ensures forall s: Status :: Entry(counts, s) == CountOf(results, s)
  {
    counts := map[];
    for k := 0 to |results|
      invariant forall s: Status :: Entry(counts, s) == CountOf(results[..k], s)
    {
      assert results[..k + 1][..k] == results[..k];
      var status := results[k].status;
      counts := counts[status := Entry(counts, status) + 1];
    }
    assert results[..|results|] == results;
  }

  /** The gate, from the results of the required executions. */
  method DecideGate(executions: seq<Execution>, results: seq<Record>) returns (gate: Gate)
    requires |executions| == |results|
    ensures gate == GateOf(executions, results)
  {
    var required, allPass := false, true;
    for k := 0 to |executions|
      invariant required <==> exists i :: 0 <= i < k && executions[i].support.Required?
      invariant allPass <==> forall i :: 0 <= i < k && executions[i].support.Required? ==> results[i].status.Pass?
    {
      if executions[k].support.Required? {
        required := true;
        allPass := allPass && results[k].status.Pass?;
      }
    }
    return if !required then NotApplicable else if allPass then GatePass else GateFail;
  }

  method AggregateRun(plan: Plan, records: Records) returns (a: Aggregate)
    ensures a.results == Results(plan, records)
    ensures forall s: Status :: Entry(a.counts, s) == CountOf(a.results, s)
    ensures a.gate == GateOf(plan.executions, a.results)
    ensures a.failed <==> exists i :: 0 <= i < |a.results| &&
                            (a.results[i].status.ProductFailure? || a.results[i].status.InfrastructureFailure?)
  {
    var results: seq<Record> := [];
    for k := 0 to |plan.executions|
      invariant |results| == k
      invariant forall i :: 0 <= i < k ==> results[i] == RecordFor(plan.runId, plan.executions[i], records)
    {
      results := results + [RecordFor(plan.runId, plan.executions[k], records)];
    }
    var counts := CountStatuses(results);
    var gate := DecideGate(plan.executions, results);
    CountedIff(results, ProductFailure);
    CountedIff(results, InfrastructureFailure);
    var failed := Entry(counts, ProductFailure) > 0 || Entry(counts, InfrastructureFailure) > 0;
    a := Aggregate(results, counts, gate, failed);
  }

  lemma {:induction false} CountedIff(results: seq<Record>, status: Status)
    ensures CountOf(results, status) > 0 <==> exists i :: 0 <= i < |results| && results[i].status == status
  {
    if results != [] {
      var most, last := results[..|results| - 1], results[|results| - 1];
      CountedIff(most, status);
      if last.status == status {
        assert results[|results| - 1].status == status;
      } else {
        assert forall i :: 0 <= i < |most| ==> most[i] == results[i];
      }
    }
  }

  predicate AnyRequired(all: seq<Execution>) {
    exists i :: 0 <= i < |all| && all[i].support.Required?
  }

  function GateOf(all: seq<Execution>, results: seq<Record>): Gate
    requires |all| == |results|
  {
    if !AnyRequired(all) then NotApplicable
    else if forall i :: 0 <= i < |all| && all[i].support.Required? ==> results[i].status.Pass? then GatePass
    else GateFail
  }

  function Results(plan: Plan, records: Records): (r: seq<Record>)
    ensures |r| == |plan.executions|
    ensures forall i :: 0 <= i < |r| ==> r[i] == RecordFor(plan.runId, plan.executions[i], records)
  {
    seq(|plan.executions|, i requires 0 <= i < |plan.executions| => RecordFor(plan.runId, plan.executions[i], records))
  }

  /** A pass counts only for an execution that was to be executed and whose record on disk is a valid pass. */
  lemma PassIsEarned(runId: string, e: Execution, records: Records)
    ensures RecordFor(runId, e, records).status.Pass?
       <==> (e.caseId, e.repetition) in records && RecordOk(runId, e, records[(e.caseId, e.repetition)])
            && records[(e.caseId, e.repetition)].status.Pass?
    ensures RecordFor(runId, e, records).status.Pass? ==> e.disposition.Execute?
  {
  }

  /** What a result may be: an execution passes or fails, a deferred one has its own status or is a failure. */
  lemma ResultFitsPlan(runId: string, e: Execution, records: Records)
    ensures var status := RecordFor(runId, e, records).status;
            match e.disposition
            case Execute => status == Pass || status == ProductFailure || status == InfrastructureFailure
            case NotRun => status == StatusNotRun || status == InfrastructureFailure
            case DeferUnsupported => status == StatusUnsupported || status == InfrastructureFailure
            case DeferHardware => status == StatusHardware || status == InfrastructureFailure
            case OtherDisposition(_) => status == InfrastructureFailure
  {
  }

  /** A record that names the execution, fits it and is complete is the one that counts. */
  lemma ProperRecordCounts(runId: string, e: Execution, records: Records, status: Status, code: string)
    requires Fits(e.disposition, status) && !status.OtherStatus? && IsProfileIdentifier(code)
    requires var failed := status == ProductFailure || status == InfrastructureFailure;
             (e.caseId, e.repetition) in records
             && records[(e.caseId, e.repetition)]
                == Record(1, runId, e.caseId, e.repetition, status,
                          if status == ProductFailure then Some("product")
                          else if status == InfrastructureFailure then Some("infrastructure") else None,
                          if failed then Some(code) else None, [], [])
    ensures RecordFor(runId, e, records) == records[(e.caseId, e.repetition)]
  {
  }

  lemma {:induction false} NoneCounted(results: seq<Record>, status: Status)
    requires forall i :: 0 <= i < |results| ==> results[i].status != status
    ensures CountOf(results, status) == 0
  {
    if results != [] { NoneCounted(results[..|results| - 1], status); }
  }

  /**
   * For every accepted plan: a dry run counts no pass and never opens the gate, and no deferred execution is a pass.
   */
  lemma NoPassWithoutExecution(plan: Plan, reg: Registry, records: Records)
    requires PlanOk(plan, reg)
    ensures var results := Results(plan, records);
            && (forall i :: 0 <= i < |results| && !plan.executions[i].disposition.Execute? ==> !results[i].status.Pass?)
            && (plan.dryRun ==> CountOf(results, Pass) == 0 && GateOf(plan.executions, results) != GatePass)
  {
    var results := Results(plan, records);
    forall i | 0 <= i < |results|
      ensures results[i].status.Pass? ==> plan.executions[i].disposition.Execute? && !plan.dryRun
    {
      PassIsEarned(plan.runId, plan.executions[i], records);
      assert ExecutionOk(plan, reg, plan.executions[i]);
    }
    if plan.dryRun { NoneCounted(results, Pass); }
  }

  /** The gate opens exactly when something is required and every required execution has a valid passing record. */
  lemma GatePassIff(plan: Plan, records: Records)
    ensures GateOf(plan.executions, Results(plan, records)) == GatePass
       <==> AnyRequired(plan.executions)
            && forall i :: 0 <= i < |plan.executions| && plan.executions[i].support.Required? ==>
                 var e := plan.executions[i];
                 && (e.caseId, e.repetition) in records && RecordOk(plan.runId, e, records[(e.caseId, e.repetition)])
                 && records[(e.caseId, e.repetition)].status.Pass?
  {
    forall i | 0 <= i < |plan.executions|
      ensures Results(plan, records)[i].status.Pass?
         <==> var e := plan.executions[i];
              && (e.caseId, e.repetition) in records && RecordOk(plan.runId, e, records[(e.caseId, e.repetition)])
              && records[(e.caseId, e.repetition)].status.Pass?
    {
      PassIsEarned(plan.runId, plan.executions[i], records);
    }
  }

  /**
   * A record that is missing is reported as missing only where an execution was due; for a deferred execution the
   * substitute does not fit either and is itself replaced.
   */
  lemma MissingRecordCode(runId: string, e: Execution, records: Records)
    requires (e.caseId, e.repetition) !in records
    ensures RecordFor(runId, e, records)
         == Substitute(runId, e, if e.disposition.Execute? then "missing_or_malformed_execution_record"
                                 else "invalid_execution_record")
    ensures RecordOk(runId, e, RecordFor(runId, e, records)) <==> e.disposition.Execute?
  {
    var code := "missing_or_malformed_execution_record";
    assert |code| == 37 && IsProfileIdentifier(code);
    assert IsProfileIdentifier("invalid_execution_record");
  }

  function SummaryTotal(results: seq<Record>): nat {
    CountOf(results, Pass) + CountOf(results, ProductFailure) + CountOf(results, InfrastructureFailure)
    + CountOf(results, StatusNotRun) + CountOf(results, StatusUnsupported) + CountOf(results, StatusHardware)
  }

  lemma {:induction false} CountsAddUp(results: seq<Record>)
    requires forall i :: 0 <= i < |results| ==> !results[i].status.OtherStatus?
    ensures SummaryTotal(results) == |results|
  {
    if results != [] { CountsAddUp(results[..|results| - 1]); }
  }

  /** Every execution is counted once in the summary. */
  lemma SummaryIsComplete(plan: Plan, records: Records)
    ensures SummaryTotal(Results(plan, records)) == |plan.executions|
  {
    CountsAddUp(Results(plan, records));
  }
}
