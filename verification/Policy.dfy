/** The policy gate: hard rejects, mandatory escalations, automatic approval, and a
    conservative default, in that order. */
module Policy {
  import opened Options
  import opened Sequences
  import opened Paths

  datatype Outcome = Approve | Escalate | Reject

  datatype Scope = Small | Moderate | Broad

  datatype Risk = Low | Medium | High | Critical

  function Severity(o: Outcome): nat { match o case Approve => 0 case Escalate => 1 case Reject => 2 }

  function Extent(s: Scope): nat { match s case Small => 0 case Moderate => 1 case Broad => 2 }

  function Level(r: Risk): nat { match r case Low => 0 case Medium => 1 case High => 2 case Critical => 3 }

  datatype Rule =
    | EvaluationMustPass | ForbiddenPath | SecuritySensitive | CiWorkflow | LowRiskAutoApprove
    | DefaultEscalation | DependencyChange | RestrictedTool | AuthChange | BroadScope | HighRetryCount
    | InvalidProposal | FailureCategory | LowConfidence | EscalationPath | InfraOrMigration
    | VerificationWeakened | VerificationChangeReview

  datatype Config = Config(
    defaultOutcome: Outcome,
    forbiddenPaths: seq<string>,
    escalationPaths: seq<string>,
    securityMarkers: seq<string>,
    ciPrefixes: seq<string>,
    autoApproveMaxFiles: nat,
    autoApproveCategories: set<FileCategory>,
    autoApproveRisks: set<Risk>,
    escalateOnRestrictedTools: bool,
    escalateWhenAttemptsAtMax: bool,
    maxAttemptsForEscalation: nat,
    smallScopeMaxFiles: nat,
    moderateScopeMaxFiles: nat,
    escalationCategories: set<string>,
    minConfidence: real)
  {
    /** The checks of the configuration's constructor. */
    predicate Valid() {
      && !defaultOutcome.Approve? && autoApproveMaxFiles >= 1
      && 1 <= smallScopeMaxFiles <= moderateScopeMaxFiles && maxAttemptsForEscalation >= 1
      && 0.0 <= minConfidence <= 1.0
    }
  }

  datatype Classification = Classification(category: string, confidence: real)

  /** Everything the gate sees besides the changed files; `weakens` and `needsReview`
      say whether the patch analysis found something of that severity. */
  datatype Evidence = Evidence(
    passed: bool, blankPatch: bool, weakens: bool, needsReview: bool,
    classification: Option<Classification>, restrictedTool: bool, attempts: nat)

  datatype Decision = Decision(outcome: Outcome, rules: set<Rule>, risk: Risk)

  // ---------------------------------------------------------- scope and risk

  function DirectoriesOf(files: seq<ChangedFile>): set<string> {
    set f, d | f in files && d in f.directories :: d
  }

  function ClassifyScope(files: seq<ChangedFile>, smallMax: nat, moderateMax: nat): Scope {
    var n, dirs := |files|, |DirectoriesOf(files)|;
    if n == 0 then Broad
    else if n <= smallMax && dirs <= 2 then Small
    else if n <= moderateMax && dirs <= 4 then Moderate
    else Broad
  }

  function Categories(files: seq<ChangedFile>): set<FileCategory> {
    set f | f in files :: f.category
  }

  function ClassifyRisk(files: seq<ChangedFile>, scope: Scope, restrictedTool: bool): Risk {
    var cats := Categories(files);
    if Security in cats || exists f :: f in files && f.secret then Critical
    else if Auth in cats || CI in cats || Infrastructure in cats || Migration in cats then High
    else if Dependency in cats || (restrictedTool && !scope.Small?) then Medium
    else if UnknownCategory in cats || !scope.Small? then Medium
    else if cats <= {Source, Test, Documentation} then Low
    else Medium
  }

  predicate MatchesAny(files: seq<ChangedFile>, patterns: seq<string>) {
    exists f, p :: f in files && p in patterns && Holds(f.path, Normalize(p))
  }

  // ------------------------------------------------------------- the cascade

  function ScopeOf(cfg: Config, files: seq<ChangedFile>): Scope {
    ClassifyScope(files, cfg.smallScopeMaxFiles, cfg.moderateScopeMaxFiles)
  }

  function RiskOf(cfg: Config, files: seq<ChangedFile>, ev: Evidence): Risk {
    ClassifyRisk(files, ScopeOf(cfg, files), ev.restrictedTool)
  }

  function RejectRules(cfg: Config, files: seq<ChangedFile>, ev: Evidence): set<Rule> {
    if !ev.passed then {EvaluationMustPass}
    else if files == [] || ev.blankPatch then {InvalidProposal}
    else if MatchesAny(files, cfg.forbiddenPaths) then {ForbiddenPath}
    else if ev.weakens then {VerificationWeakened}
    else {}
  }

  function When(c: bool, r: Rule): set<Rule> { if c then {r} else {} }

  /** Escalations that do not depend on the files. */
  function EvidenceRules(cfg: Config, ev: Evidence): set<Rule> {
    When(ev.needsReview, VerificationChangeReview)
    + match ev.classification
      case None => {LowConfidence}
      case Some(c) =>
        When(c.category in cfg.escalationCategories, FailureCategory)
        + When(c.confidence < cfg.minConfidence, LowConfidence)
  }

  function SecurityRules(cfg: Config, files: seq<ChangedFile>): set<Rule> {
    var cats := Categories(files);
    When(Auth in cats, AuthChange)
    + When(Security in cats || (Auth !in cats && MatchesAny(files, cfg.securityMarkers)), SecuritySensitive)
  }

  function FileRules(cfg: Config, files: seq<ChangedFile>): set<Rule> {
    var cats := Categories(files);
    SecurityRules(cfg, files)
    + When(CI in cats || MatchesAny(files, cfg.ciPrefixes), CiWorkflow)
    + When(Dependency in cats, DependencyChange)
    + When(Infrastructure in cats || Migration in cats, InfraOrMigration)
  }

  function EscalateRules(cfg: Config, files: seq<ChangedFile>, ev: Evidence): set<Rule> {
    var early := EvidenceRules(cfg, ev) + FileRules(cfg, files);
    var scope := ScopeOf(cfg, files);
    early
    + When(early == {} && MatchesAny(files, cfg.escalationPaths), EscalationPath)
    + When(cfg.escalateOnRestrictedTools && ev.restrictedTool && !scope.Small?, RestrictedTool)
    + When(scope.Broad?, BroadScope)
    + When(cfg.escalateWhenAttemptsAtMax && ev.attempts >= cfg.maxAttemptsForEscalation, HighRetryCount)
    + When(UnknownCategory in Categories(files), DefaultEscalation)
  }

  predicate EligibleForAutoApproval(cfg: Config, files: seq<ChangedFile>, ev: Evidence) {
    && RiskOf(cfg, files, ev) in cfg.autoApproveRisks
    && |files| <= cfg.autoApproveMaxFiles
    && ScopeOf(cfg, files).Small?
    && files != []
    && Categories(files) <= cfg.autoApproveCategories
  }

  function MaxRisk(a: Risk, b: Risk): Risk { if Level(a) >= Level(b) then a else b }

  /** The risk a rejection reports. */
  function RejectRisk(cfg: Config, files: seq<ChangedFile>, ev: Evidence): Risk {
    if !ev.passed then MaxRisk(RiskOf(cfg, files, ev), High)
    else if files == [] || ev.blankPatch then High
    else Critical
  }

  function Evaluate(cfg: Config, files: seq<ChangedFile>, ev: Evidence): Decision {
    var rejects, escalates := RejectRules(cfg, files, ev), EscalateRules(cfg, files, ev);
    var risk := RiskOf(cfg, files, ev);
    if rejects != {} then Decision(Reject, rejects, RejectRisk(cfg, files, ev))
    else if escalates != {} then Decision(Escalate, escalates, MaxRisk(risk, High))
    else if EligibleForAutoApproval(cfg, files, ev) then Decision(Approve, {LowRiskAutoApprove}, risk)
    else Decision(cfg.defaultOutcome, {DefaultEscalation}, MaxRisk(risk, Medium))
  }

  // ------------------------------------------ the answers, from the inputs alone

  ghost predicate HasCategory(files: seq<ChangedFile>, c: FileCategory) {
    exists f :: f in files && f.category == c
  }

  /** A normalized pattern occurs somewhere in a changed path. */
  ghost predicate Touches(files: seq<ChangedFile>, patterns: seq<string>) {
    exists f, p, i: nat :: f in files && p in patterns && OccursAt(f.path, Normalize(p), i)
  }

  lemma TouchesIff(files: seq<ChangedFile>, patterns: seq<string>)
    ensures Touches(files, patterns) <==> MatchesAny(files, patterns)
  {
    forall f, p | f in files && p in patterns
      ensures Holds(f.path, Normalize(p)) <==> exists i: nat :: OccursAt(f.path, Normalize(p), i)
    {
      HoldsIff(f.path, Normalize(p));
    }
    if Touches(files, patterns) {
      var f, p, i: nat :| f in files && p in patterns && OccursAt(f.path, Normalize(p), i);
      assert Holds(f.path, Normalize(p));
    }
    if MatchesAny(files, patterns) {
      var f, p :| f in files && p in patterns && Holds(f.path, Normalize(p));
      var i: nat :| OccursAt(f.path, Normalize(p), i);
    }
  }

  lemma CategoriesIff(files: seq<ChangedFile>, c: FileCategory)
    ensures c in Categories(files) <==> HasCategory(files, c)
  {
  }

  /** A small change: few files in at most two directories. */
  ghost predicate SmallChange(cfg: Config, files: seq<ChangedFile>) {
    files != [] && |files| <= cfg.smallScopeMaxFiles && |DirectoriesOf(files)| <= 2
  }

  ghost predicate BroadChange(cfg: Config, files: seq<ChangedFile>) {
    files == [] || (!SmallChange(cfg, files) && (|files| > cfg.moderateScopeMaxFiles || |DirectoriesOf(files)| > 4))
  }

  lemma ScopeIff(cfg: Config, files: seq<ChangedFile>)
    ensures ScopeOf(cfg, files).Small? <==> SmallChange(cfg, files)
    ensures ScopeOf(cfg, files).Broad? <==> BroadChange(cfg, files)
  {
  }

  /** Which files make a change critical, high or low. */
  ghost predicate RiskAnswers(cfg: Config, files: seq<ChangedFile>, risk: Risk) {
    && (risk.Critical? <==> exists f :: f in files && (f.category.Security? || f.secret))
    && (risk.High? <==>
          (!risk.Critical?
           && exists f :: f in files && (f.category.Auth? || f.category.CI? || f.category.Infrastructure?
                                         || f.category.Migration?)))
    && (risk.Low? <==>
          (SmallChange(cfg, files)
           && forall f :: f in files ==>
                !f.secret && (f.category.Source? || f.category.Test? || f.category.Documentation?)))
  }

  lemma CriticalIff(cfg: Config, files: seq<ChangedFile>, ev: Evidence)
    ensures RiskOf(cfg, files, ev).Critical? <==> exists f :: f in files && (f.category.Security? || f.secret)
  {
    CategoriesIff(files, Security);
  }

  lemma HighIff(cfg: Config, files: seq<ChangedFile>, ev: Evidence)
    ensures RiskOf(cfg, files, ev).High? <==>
      (!RiskOf(cfg, files, ev).Critical?
       && exists f :: f in files && (f.category.Auth? || f.category.CI? || f.category.Infrastructure?
                                     || f.category.Migration?))
  {
    CategoriesIff(files, Auth);
    CategoriesIff(files, CI);
    CategoriesIff(files, Infrastructure);
    CategoriesIff(files, Migration);
  }

  lemma LowIff(cfg: Config, files: seq<ChangedFile>, ev: Evidence)
    ensures RiskOf(cfg, files, ev).Low? <==>
      (SmallChange(cfg, files)
       && forall f :: f in files ==>
            !f.secret && (f.category.Source? || f.category.Test? || f.category.Documentation?))
  {
    ScopeIff(cfg, files);
    forall f | f in files ensures f.category in Categories(files) {
    }
  }

  lemma RiskIff(cfg: Config, files: seq<ChangedFile>, ev: Evidence)
    ensures RiskAnswers(cfg, files, RiskOf(cfg, files, ev))
  {
    CriticalIff(cfg, files, ev);
    HighIff(cfg, files, ev);
    LowIff(cfg, files, ev);
  }

  /** The change is rejected whatever the configuration's default. */
  ghost predicate Unacceptable(cfg: Config, files: seq<ChangedFile>, ev: Evidence) {
    !ev.passed || files == [] || ev.blankPatch || Touches(files, cfg.forbiddenPaths) || ev.weakens
  }

  /** The one reject rule: the first that applies. */
  ghost predicate RejectAnswers(cfg: Config, files: seq<ChangedFile>, ev: Evidence, rules: set<Rule>) {
    var complete, forbidden := files != [] && !ev.blankPatch, Touches(files, cfg.forbiddenPaths);
    && (EvaluationMustPass in rules <==> !ev.passed)
    && (InvalidProposal in rules <==> ev.passed && !complete)
    && (ForbiddenPath in rules <==> ev.passed && complete && forbidden)
    && (VerificationWeakened in rules <==> ev.passed && complete && !forbidden && ev.weakens)
    && (Unacceptable(cfg, files, ev) ==> |rules| == 1)
  }

  ghost predicate Doubtful(cfg: Config, ev: Evidence) {
    || ev.needsReview || ev.classification.None? || ev.classification.value.category in cfg.escalationCategories
    || ev.classification.value.confidence < cfg.minConfidence
  }

  ghost predicate Sensitive(cfg: Config, files: seq<ChangedFile>) {
    || HasCategory(files, Auth) || HasCategory(files, Security) || Touches(files, cfg.securityMarkers)
    || HasCategory(files, CI) || Touches(files, cfg.ciPrefixes) || HasCategory(files, Dependency)
    || HasCategory(files, Infrastructure) || HasCategory(files, Migration)
  }

  ghost predicate RestrictedAndLarge(cfg: Config, files: seq<ChangedFile>, ev: Evidence) {
    cfg.escalateOnRestrictedTools && ev.restrictedTool && !SmallChange(cfg, files)
  }

  ghost predicate TriedOften(cfg: Config, ev: Evidence) {
    cfg.escalateWhenAttemptsAtMax && ev.attempts >= cfg.maxAttemptsForEscalation
  }

  /** Something calls for a person. */
  ghost predicate NeedsPerson(cfg: Config, files: seq<ChangedFile>, ev: Evidence) {
    || Doubtful(cfg, ev) || Sensitive(cfg, files) || Touches(files, cfg.escalationPaths)
    || RestrictedAndLarge(cfg, files, ev) || BroadChange(cfg, files) || TriedOften(cfg, ev)
    || HasCategory(files, UnknownCategory)
  }

  /** The escalation rules that go by the evidence and by the files' categories and paths. */
  ghost predicate EarlyAnswers(cfg: Config, files: seq<ChangedFile>, ev: Evidence, rules: set<Rule>) {
    && (VerificationChangeReview in rules <==> ev.needsReview)
    && (LowConfidence in rules <==>
          ev.classification.None? || ev.classification.value.confidence < cfg.minConfidence)
    && (FailureCategory in rules <==>
          ev.classification.Some? && ev.classification.value.category in cfg.escalationCategories)
    && (AuthChange in rules <==> HasCategory(files, Auth))
    && (SecuritySensitive in rules <==>
          (HasCategory(files, Security) || (Touches(files, cfg.securityMarkers) && !HasCategory(files, Auth))))
    && (CiWorkflow in rules <==> HasCategory(files, CI) || Touches(files, cfg.ciPrefixes))
    && (DependencyChange in rules <==> HasCategory(files, Dependency))
    && (InfraOrMigration in rules <==> HasCategory(files, Infrastructure) || HasCategory(files, Migration))
  }

  /** The escalation rules that come after them. */
  ghost predicate LateAnswers(cfg: Config, files: seq<ChangedFile>, ev: Evidence, rules: set<Rule>) {
    && (EscalationPath in rules <==>
          Touches(files, cfg.escalationPaths) && !Doubtful(cfg, ev) && !Sensitive(cfg, files))
    && (RestrictedTool in rules <==> RestrictedAndLarge(cfg, files, ev))
    && (BroadScope in rules <==> BroadChange(cfg, files))
    && (HighRetryCount in rules <==> TriedOften(cfg, ev))
  }

  /** What automatic approval asks for besides the absence of every other rule. */
  ghost predicate Harmless(cfg: Config, files: seq<ChangedFile>, risk: Risk) {
    && risk in cfg.autoApproveRisks && |files| <= cfg.autoApproveMaxFiles && SmallChange(cfg, files)
    && forall f :: f in files ==> f.category in cfg.autoApproveCategories
  }

  /** The outcome, from the inputs; `risk` is the risk of the change. */
  ghost predicate OutcomeAnswers(cfg: Config, files: seq<ChangedFile>, ev: Evidence, risk: Risk, outcome: Outcome) {
    && (Unacceptable(cfg, files, ev) ==> outcome == Reject)
    && (!Unacceptable(cfg, files, ev) && NeedsPerson(cfg, files, ev) ==> outcome == Escalate)
    && (!Unacceptable(cfg, files, ev) && !NeedsPerson(cfg, files, ev) ==>
          outcome == if Harmless(cfg, files, risk) then Approve else cfg.defaultOutcome)
  }

  /** The rules listed, from the inputs. */
  ghost predicate RuleAnswers(cfg: Config, files: seq<ChangedFile>, ev: Evidence, risk: Risk, rules: set<Rule>) {
    var rejected, doubted := Unacceptable(cfg, files, ev), NeedsPerson(cfg, files, ev);
    && RejectAnswers(cfg, files, ev, rules)
    && (!rejected ==> EarlyAnswers(cfg, files, ev, rules) && LateAnswers(cfg, files, ev, rules))
    && (LowRiskAutoApprove in rules <==> !rejected && !doubted && Harmless(cfg, files, risk))
    && (DefaultEscalation in rules <==>
          (!rejected && (HasCategory(files, UnknownCategory) || (!doubted && !Harmless(cfg, files, risk)))))
  }

  function AtLeast(risk: Risk, floor: Risk): Risk {
    if risk == Critical || floor == Critical then Critical
    else if risk == High || floor == High then High
    else if risk == Medium || floor == Medium then Medium else Low
  }

  /** The risk on record: that of the change, raised by what happened to it. */
  ghost predicate RecordedRiskAnswers(cfg: Config, files: seq<ChangedFile>, ev: Evidence, risk: Risk, recorded: Risk) {
    && (!ev.passed ==> recorded == AtLeast(risk, High))
    && (ev.passed && (files == [] || ev.blankPatch) ==> recorded == High)
    && (ev.passed && files != [] && !ev.blankPatch && Unacceptable(cfg, files, ev) ==> recorded == Critical)
    && (!Unacceptable(cfg, files, ev) && NeedsPerson(cfg, files, ev) ==> recorded == AtLeast(risk, High))
    && (!Unacceptable(cfg, files, ev) && !NeedsPerson(cfg, files, ev) ==>
          recorded == if Harmless(cfg, files, risk) then risk else AtLeast(risk, Medium))
  }

  lemma RejectsIff(cfg: Config, files: seq<ChangedFile>, ev: Evidence)
    ensures RejectAnswers(cfg, files, ev, RejectRules(cfg, files, ev))
    ensures RejectRules(cfg, files, ev) != {} <==> Unacceptable(cfg, files, ev)
    ensures RejectRules(cfg, files, ev) <= {EvaluationMustPass, InvalidProposal, ForbiddenPath, VerificationWeakened}
  {
    TouchesIff(files, cfg.forbiddenPaths);
  }

  ghost predicate EvidenceAnswers(cfg: Config, ev: Evidence, rules: set<Rule>) {
    && (rules != {} <==> Doubtful(cfg, ev))
    && rules <= {VerificationChangeReview, LowConfidence, FailureCategory}
    && (VerificationChangeReview in rules <==> ev.needsReview)
    && (LowConfidence in rules <==>
          ev.classification.None? || ev.classification.value.confidence < cfg.minConfidence)
    && (FailureCategory in rules <==>
          ev.classification.Some? && ev.classification.value.category in cfg.escalationCategories)
  }

  lemma EvidenceIff(cfg: Config, ev: Evidence)
    ensures EvidenceAnswers(cfg, ev, EvidenceRules(cfg, ev))
  {
    var rules := EvidenceRules(cfg, ev);
    assert rules != {} <==>
      (VerificationChangeReview in rules || LowConfidence in rules || FailureCategory in rules);
  }

  lemma SecurityIff(cfg: Config, files: seq<ChangedFile>)
    ensures SecurityRules(cfg, files) <= {AuthChange, SecuritySensitive}
    ensures AuthChange in SecurityRules(cfg, files) <==> HasCategory(files, Auth)
    ensures SecuritySensitive in SecurityRules(cfg, files) <==>
      (HasCategory(files, Security) || (Touches(files, cfg.securityMarkers) && !HasCategory(files, Auth)))
  {
    CategoriesIff(files, Auth);
    CategoriesIff(files, Security);
    TouchesIff(files, cfg.securityMarkers);
  }

  ghost predicate FileAnswers(cfg: Config, files: seq<ChangedFile>, rules: set<Rule>) {
    && rules <= {AuthChange, SecuritySensitive, CiWorkflow, DependencyChange, InfraOrMigration}
    && (AuthChange in rules <==> HasCategory(files, Auth))
    && (SecuritySensitive in rules <==>
          (HasCategory(files, Security) || (Touches(files, cfg.securityMarkers) && !HasCategory(files, Auth))))
    && (CiWorkflow in rules <==> HasCategory(files, CI) || Touches(files, cfg.ciPrefixes))
    && (DependencyChange in rules <==> HasCategory(files, Dependency))
    && (InfraOrMigration in rules <==> HasCategory(files, Infrastructure) || HasCategory(files, Migration))
  }

  lemma FileRulesIff(cfg: Config, files: seq<ChangedFile>)
    ensures FileAnswers(cfg, files, FileRules(cfg, files))
  {
    SecurityIff(cfg, files);
    CategoriesIff(files, CI);
    CategoriesIff(files, Dependency);
    CategoriesIff(files, Infrastructure);
    CategoriesIff(files, Migration);
    TouchesIff(files, cfg.ciPrefixes);
  }

  lemma SensitiveIff(cfg: Config, files: seq<ChangedFile>, rules: set<Rule>)
    requires FileAnswers(cfg, files, rules)
    ensures rules != {} <==> Sensitive(cfg, files)
  {
    assert rules != {} <==>
      (AuthChange in rules || SecuritySensitive in rules || CiWorkflow in rules || DependencyChange in rules
       || InfraOrMigration in rules);
  }

  /** A rule is listed by the evidence, by the files, or by a condition of its own. */
  ghost predicate EscalatedAs(cfg: Config, files: seq<ChangedFile>, ev: Evidence, early: set<Rule>, r: Rule) {
    || r in early || (r == EscalationPath && early == {} && Touches(files, cfg.escalationPaths))
    || (r == RestrictedTool && RestrictedAndLarge(cfg, files, ev)) || (r == BroadScope && BroadChange(cfg, files))
    || (r == HighRetryCount && TriedOften(cfg, ev))
    || (r == DefaultEscalation && HasCategory(files, UnknownCategory))
  }

  ghost predicate Listed(cfg: Config, files: seq<ChangedFile>, ev: Evidence, early: set<Rule>, rules: set<Rule>) {
    forall r :: r in rules <==> EscalatedAs(cfg, files, ev, early, r)
  }

  lemma EscalatesIff(cfg: Config, files: seq<ChangedFile>, ev: Evidence)
    ensures Listed(cfg, files, ev, EvidenceRules(cfg, ev) + FileRules(cfg, files), EscalateRules(cfg, files, ev))
  {
    ScopeIff(cfg, files);
    TouchesIff(files, cfg.escalationPaths);
    CategoriesIff(files, UnknownCategory);
  }

  lemma EarlyIff(cfg: Config, files: seq<ChangedFile>, ev: Evidence, byEvidence: set<Rule>, byFiles: set<Rule>,
                 rules: set<Rule>)
    requires EvidenceAnswers(cfg, ev, byEvidence) && FileAnswers(cfg, files, byFiles)
    requires Listed(cfg, files, ev, byEvidence + byFiles, rules)
    ensures EarlyAnswers(cfg, files, ev, rules)
  {
  }

  predicate IsEarly(r: Rule) {
    || r.VerificationChangeReview? || r.LowConfidence? || r.FailureCategory? || r.AuthChange? || r.SecuritySensitive?
    || r.CiWorkflow? || r.DependencyChange? || r.InfraOrMigration?
  }

  /** Which rules the evidence and the files can list, and when they list any. */
  ghost predicate EarlyGroup(cfg: Config, files: seq<ChangedFile>, ev: Evidence, early: set<Rule>) {
    (early == {} <==> !Doubtful(cfg, ev) && !Sensitive(cfg, files)) && forall r :: r in early ==> IsEarly(r)
  }

  lemma EarlyGroupIff(cfg: Config, files: seq<ChangedFile>, ev: Evidence, byEvidence: set<Rule>, byFiles: set<Rule>)
    requires EvidenceAnswers(cfg, ev, byEvidence) && FileAnswers(cfg, files, byFiles)
    ensures EarlyGroup(cfg, files, ev, byEvidence + byFiles)
  {
    SensitiveIff(cfg, files, byFiles);
    assert byEvidence + byFiles == {} <==> byEvidence == {} && byFiles == {};
  }

  lemma LateIff(cfg: Config, files: seq<ChangedFile>, ev: Evidence, early: set<Rule>, rules: set<Rule>)
    requires EarlyGroup(cfg, files, ev, early) && Listed(cfg, files, ev, early, rules)
    ensures LateAnswers(cfg, files, ev, rules)
    ensures DefaultEscalation in rules <==> HasCategory(files, UnknownCategory)
    ensures EvaluationMustPass !in rules && InvalidProposal !in rules && ForbiddenPath !in rules
    ensures VerificationWeakened !in rules && LowRiskAutoApprove !in rules
  {
  }

  lemma PersonIff(cfg: Config, files: seq<ChangedFile>, ev: Evidence, early: set<Rule>, rules: set<Rule>)
    requires EarlyGroup(cfg, files, ev, early) && Listed(cfg, files, ev, early, rules)
    ensures rules != {} <==> NeedsPerson(cfg, files, ev)
  {
    if NeedsPerson(cfg, files, ev) && early == {} {
      assert EscalationPath in rules || RestrictedTool in rules || BroadScope in rules
          || HighRetryCount in rules || DefaultEscalation in rules;
    }
  }

  lemma EscalationsIff(cfg: Config, files: seq<ChangedFile>, ev: Evidence)
    ensures var rules := EscalateRules(cfg, files, ev);
      && EarlyAnswers(cfg, files, ev, rules) && LateAnswers(cfg, files, ev, rules)
      && (rules != {} <==> NeedsPerson(cfg, files, ev))
      && (DefaultEscalation in rules <==> HasCategory(files, UnknownCategory))
      && EvaluationMustPass !in rules && InvalidProposal !in rules && ForbiddenPath !in rules
      && VerificationWeakened !in rules && LowRiskAutoApprove !in rules
  {
    var byEvidence, byFiles, rules := EvidenceRules(cfg, ev), FileRules(cfg, files), EscalateRules(cfg, files, ev);
    EvidenceIff(cfg, ev);
    FileRulesIff(cfg, files);
    EscalatesIff(cfg, files, ev);
    EarlyIff(cfg, files, ev, byEvidence, byFiles, rules);
    EarlyGroupIff(cfg, files, ev, byEvidence, byFiles);
    LateIff(cfg, files, ev, byEvidence + byFiles, rules);
    PersonIff(cfg, files, ev, byEvidence + byFiles, rules);
  }

  lemma HarmlessIff(cfg: Config, files: seq<ChangedFile>, ev: Evidence)
    ensures EligibleForAutoApproval(cfg, files, ev) <==> Harmless(cfg, files, RiskOf(cfg, files, ev))
  {
    ScopeIff(cfg, files);
    forall f | f in files ensures f.category in Categories(files) {
    }
  }

  lemma OutcomeIff(cfg: Config, files: seq<ChangedFile>, ev: Evidence)
    ensures var d, risk := Evaluate(cfg, files, ev), RiskOf(cfg, files, ev);
      OutcomeAnswers(cfg, files, ev, risk, d.outcome)
  {
    RejectsIff(cfg, files, ev);
    EscalationsIff(cfg, files, ev);
    HarmlessIff(cfg, files, ev);
  }

  lemma RecordedRiskIff(cfg: Config, files: seq<ChangedFile>, ev: Evidence)
    ensures RecordedRiskAnswers(cfg, files, ev, RiskOf(cfg, files, ev), Evaluate(cfg, files, ev).risk)
  {
    RejectsIff(cfg, files, ev);
    EscalationsIff(cfg, files, ev);
    HarmlessIff(cfg, files, ev);
  }

  lemma RulesIff(cfg: Config, files: seq<ChangedFile>, ev: Evidence)
    ensures RuleAnswers(cfg, files, ev, RiskOf(cfg, files, ev), Evaluate(cfg, files, ev).rules)
  {
    RejectsIff(cfg, files, ev);
    EscalationsIff(cfg, files, ev);
    HarmlessIff(cfg, files, ev);
  }

  /** The decision, from the inputs: outcome, rules and recorded risk go by the risk of the
      change, and that goes by its files. */
  ghost predicate Answers(cfg: Config, files: seq<ChangedFile>, ev: Evidence, outcome: Outcome, rules: set<Rule>,
                          recorded: Risk) {
    exists risk ::
      && RiskAnswers(cfg, files, risk) && OutcomeAnswers(cfg, files, ev, risk, outcome)
      && RuleAnswers(cfg, files, ev, risk, rules) && RecordedRiskAnswers(cfg, files, ev, risk, recorded)
  }

  lemma EvaluationAnswers(cfg: Config, files: seq<ChangedFile>, ev: Evidence)
    ensures var d := Evaluate(cfg, files, ev); Answers(cfg, files, ev, d.outcome, d.rules, d.risk)
    ensures var d := Evaluate(cfg, files, ev);
      cfg.Valid() && d.outcome.Approve? ==>
        !Unacceptable(cfg, files, ev) && !NeedsPerson(cfg, files, ev) && Harmless(cfg, files, d.risk)
  {
    RiskIff(cfg, files, ev);
    OutcomeIff(cfg, files, ev);
    RulesIff(cfg, files, ev);
    RecordedRiskIff(cfg, files, ev);
  }

  // ------------------------------------------------- the engine, step by step

  ghost predicate MatchesOne(f: ChangedFile, patterns: seq<string>) {
    exists p :: p in patterns && Holds(f.path, Normalize(p))
  }

  method IsHit(f: ChangedFile, patterns: seq<string>) returns (hit: bool)
    ensures hit <==> MatchesOne(f, patterns)
  {
    for j := 0 to |patterns|
      invariant forall p :: p in patterns[..j] ==> !Holds(f.path, Normalize(p))
    {
      assert patterns[..j + 1] == patterns[..j] + [patterns[j]];
      if Holds(f.path, Normalize(patterns[j])) {
        return true;
      }
    }
    assert patterns[..|patterns|] == patterns;
    hit := false;
  }

  /** The changed files that match a pattern, in order. */
  method MatchingPaths(files: seq<ChangedFile>, patterns: seq<string>) returns (hits: seq<ChangedFile>)
    ensures forall f :: f in hits <==> f in files && MatchesOne(f, patterns)
    ensures hits != [] <==> MatchesAny(files, patterns)
  {
    hits := [];
    for i := 0 to |files|
      invariant forall f :: f in hits <==> f in files[..i] && MatchesOne(f, patterns)
    {
      assert files[..i + 1] == files[..i] + [files[i]];
      var hit := IsHit(files[i], patterns);
      if hit {
        hits := hits + [files[i]];
      }
    }
    assert files[..|files|] == files;
    NothingInside(hits);
  }

  /** Appends a rule that holds, unless it is listed already. */
  method Add(matched: seq<Rule>, c: bool, r: Rule) returns (more: seq<Rule>)
    requires NoDup(matched)
    ensures NoDup(more) && Elems(more) == Elems(matched) + When(c, r)
  {
    more := matched;
    if c && r !in matched {
      ElemsAppend(matched, r);
      more := matched + [r];
    }
  }

  method FindRejections(cfg: Config, files: seq<ChangedFile>, ev: Evidence) returns (matched: seq<Rule>, risk: Risk)
    ensures NoDup(matched) && Elems(matched) == RejectRules(cfg, files, ev)
    ensures matched != [] <==> RejectRules(cfg, files, ev) != {}
    ensures matched != [] ==> risk == RejectRisk(cfg, files, ev)
  {
    if !ev.passed {
      return [EvaluationMustPass], MaxRisk(RiskOf(cfg, files, ev), High);
    }
    if files == [] || ev.blankPatch {
      return [InvalidProposal], High;
    }
    var forbidden := MatchingPaths(files, cfg.forbiddenPaths);
    if forbidden != [] {
      return [ForbiddenPath], Critical;
    }
    if ev.weakens {
      return [VerificationWeakened], Critical;
    }
    matched, risk := [], Low;
  }

  method FindEvidenceRules(cfg: Config, ev: Evidence) returns (matched: seq<Rule>)
    ensures NoDup(matched) && Elems(matched) == EvidenceRules(cfg, ev)
  {
    matched := Add([], ev.needsReview, VerificationChangeReview);
    match ev.classification {
      case None => matched := Add(matched, true, LowConfidence);
      case Some(c) =>
        matched := Add(matched, c.category in cfg.escalationCategories, FailureCategory);
        matched := Add(matched, c.confidence < cfg.minConfidence, LowConfidence);
    }
  }

  method FindSecurityRules(cfg: Config, files: seq<ChangedFile>, before: seq<Rule>) returns (matched: seq<Rule>)
    requires NoDup(before)
    ensures NoDup(matched) && Elems(matched) == Elems(before) + SecurityRules(cfg, files)
  {
    var cats := Categories(files);
    var markers := MatchingPaths(files, cfg.securityMarkers);
    if Auth in cats || markers != [] {
      matched := Add(before, true, if Auth in cats then AuthChange else SecuritySensitive);
    } else {
      matched := before;
    }
    matched := Add(matched, Security in cats, SecuritySensitive);
  }

  method FindFileRules(cfg: Config, files: seq<ChangedFile>, before: seq<Rule>) returns (matched: seq<Rule>)
    requires NoDup(before)
    ensures NoDup(matched) && Elems(matched) == Elems(before) + FileRules(cfg, files)
  {
    var cats := Categories(files);
    matched := FindSecurityRules(cfg, files, before);
    var prefixed := MatchingPaths(files, cfg.ciPrefixes);
    matched := Add(matched, CI in cats || prefixed != [], CiWorkflow);
    matched := Add(matched, Dependency in cats, DependencyChange);
    matched := Add(matched, Infrastructure in cats || Migration in cats, InfraOrMigration);
  }

  method FindEscalations(cfg: Config, files: seq<ChangedFile>, ev: Evidence) returns (matched: seq<Rule>)
    ensures NoDup(matched) && Elems(matched) == EscalateRules(cfg, files, ev)
  {
    matched := FindEvidenceRules(cfg, ev);
    matched := FindFileRules(cfg, files, matched);
    var hits := MatchingPaths(files, cfg.escalationPaths);
    ElemsEmpty(matched);
    matched := Add(matched, hits != [] && matched == [], EscalationPath);
    var scope := ScopeOf(cfg, files);
    matched := Add(matched, cfg.escalateOnRestrictedTools && ev.restrictedTool && !scope.Small?, RestrictedTool);
    matched := Add(matched, scope.Broad?, BroadScope);
    matched := Add(matched, cfg.escalateWhenAttemptsAtMax && ev.attempts >= cfg.maxAttemptsForEscalation,
                   HighRetryCount);
    matched := Add(matched, UnknownCategory in Categories(files), DefaultEscalation);
  }

  /** The engine's rule list, built by appending, holds exactly the rules of the cascade, once each. */
  method EvaluatePolicy(cfg: Config, files: seq<ChangedFile>, ev: Evidence)
    returns (outcome: Outcome, matched: seq<Rule>, risk: Risk)
    ensures Evaluate(cfg, files, ev) == Decision(outcome, Elems(matched), risk) && NoDup(matched)
    ensures Answers(cfg, files, ev, outcome, Elems(matched), risk)
    ensures cfg.Valid() && outcome.Approve? ==>
      (!Unacceptable(cfg, files, ev) && !NeedsPerson(cfg, files, ev) && Harmless(cfg, files, risk))
  {
    EvaluationAnswers(cfg, files, ev);
    outcome, matched, risk := ApplyRules(cfg, files, ev);
  }

  method ApplyRules(cfg: Config, files: seq<ChangedFile>, ev: Evidence)
    returns (outcome: Outcome, matched: seq<Rule>, risk: Risk)
    ensures Evaluate(cfg, files, ev) == Decision(outcome, Elems(matched), risk) && NoDup(matched)
  {
    matched, risk := FindRejections(cfg, files, ev);
    if matched != [] {
      return Reject, matched, risk;
    }
    risk := RiskOf(cfg, files, ev);
    matched := FindEscalations(cfg, files, ev);
    ElemsEmpty(matched);
    if matched != [] {
      return Escalate, matched, MaxRisk(risk, High);
    }
    if EligibleForAutoApproval(cfg, files, ev) {
      return Approve, [LowRiskAutoApprove], risk;
    }
    return cfg.defaultOutcome, [DefaultEscalation], MaxRisk(risk, Medium);
  }

  // ----------------------------------------------------------- monotonicity

  /** `more` changes every file `files` changes, and at least as many entries. */
  ghost predicate Grows(files: seq<ChangedFile>, more: seq<ChangedFile>) {
    files != [] && |files| <= |more| && forall f :: f in files ==> f in more
  }

  lemma ScopeGrows(files: seq<ChangedFile>, more: seq<ChangedFile>, smallMax: nat, moderateMax: nat)
    requires Grows(files, more) && smallMax <= moderateMax
    ensures Extent(ClassifyScope(files, smallMax, moderateMax)) <= Extent(ClassifyScope(more, smallMax, moderateMax))
  {
    assert DirectoriesOf(files) <= DirectoriesOf(more);
    CardSubset(DirectoriesOf(files), DirectoriesOf(more));
  }

  lemma RiskGrows(cfg: Config, files: seq<ChangedFile>, more: seq<ChangedFile>, ev: Evidence)
    requires Grows(files, more) && cfg.Valid()
    ensures Level(RiskOf(cfg, files, ev)) <= Level(RiskOf(cfg, more, ev))
  {
    ScopeGrows(files, more, cfg.smallScopeMaxFiles, cfg.moderateScopeMaxFiles);
  }

  /** Individual rules may give way to others, but an escalation stays one. */
  lemma EscalationStays(cfg: Config, files: seq<ChangedFile>, more: seq<ChangedFile>, ev: Evidence)
    requires Grows(files, more) && cfg.Valid() && EscalateRules(cfg, files, ev) != {}
    ensures EscalateRules(cfg, more, ev) != {}
  {
    ScopeGrows(files, more, cfg.smallScopeMaxFiles, cfg.moderateScopeMaxFiles);
    assert forall patterns :: MatchesAny(files, patterns) ==> MatchesAny(more, patterns);
    if EscalateRules(cfg, more, ev) == {} {
      NoRules(cfg, more, ev);
    }
  }

  /** What the absence of every escalation rule means. */
  lemma NoRules(cfg: Config, files: seq<ChangedFile>, ev: Evidence)
    requires EscalateRules(cfg, files, ev) == {}
    ensures EvidenceRules(cfg, ev) == {} && FileRules(cfg, files) == {}
    ensures !MatchesAny(files, cfg.securityMarkers) && !MatchesAny(files, cfg.ciPrefixes)
    ensures !MatchesAny(files, cfg.escalationPaths)
    ensures Categories(files) !! {Auth, Security, CI, Dependency, Infrastructure, Migration, UnknownCategory}
    ensures !ScopeOf(cfg, files).Broad?
    ensures !(cfg.escalateOnRestrictedTools && ev.restrictedTool && !ScopeOf(cfg, files).Small?)
    ensures !(cfg.escalateWhenAttemptsAtMax && ev.attempts >= cfg.maxAttemptsForEscalation)
  {
    var all := EscalateRules(cfg, files, ev);
    var cats := Categories(files);
    assert EvidenceRules(cfg, ev) + FileRules(cfg, files) <= all;
    assert AuthChange !in all && SecuritySensitive !in all && CiWorkflow !in all && DependencyChange !in all;
    assert InfraOrMigration !in all && EscalationPath !in all && RestrictedTool !in all;
    assert BroadScope !in all && HighRetryCount !in all && DefaultEscalation !in all;
  }

  lemma RejectionStays(cfg: Config, files: seq<ChangedFile>, more: seq<ChangedFile>, ev: Evidence)
    requires Grows(files, more) && RejectRules(cfg, files, ev) != {}
    ensures RejectRules(cfg, more, ev) != {}
  {
  }

  ghost predicate Silent(cfg: Config, files: seq<ChangedFile>, ev: Evidence) {
    RejectRules(cfg, files, ev) == {} && EscalateRules(cfg, files, ev) == {}
  }

  /** No rule ever falls silent when the change grows. */
  lemma SilenceShrinks(cfg: Config, files: seq<ChangedFile>, more: seq<ChangedFile>, ev: Evidence)
    requires Grows(files, more) && cfg.Valid() && Silent(cfg, more, ev)
    ensures Silent(cfg, files, ev)
  {
    if RejectRules(cfg, files, ev) != {} {
      RejectionStays(cfg, files, more, ev);
    } else if EscalateRules(cfg, files, ev) != {} {
      EscalationStays(cfg, files, more, ev);
    }
  }

  /** Of the conditions for automatic approval only the risk level can get in the way of
      the smaller change. */
  lemma SmallerIsEligibleIff(cfg: Config, files: seq<ChangedFile>, more: seq<ChangedFile>, ev: Evidence)
    requires Grows(files, more) && cfg.Valid() && EligibleForAutoApproval(cfg, more, ev)
    ensures EligibleForAutoApproval(cfg, files, ev) <==> RiskOf(cfg, files, ev) in cfg.autoApproveRisks
  {
    ScopeGrows(files, more, cfg.smallScopeMaxFiles, cfg.moderateScopeMaxFiles);
  }

  /** With the default outcome ESCALATE, changing more files makes the outcome milder if
      and only if there is a gap in the automatic risk levels: the larger change triggers
      no rule and is eligible, but the risk of the smaller one is not in the list. */
  lemma MilderIff(cfg: Config, files: seq<ChangedFile>, more: seq<ChangedFile>, ev: Evidence)
    requires Grows(files, more) && cfg.Valid() && cfg.defaultOutcome == Escalate
    ensures Severity(Evaluate(cfg, more, ev).outcome) < Severity(Evaluate(cfg, files, ev).outcome) <==>
      && Silent(cfg, more, ev) && EligibleForAutoApproval(cfg, more, ev)
      && RiskOf(cfg, files, ev) !in cfg.autoApproveRisks
  {
    if Silent(cfg, more, ev) {
      SilenceShrinks(cfg, files, more, ev);
      if EligibleForAutoApproval(cfg, more, ev) {
        SmallerIsEligibleIff(cfg, files, more, ev);
      }
    } else if RejectRules(cfg, files, ev) != {} {
      RejectionStays(cfg, files, more, ev);
    }
  }

  /** With the default outcome REJECT it does so if and only if the smaller change triggers
      no rule and is not eligible, and the larger one, without being rejected, triggers an
      escalation rule or shows the same gap. */
  lemma MilderThanRejectIff(cfg: Config, files: seq<ChangedFile>, more: seq<ChangedFile>, ev: Evidence)
    requires Grows(files, more) && cfg.Valid() && cfg.defaultOutcome == Reject
    ensures Severity(Evaluate(cfg, more, ev).outcome) < Severity(Evaluate(cfg, files, ev).outcome) <==>
      && RejectRules(cfg, more, ev) == {} && EscalateRules(cfg, files, ev) == {}
      && (if EscalateRules(cfg, more, ev) != {} then !EligibleForAutoApproval(cfg, files, ev)
          else EligibleForAutoApproval(cfg, more, ev) && RiskOf(cfg, files, ev) !in cfg.autoApproveRisks)
  {
    if RejectRules(cfg, files, ev) != {} {
      RejectionStays(cfg, files, more, ev);
    } else if EscalateRules(cfg, files, ev) != {} {
      EscalationStays(cfg, files, more, ev);
    } else if EligibleForAutoApproval(cfg, more, ev) {
      SmallerIsEligibleIff(cfg, files, more, ev);
    }
  }

  ghost predicate DownwardClosed(risks: set<Risk>) {
    forall r, s :: r in risks && Level(s) <= Level(r) ==> s in risks
  }

  /** With the default outcome ESCALATE and downward-closed automatic risk levels,
      changing more files never makes the outcome milder. */
  lemma MoreFilesNeverMilder(cfg: Config, files: seq<ChangedFile>, more: seq<ChangedFile>, ev: Evidence)
    requires Grows(files, more) && cfg.Valid()
    requires cfg.defaultOutcome == Escalate && DownwardClosed(cfg.autoApproveRisks)
    ensures Severity(Evaluate(cfg, files, ev).outcome) <= Severity(Evaluate(cfg, more, ev).outcome)
  {
    MilderIff(cfg, files, more, ev);
    RiskGrows(cfg, files, more, ev);
  }

  /** Under the same conditions the risk on record never falls either. */
  lemma RecordedRiskGrows(cfg: Config, files: seq<ChangedFile>, more: seq<ChangedFile>, ev: Evidence)
    requires Grows(files, more) && cfg.Valid()
    requires cfg.defaultOutcome == Escalate && DownwardClosed(cfg.autoApproveRisks)
    ensures Level(Evaluate(cfg, files, ev).risk) <= Level(Evaluate(cfg, more, ev).risk)
  {
    RiskGrows(cfg, files, more, ev);
    if RejectRules(cfg, files, ev) == {} && RejectRules(cfg, more, ev) == {} {
      UnrejectedRiskGrows(cfg, files, more, ev);
    }
  }

  lemma UnrejectedRiskGrows(cfg: Config, files: seq<ChangedFile>, more: seq<ChangedFile>, ev: Evidence)
    requires Grows(files, more) && cfg.Valid() && RejectRules(cfg, files, ev) == {} && RejectRules(cfg, more, ev) == {}
    requires cfg.defaultOutcome == Escalate && DownwardClosed(cfg.autoApproveRisks)
    requires Level(RiskOf(cfg, files, ev)) <= Level(RiskOf(cfg, more, ev))
    ensures Level(Evaluate(cfg, files, ev).risk) <= Level(Evaluate(cfg, more, ev).risk)
  {
    if EscalateRules(cfg, files, ev) != {} {
      EscalationStays(cfg, files, more, ev);
    } else if EligibleForAutoApproval(cfg, more, ev) {
      SmallerIsEligibleIff(cfg, files, more, ev);
    }
  }

  /** The risk on record covers the risk of the change, except for a passing proposal with an
      empty patch that names a critical file: that one is filed as HIGH. */
  lemma RecordedRiskCoversIff(cfg: Config, files: seq<ChangedFile>, ev: Evidence)
    ensures Level(RiskOf(cfg, files, ev)) <= Level(Evaluate(cfg, files, ev).risk)
       <==> !(ev.passed && ev.blankPatch && RiskOf(cfg, files, ev) == Critical)
  {
  }

  /** In particular: adding one changed file, at any place, to a non-empty list. */
  lemma AddedFileNeverMilder(cfg: Config, before: seq<ChangedFile>, after: seq<ChangedFile>, f: ChangedFile,
                             ev: Evidence)
    requires cfg.Valid() && cfg.defaultOutcome == Escalate && DownwardClosed(cfg.autoApproveRisks)
    requires before + after != []
    ensures Severity(Evaluate(cfg, before + after, ev).outcome)
         <= Severity(Evaluate(cfg, before + [f] + after, ev).outcome)
  {
    MoreFilesNeverMilder(cfg, before + after, before + [f] + after, ev);
  }

  /** The same on the paths of a proposal, however paths are inspected; `Inspect` is one way. */
  lemma AddedPathNeverMilder(cfg: Config, inspect: string -> ChangedFile, before: seq<string>, after: seq<string>,
                             path: string, ev: Evidence)
    requires cfg.Valid() && cfg.defaultOutcome == Escalate && DownwardClosed(cfg.autoApproveRisks)
    requires before + after != []
    ensures Severity(Evaluate(cfg, Map(inspect, before + after), ev).outcome)
         <= Severity(Evaluate(cfg, Map(inspect, before + [path] + after), ev).outcome)
  {
    MapConcat(inspect, before, after);
    MapConcat(inspect, before, [path]);
    MapConcat(inspect, before + [path], after);
    assert Map(inspect, [path]) == [inspect(path)];
    AddedFileNeverMilder(cfg, Map(inspect, before), Map(inspect, after), inspect(path), ev);
  }

  // ------------------------------------------- why both conditions are there

  /** A permissive configuration: no path patterns, small scopes up to three files. */
  function Permissive(default: Outcome, risks: set<Risk>): Config {
    Config(default, [], [], [], [], 3, {Source, Configuration}, risks, true, false, 3, 3, 8, {}, 0.5)
  }

  const Sound := Evidence(true, false, false, false, Some(Classification("test_failure", 0.9)), false, 1)

  lemma PairFacts(f: ChangedFile, g: ChangedFile)
    requires f.directories == {} && g.directories == {}
    ensures Categories([f]) == {f.category} && Categories([f, g]) == {f.category, g.category}
    ensures ClassifyScope([f], 3, 8).Small? && ClassifyScope([f, g], 3, 8).Small?
    ensures Grows([f], [f, g])
  {
    assert DirectoriesOf([f]) == {} && DirectoriesOf([f, g]) == {};
    assert f in [f] && f in [f, g] && g in [f, g];
  }

  /** Small changes to source and configuration files alone trigger no rule. */
  lemma PermissiveIsQuiet(default: Outcome, risks: set<Risk>, files: seq<ChangedFile>)
    requires files != [] && Categories(files) <= {Source, Configuration} && ClassifyScope(files, 3, 8).Small?
    ensures EscalateRules(Permissive(default, risks), files, Sound) == {}
  {
    assert EvidenceRules(Permissive(default, risks), Sound) == {};
    assert FileRules(Permissive(default, risks), files) == {};
  }

  /** Automatic approval at MEDIUM but not at LOW: a source file alone is escalated,
      a configuration file added to it gets the pair approved. */
  lemma GapInRiskLevelsIsMilder(f: ChangedFile, g: ChangedFile)
    requires f.category == Source && g.category == Configuration
    requires f.directories == {} && g.directories == {} && !f.secret && !g.secret
    ensures var cfg := Permissive(Escalate, {Medium}); cfg.Valid() && !DownwardClosed(cfg.autoApproveRisks)
    ensures Grows([f], [f, g])
    ensures Evaluate(Permissive(Escalate, {Medium}), [f], Sound).outcome == Escalate
    ensures Evaluate(Permissive(Escalate, {Medium}), [f, g], Sound).outcome == Approve
  {
    PairFacts(f, g);
    PermissiveIsQuiet(Escalate, {Medium}, [f]);
    PermissiveIsQuiet(Escalate, {Medium}, [f, g]);
    assert Level(Low) <= Level(Medium);
    ConfigurationRaisesRisk(Permissive(Escalate, {Medium}), f, g);
  }

  lemma ConfigurationRaisesRisk(cfg: Config, f: ChangedFile, g: ChangedFile)
    requires f.category == Source && g.category == Configuration && !f.secret && !g.secret
    requires Categories([f]) == {f.category} && Categories([f, g]) == {f.category, g.category}
    requires ScopeOf(cfg, [f]).Small? && ScopeOf(cfg, [f, g]).Small?
    ensures RiskOf(cfg, [f], Sound) == Low && RiskOf(cfg, [f, g], Sound) == Medium
  {
  }

  /** Default REJECT: a configuration file alone is rejected, a lock file added to it
      gets the pair escalated. */
  lemma RejectDefaultIsMilder(f: ChangedFile, g: ChangedFile)
    requires f.category == Configuration && g.category == Dependency
    requires f.directories == {} && g.directories == {} && !f.secret && !g.secret
    ensures Permissive(Reject, {Low}).Valid() && Grows([f], [f, g])
    ensures Evaluate(Permissive(Reject, {Low}), [f], Sound).outcome == Reject
    ensures Evaluate(Permissive(Reject, {Low}), [f, g], Sound).outcome == Escalate
  {
    PairFacts(f, g);
    PermissiveIsQuiet(Reject, {Low}, [f]);
  }

  lemma MilderWhenInspected(inspect: string -> ChangedFile, py: string, ini: string, lock: string)
    requires inspect(py) == ChangedFile(py, Source, {}, false)
    requires inspect(ini) == ChangedFile(ini, Configuration, {}, false)
    requires inspect(lock) == ChangedFile(lock, Dependency, {}, false)
    ensures Evaluate(Permissive(Escalate, {Medium}), Map(inspect, [py]), Sound).outcome == Escalate
    ensures Evaluate(Permissive(Escalate, {Medium}), Map(inspect, [py, ini]), Sound).outcome == Approve
    ensures Evaluate(Permissive(Reject, {Low}), Map(inspect, [ini]), Sound).outcome == Reject
    ensures Evaluate(Permissive(Reject, {Low}), Map(inspect, [ini, lock]), Sound).outcome == Escalate
  {
    MapTwo(inspect, py, ini, inspect(py), inspect(ini));
    MapTwo(inspect, ini, lock, inspect(ini), inspect(lock));
    GapInRiskLevelsIsMilder(inspect(py), inspect(ini));
    RejectDefaultIsMilder(inspect(ini), inspect(lock));
  }

  /** Both happen to the paths `.py`, `.ini` and `.lock`. */
  lemma MilderOnPaths(py: string, ini: string, lock: string)
    requires |py| == 3 && py[0] == '.' && py[1] == 'p' && py[2] == 'y'
    requires |ini| == 4 && ini[0] == '.' && ini[1] == 'i' && ini[2] == 'n' && ini[3] == 'i'
    requires |lock| == 5 && lock[0] == '.' && lock[1] == 'l' && lock[2] == 'o' && lock[3] == 'c' && lock[4] == 'k'
    ensures Evaluate(Permissive(Escalate, {Medium}), Map(Inspect, [py]), Sound).outcome == Escalate
    ensures Evaluate(Permissive(Escalate, {Medium}), Map(Inspect, [py, ini]), Sound).outcome == Approve
    ensures Evaluate(Permissive(Reject, {Low}), Map(Inspect, [ini]), Sound).outcome == Reject
    ensures Evaluate(Permissive(Reject, {Low}), Map(Inspect, [ini, lock]), Sound).outcome == Escalate
  {
    SourceInspected(py);
    ConfigurationInspected(ini);
    LockInspected(lock);
    MilderWhenInspected(Inspect, py, ini, lock);
  }

  /** A passing proposal with an empty patch that names a security file is filed as HIGH. */
  lemma BlankPatchHidesCritical(cfg: Config, f: ChangedFile)
    requires f.category == Security
    ensures RiskOf(cfg, [f], Sound.(blankPatch := true)) == Critical
    ensures Evaluate(cfg, [f], Sound.(blankPatch := true)) == Decision(Reject, {InvalidProposal}, High)
  {
    assert f in [f];
  }

  /** For instance the file `.env`. */
  lemma BlankPatchOnPath(cfg: Config, env: string)
    requires |env| == 4 && env[0] == '.' && env[1] == 'e' && env[2] == 'n' && env[3] == 'v'
    ensures Evaluate(cfg, [Inspect(env)], Sound.(blankPatch := true)).risk == High
    ensures RiskOf(cfg, [Inspect(env)], Sound.(blankPatch := true)) == Critical
  {
    SecretInspected(env);
    BlankPatchHidesCritical(cfg, Inspect(env));
  }
}
