/**
 * The orchestrator: for each consumed transaction it skips a transaction already decided,
 * otherwise builds the features, evaluates the rules, asks the ML service, blends the two scores,
 * classifies the blend, saves the decision and publishes it, pushes it to the dashboard stream and
 * counts it, all before the commit that inserts it. Latency is recorded once on every way out.
 * Scores are integers in units of 1/10000.
 */
module FraudProcessing {
  import opened Wrappers
  import opened Numeric
  import opened FraudTypes
  import opened FraudDecisionMapping
  import RuleEngine
  import MlFeatures
  import MlInference
  import RiskAggregation
  import DecisionEngine
  import FeatureEngineering
  import Velocity

  /** How waiting for the ML future ended. */
  datatype AwaitOutcome = Completed | Interrupted | ExecutionFailed

  /**
   * How the commit of the surrounding transaction treats the new decision's insert: it goes in,
   * or the unique constraint on the transaction id refuses it because a concurrent delivery of the
   * same transaction committed its decision first.
   */
  datatype CommitOutcome = Committed | UniqueViolation

  /** `resolveMlScore`: the client's score, or the fallback when waiting for it is interrupted or fails. */
  function ResolveMlScore(mlCall: MlInference.CallOutcome, fallbackScore: int, awaited: AwaitOutcome): (units: int)
    ensures awaited != Completed ==> units == fallbackScore
    ensures awaited == Completed ==> 0 <= units <= SCALE4
  {
    match awaited
    case Completed => MlInference.PredictScore(mlCall, Some(Units4(fallbackScore)))
    case Interrupted => fallbackScore
    case ExecutionFailed => fallbackScore
  }

  /** Everything `processAndPublish` works out about a new transaction before saving it. */
  datatype Assessment = Assessment(
    ruleEvaluation: RuleEngine.RuleEvaluationResult,
    ruleScore: int,
    request: MlFeatures.MlPredictionRequest,
    mlScore: int,
    riskScore: int,
    decision: DecisionType)

  /** The assessment of a transaction with the given features; `mlCall` is what the ML service answers. */
  function Assess(rules: seq<RuleEngine.Rule>, transaction: TransactionCreatedEvent, featureContext: FeatureContext,
                  mlCall: MlInference.CallOutcome, awaited: AwaitOutcome): Assessment
  {
    var ruleEvaluation := RuleEngine.RuleEvaluationResult(
      RuleEngine.Round4(RuleEngine.RuleMean(rules, transaction, featureContext)),
      RuleEngine.ScoreTable(rules, transaction, featureContext));
    var ruleScore := Scale4(ruleEvaluation.normalizedScore);
    var mlScore := ResolveMlScore(mlCall, ruleScore, awaited);
    var riskScore := RiskAggregation.Aggregate(Some(Units4(ruleScore)), Some(Units4(mlScore)));
    Assessment(ruleEvaluation, ruleScore, MlFeatures.BuildRequest(transaction, Some(featureContext)),
               mlScore, riskScore, DecisionEngine.Decide(Some(Units4(riskScore))))
  }

  /** The scoring steps of `processAndPublish`, from the rule evaluation to the verdict. */
  method AssessTransaction(rules: seq<RuleEngine.Rule>, transaction: TransactionCreatedEvent, featureContext: FeatureContext,
                           mlCall: MlInference.CallOutcome, awaited: AwaitOutcome)
    returns (assessment: Assessment)
    ensures assessment == Assess(rules, transaction, featureContext, mlCall, awaited)
  {
    var ruleEvaluation := RuleEngine.Evaluate(rules, transaction, featureContext);
    var ruleScore := Scale4(ruleEvaluation.normalizedScore);
    var mlPredictionRequest := MlFeatures.BuildRequest(transaction, Some(featureContext));
    var mlScore := ResolveMlScore(mlCall, ruleScore, awaited);
    var riskScore := RiskAggregation.Aggregate(Some(Units4(ruleScore)), Some(Units4(mlScore)));
    var decision := DecisionEngine.Decide(Some(Units4(riskScore)));
    assessment := Assessment(ruleEvaluation, ruleScore, mlPredictionRequest, mlScore, riskScore, decision);
  }

  /**
   * The rule score is the engine's weighted mean rounded half-up to 4 decimals (rounding the
   * already rounded score again changes nothing); every score lies in [0, 1]; the verdict follows
   * the thresholds on the risk score; and when the ML score is not available, whether because
   * waiting for it failed or because the call itself failed, the ML score and the risk score are
   * both the rule score.
   */
  lemma AssessProperties(rules: seq<RuleEngine.Rule>, transaction: TransactionCreatedEvent, featureContext: FeatureContext,
                         mlCall: MlInference.CallOutcome, awaited: AwaitOutcome)
    ensures var a := Assess(rules, transaction, featureContext, mlCall, awaited);
      && a.ruleScore == Scale4(RuleEngine.RuleMean(rules, transaction, featureContext))
      && 0 <= a.ruleScore <= SCALE4 && 0 <= a.mlScore <= SCALE4 && 0 <= a.riskScore <= SCALE4
      && (a.decision == BLOCKED <==> a.riskScore >= 7000)
      && (a.decision == REVIEW <==> 4000 <= a.riskScore < 7000)
      && (a.decision == APPROVED <==> a.riskScore < 4000)
      && (awaited != Completed || MlInference.FetchScore(mlCall).Failure? ==> a.mlScore == a.ruleScore && a.riskScore == a.ruleScore)
  {
    var mean := RuleEngine.RuleMean(rules, transaction, featureContext);
    RuleEngine.RuleMeanUnitInterval(rules, transaction, featureContext);
    Scale4OfUnits(Scale4(mean));
    Scale4Between(mean, 0, SCALE4);
    var a := Assess(rules, transaction, featureContext, mlCall, awaited);
    MlInference.ClampedScoreOfUnits(a.ruleScore);
    RiskAggregation.AggregateOfEqualScores(a.ruleScore);
  }

  /** What the service has done so far: the repository by transaction id, the published events, the stream pushes, the verdict counter and the latency samples. */
  datatype ServiceState = ServiceState(
    repository: map<string, FraudDecision>,
    publishedEvents: seq<FraudDecisionEvent>,
    streamedDecisions: seq<FraudDecision>,
    decisionCounts: multiset<DecisionType>,
    latencySamples: nat)

  const INITIAL_STATE: ServiceState := ServiceState(map[], [], [], multiset{}, 0)

  /**
   * The decision as `save` leaves it, with the id and creation time that `@PrePersist` assigns.
   * The insert itself waits for the commit.
   */
  function SavedDecision(transaction: TransactionCreatedEvent, assessment: Assessment, savedId: string, savedAt: int): FraudDecision
  {
    ToEntity(transaction, Some(Units4(assessment.riskScore)), assessment.decision,
             Some(Units4(assessment.ruleScore)), Some(Units4(assessment.mlScore)))
      .(id := Some(savedId), createdAt := Some(savedAt))
  }

  /** The records after publishing, streaming and counting `saved`. */
  function Sent(st: ServiceState, saved: FraudDecision): ServiceState
  {
    st.(publishedEvents := st.publishedEvents + [ToEvent(saved)],
        streamedDecisions := st.streamedDecisions + [saved],
        decisionCounts := st.decisionCounts + multiset{saved.decision})
  }

  /**
   * The state after `processAndPublish`. A transaction already decided only adds a latency
   * sample. Otherwise the decision is saved, which only queues its insert, then published,
   * streamed and counted; the commit after the method body then stores it, unless the unique
   * constraint refuses it, in which case the call fails with what it sent still sent.
   */
  function Processed(st: ServiceState, transaction: TransactionCreatedEvent, assessment: Assessment,
                     commit: CommitOutcome, savedId: string, savedAt: int): ServiceState
  {
    var timed := st.(latencySamples := st.latencySamples + 1);
    if transaction.transactionId in st.repository then timed
    else
      var saved := SavedDecision(transaction, assessment, savedId, savedAt);
      var sent := Sent(timed, saved);
      if commit == UniqueViolation then sent
      else sent.(repository := st.repository[saved.transactionId := saved])
  }

  /** Whether `processAndPublish` ends with the commit throwing the unique-constraint violation. */
  predicate CallFails(st: ServiceState, transaction: TransactionCreatedEvent, commit: CommitOutcome)
  {
    transaction.transactionId !in st.repository && commit == UniqueViolation
  }

  /**
   * `processAndPublish` as its `catch` of the unique-constraint violation means it: a refused
   * insert is caught before anything is published, and the call then only adds a latency sample.
   */
  function ProcessedIntended(st: ServiceState, transaction: TransactionCreatedEvent, assessment: Assessment,
                             commit: CommitOutcome, savedId: string, savedAt: int): ServiceState
  {
    if CallFails(st, transaction, commit) then st.(latencySamples := st.latencySamples + 1)
    else Processed(st, transaction, assessment, commit, savedId, savedAt)
  }

  /** The verdicts of a sequence of decisions. */
  function Verdicts(decisions: seq<FraudDecision>): multiset<DecisionType>
  {
    if |decisions| == 0 then multiset{}
    else Verdicts(decisions[..|decisions| - 1]) + multiset{decisions[|decisions| - 1].decision}
  }

  /**
   * What holds whatever the commits do: each event describes the decision streamed with it, the
   * counter holds exactly their verdicts, and every stored decision, kept under its own
   * transaction id, has been streamed.
   */
  predicate Accounted(st: ServiceState)
  {
    && |st.publishedEvents| == |st.streamedDecisions|
    && (forall i :: 0 <= i < |st.streamedDecisions| ==> st.publishedEvents[i] == ToEvent(st.streamedDecisions[i]))
    && (forall id :: id in st.repository ==> st.repository[id].transactionId == id && st.repository[id] in st.streamedDecisions)
    && st.decisionCounts == Verdicts(st.streamedDecisions)
  }

  /**
   * The records agree one to one: besides `Accounted`, one stored decision per event and stream
   * push, every streamed decision being the one stored for its transaction.
   */
  predicate Consistent(st: ServiceState)
  {
    && Accounted(st)
    && |st.streamedDecisions| == |st.repository|
    && (forall i :: 0 <= i < |st.streamedDecisions| ==>
          st.streamedDecisions[i].transactionId in st.repository
          && st.repository[st.streamedDecisions[i].transactionId] == st.streamedDecisions[i])
    && (forall i, j :: 0 <= i < j < |st.streamedDecisions| ==> st.streamedDecisions[i].transactionId != st.streamedDecisions[j].transactionId)
  }

  lemma InitialConsistent()
    ensures Consistent(INITIAL_STATE)
  {
  }

  /** Every call keeps the records accounted for, a call whose commit is refused included. */
  lemma ProcessedPreservesAccounted(st: ServiceState, transaction: TransactionCreatedEvent, assessment: Assessment,
                                    commit: CommitOutcome, savedId: string, savedAt: int)
    requires Accounted(st)
    ensures Accounted(Processed(st, transaction, assessment, commit, savedId, savedAt))
  {
    if transaction.transactionId !in st.repository {
      var saved := SavedDecision(transaction, assessment, savedId, savedAt);
      assert saved.decision == assessment.decision && saved.transactionId == transaction.transactionId;
      SentPreservesAccounted(st.(latencySamples := st.latencySamples + 1), saved);
    }
  }

  /**
   * Every call whose commit is not refused keeps the records consistent one to one; a refused
   * commit leaves a published decision that is not stored.
   */
  lemma ProcessedPreservesConsistent(st: ServiceState, transaction: TransactionCreatedEvent, assessment: Assessment,
                                     commit: CommitOutcome, savedId: string, savedAt: int)
    requires Consistent(st)
    ensures !CallFails(st, transaction, commit) ==> Consistent(Processed(st, transaction, assessment, commit, savedId, savedAt))
    ensures CallFails(st, transaction, commit) ==> !Consistent(Processed(st, transaction, assessment, commit, savedId, savedAt))
  {
    var saved := SavedDecision(transaction, assessment, savedId, savedAt);
    assert saved.decision == assessment.decision && saved.transactionId == transaction.transactionId;
    if transaction.transactionId !in st.repository && commit == Committed {
      StoreNewPreservesConsistent(st.(latencySamples := st.latencySamples + 1), saved);
    }
  }

  /** The intended `processAndPublish` keeps the records consistent one to one on every call. */
  lemma IntendedPreservesConsistent(st: ServiceState, transaction: TransactionCreatedEvent, assessment: Assessment,
                                    commit: CommitOutcome, savedId: string, savedAt: int)
    requires Consistent(st)
    ensures Consistent(ProcessedIntended(st, transaction, assessment, commit, savedId, savedAt))
  {
    if !CallFails(st, transaction, commit) {
      ProcessedPreservesConsistent(st, transaction, assessment, commit, savedId, savedAt);
    }
  }

  /** Publishing, streaming and counting a decision, and storing it or not, keeps the records accounted for. */
  lemma SentPreservesAccounted(st: ServiceState, saved: FraudDecision)
    requires Accounted(st)
    ensures Accounted(Sent(st, saved))
    ensures Accounted(Sent(st, saved).(repository := st.repository[saved.transactionId := saved]))
  {
    AppendedEvents(st.publishedEvents, st.streamedDecisions, saved);
    AppendedVerdicts(st.streamedDecisions, saved);
    AppendedAccountedStore(st.repository, st.streamedDecisions, saved);
  }

  lemma AppendedVerdicts(streamed: seq<FraudDecision>, saved: FraudDecision)
    ensures Verdicts(streamed + [saved]) == Verdicts(streamed) + multiset{saved.decision}
  {
    var s := streamed + [saved];
    assert s[..|s| - 1] == streamed;
  }

  /** Every stored decision stays streamed when one more is streamed, whether it is stored or not. */
  lemma AppendedAccountedStore(repository: map<string, FraudDecision>, streamed: seq<FraudDecision>, saved: FraudDecision)
    requires forall id :: id in repository ==> repository[id].transactionId == id && repository[id] in streamed
    ensures forall id :: id in repository ==> repository[id].transactionId == id && repository[id] in streamed + [saved]
    ensures var r := repository[saved.transactionId := saved];
      forall id :: id in r ==> r[id].transactionId == id && r[id] in streamed + [saved]
  {
  }

  /** Storing, publishing, streaming and counting a decision for a new transaction keeps the records consistent. */
  lemma StoreNewPreservesConsistent(st: ServiceState, saved: FraudDecision)
    requires Consistent(st) && saved.transactionId !in st.repository
    ensures Consistent(Sent(st, saved).(repository := st.repository[saved.transactionId := saved]))
  {
    SentPreservesAccounted(st, saved);
    assert |st.repository[saved.transactionId := saved]| == |st.repository| + 1;
    AppendedStored(st.repository, st.streamedDecisions, saved);
    AppendedDistinct(st.repository, st.streamedDecisions, saved);
  }

  /** Appending a decision and its event keeps each event describing the decision streamed with it. */
  lemma AppendedEvents(events: seq<FraudDecisionEvent>, streamed: seq<FraudDecision>, saved: FraudDecision)
    requires |events| == |streamed|
    requires forall i :: 0 <= i < |streamed| ==> events[i] == ToEvent(streamed[i])
    ensures var s := streamed + [saved];
      forall i :: 0 <= i < |s| ==> (events + [ToEvent(saved)])[i] == ToEvent(s[i])
  {
  }

  /** Storing a new decision keeps every streamed decision stored, the new one included. */
  lemma AppendedStored(repository: map<string, FraudDecision>, streamed: seq<FraudDecision>, saved: FraudDecision)
    requires saved.transactionId !in repository
    requires forall i :: 0 <= i < |streamed| ==> streamed[i].transactionId in repository && repository[streamed[i].transactionId] == streamed[i]
    ensures var s := streamed + [saved];
      var r := repository[saved.transactionId := saved];
      forall i :: 0 <= i < |s| ==> s[i].transactionId in r && r[s[i].transactionId] == s[i]
  {
  }

  /** A decision for a transaction not stored yet keeps the streamed transactions distinct. */
  lemma AppendedDistinct(repository: map<string, FraudDecision>, streamed: seq<FraudDecision>, saved: FraudDecision)
    requires saved.transactionId !in repository
    requires forall i :: 0 <= i < |streamed| ==> streamed[i].transactionId in repository
    requires forall i, j :: 0 <= i < j < |streamed| ==> streamed[i].transactionId != streamed[j].transactionId
    ensures var s := streamed + [saved];
      forall i, j :: 0 <= i < j < |s| ==> s[i].transactionId != s[j].transactionId
  {
  }

  /**
   * A transaction already decided is skipped: nothing is assessed, saved, published, streamed or
   * counted, and only a latency sample is added.
   */
  lemma DuplicateSkipped(st: ServiceState, transaction: TransactionCreatedEvent, assessment: Assessment,
                         commit: CommitOutcome, savedId: string, savedAt: int)
    requires transaction.transactionId in st.repository
    ensures Processed(st, transaction, assessment, commit, savedId, savedAt) == st.(latencySamples := st.latencySamples + 1)
  {
  }

  /**
   * For a transaction not decided yet, exactly one event is published, one push streamed and one
   * verdict counted, all describing the decision saved with the assessment's scores and the
   * assigned id and time, whatever the commit does; the decision is stored exactly when the commit
   * takes it, and the repository is otherwise unchanged. A transaction already decided changes
   * nothing but the latency samples, which grow by one on every call.
   */
  lemma PublishThenCommit(st: ServiceState, transaction: TransactionCreatedEvent, assessment: Assessment,
                          commit: CommitOutcome, savedId: string, savedAt: int)
    ensures var r := Processed(st, transaction, assessment, commit, savedId, savedAt);
      && r.latencySamples == st.latencySamples + 1
      && (transaction.transactionId in st.repository ==> r == st.(latencySamples := st.latencySamples + 1))
      && (transaction.transactionId !in st.repository ==>
            && |r.streamedDecisions| == |st.streamedDecisions| + 1
            && var decision := r.streamedDecisions[|st.streamedDecisions|];
            && r.streamedDecisions == st.streamedDecisions + [decision]
            && r.publishedEvents == st.publishedEvents + [ToEvent(decision)]
            && r.decisionCounts == st.decisionCounts + multiset{assessment.decision}
            && decision.transactionId == transaction.transactionId
            && decision.decision == assessment.decision
            && decision.riskScore == assessment.riskScore
            && decision.ruleScore == assessment.ruleScore
            && decision.mlScore == assessment.mlScore
            && decision.id == Some(savedId) && decision.createdAt == Some(savedAt)
            && (transaction.transactionId in r.repository <==> commit == Committed)
            && r.repository == if commit == Committed then st.repository[transaction.transactionId := decision] else st.repository)
  {
    ToEntityOfDecimals(transaction, assessment.riskScore, assessment.decision, assessment.ruleScore, assessment.mlScore);
  }

  /**
   * A delivery whose commit is refused, because a concurrent delivery of the same transaction
   * committed first, has still published, streamed and counted its decision, which is not stored,
   * and the call fails; the intended `processAndPublish` would only have added a latency sample.
   */
  lemma DuplicateAtCommitStillPublished(st: ServiceState, transaction: TransactionCreatedEvent, assessment: Assessment,
                                        savedId: string, savedAt: int)
    requires transaction.transactionId !in st.repository
    ensures CallFails(st, transaction, UniqueViolation)
    ensures var r := Processed(st, transaction, assessment, UniqueViolation, savedId, savedAt);
      && r.repository == st.repository
      && |r.publishedEvents| == |st.publishedEvents| + 1
      && r.publishedEvents[|st.publishedEvents|].transactionId == transaction.transactionId
      && transaction.transactionId !in r.repository
      && r.decisionCounts == st.decisionCounts + multiset{assessment.decision}
    ensures ProcessedIntended(st, transaction, assessment, UniqueViolation, savedId, savedAt)
      == st.(latencySamples := st.latencySamples + 1)
  {
    var saved := SavedDecision(transaction, assessment, savedId, savedAt);
    assert saved.transactionId == transaction.transactionId && saved.decision == assessment.decision;
    assert ToEvent(saved).transactionId == saved.transactionId;
  }

  /**
   * The intended `processAndPublish`: an event is published, a push streamed and a verdict counted
   * exactly when a new decision is stored, and then one of each, all describing it; a refused
   * insert publishes nothing. Latency is sampled once whatever happens.
   */
  lemma IntendedPublishOnlyAfterSave(st: ServiceState, transaction: TransactionCreatedEvent, assessment: Assessment,
                                     commit: CommitOutcome, savedId: string, savedAt: int)
    ensures var r := ProcessedIntended(st, transaction, assessment, commit, savedId, savedAt);
      var stored := transaction.transactionId !in st.repository && commit == Committed;
      && r.latencySamples == st.latencySamples + 1
      && (!stored ==> r == st.(latencySamples := st.latencySamples + 1))
      && (stored ==>
            && transaction.transactionId in r.repository
            && var decision := r.repository[transaction.transactionId];
            && r.publishedEvents == st.publishedEvents + [ToEvent(decision)]
            && r.streamedDecisions == st.streamedDecisions + [decision]
            && r.decisionCounts == st.decisionCounts + multiset{assessment.decision}
            && decision.decision == assessment.decision
            && decision.riskScore == assessment.riskScore
            && decision.ruleScore == assessment.ruleScore
            && decision.mlScore == assessment.mlScore
            && decision.id == Some(savedId) && decision.createdAt == Some(savedAt))
  {
    PublishThenCommit(st, transaction, assessment, commit, savedId, savedAt);
  }

  /**
   * Processing the same transaction twice stores one decision and publishes one event: once the
   * first call has committed its decision, the second, whatever its assessment and commit, only
   * adds a latency sample.
   */
  lemma ProcessTwice(st: ServiceState, transaction: TransactionCreatedEvent,
                     first: Assessment, firstId: string, firstAt: int,
                     second: Assessment, secondCommit: CommitOutcome, secondId: string, secondAt: int)
    requires transaction.transactionId !in st.repository
    ensures var once := Processed(st, transaction, first, Committed, firstId, firstAt);
      var twice := Processed(once, transaction, second, secondCommit, secondId, secondAt);
      && twice == once.(latencySamples := st.latencySamples + 2)
      && |twice.publishedEvents| == |st.publishedEvents| + 1
      && |twice.repository| == |st.repository| + 1
  {
    var saved := SavedDecision(transaction, first, firstId, firstAt);
    assert saved.transactionId == transaction.transactionId;
    assert |st.repository[saved.transactionId := saved]| == |st.repository| + 1;
  }

  /**
   * The body of the inner `try` of `processAndPublish` for a transaction not yet decided, and the
   * commit that follows it: map the assessment to a decision and save it, publish, stream and
   * count it, then commit. `failed` tells whether the commit throws. The latency sample is taken
   * afterwards.
   */
  method AssessAndSave(before: ServiceState, rules: seq<RuleEngine.Rule>, transaction: TransactionCreatedEvent,
                       featureContext: FeatureContext, mlCall: MlInference.CallOutcome, awaited: AwaitOutcome,
                       commit: CommitOutcome, savedId: string, savedAt: int)
    returns (next: ServiceState, failed: bool)
    requires transaction.transactionId !in before.repository
    ensures next.(latencySamples := before.latencySamples + 1)
      == Processed(before, transaction, Assess(rules, transaction, featureContext, mlCall, awaited), commit, savedId, savedAt)
    ensures next.latencySamples == before.latencySamples
    ensures failed == CallFails(before, transaction, commit)
  {
    var assessment := AssessTransaction(rules, transaction, featureContext, mlCall, awaited);
    next, failed := SaveAndPublish(before, transaction, assessment, commit, savedId, savedAt);
  }

  /**
   * Save (which only queues the insert), publish, stream and count, then commit: the commit either
   * stores the queued decision or throws, leaving what was sent sent.
   */
  method SaveAndPublish(before: ServiceState, transaction: TransactionCreatedEvent, assessment: Assessment,
                        commit: CommitOutcome, savedId: string, savedAt: int)
    returns (next: ServiceState, failed: bool)
    requires transaction.transactionId !in before.repository
    ensures next.(latencySamples := before.latencySamples + 1) == Processed(before, transaction, assessment, commit, savedId, savedAt)
    ensures next.latencySamples == before.latencySamples
    ensures failed == CallFails(before, transaction, commit)
  {
    next := before;
    var decisionEntity := ToEntity(transaction, Some(Units4(assessment.riskScore)), assessment.decision,
                                   Some(Units4(assessment.ruleScore)), Some(Units4(assessment.mlScore)));
    var pendingInsert := decisionEntity.(id := Some(savedId), createdAt := Some(savedAt));
    var decisionEvent := ToEvent(pendingInsert);
    next := next.(publishedEvents := next.publishedEvents + [decisionEvent]);
    next := next.(streamedDecisions := next.streamedDecisions + [pendingInsert]);
    next := next.(decisionCounts := next.decisionCounts + multiset{assessment.decision});
    if commit == Committed {
      next := next.(repository := next.repository[pendingInsert.transactionId := pendingInsert]);
      failed := false;
    } else {
      failed := true;
    }
  }

  /** The orchestrator with its collaborators' records. */
  class FraudProcessingService {
    const featureEngineeringService: FeatureEngineering.FeatureEngineeringService
    const rules: seq<RuleEngine.Rule>
    var repository: map<string, FraudDecision>
    var publishedEvents: seq<FraudDecisionEvent>
    var streamedDecisions: seq<FraudDecision>
    var decisionCounts: multiset<DecisionType>
    var latencySamples: nat

    function State(): ServiceState
      reads this
    {
      ServiceState(repository, publishedEvents, streamedDecisions, decisionCounts, latencySamples)
    }

    constructor (featureEngineeringService: FeatureEngineering.FeatureEngineeringService, rules: seq<RuleEngine.Rule>)
      ensures this.featureEngineeringService == featureEngineeringService && this.rules == rules
      ensures State() == INITIAL_STATE
    {
      this.featureEngineeringService := featureEngineeringService;
      this.rules := rules;
      repository := map[];
      publishedEvents := [];
      streamedDecisions := [];
      decisionCounts := multiset{};
      latencySamples := 0;
    }

    /**
     * `processAndPublish`, with the commit of its transaction. The ML service's answer, how
     * waiting for it ends, how the commit ends and the id and time assigned on save are
     * parameters; so are the clock reading and the velocity store fault used for the features.
     * `failed` tells whether the commit throws the unique-constraint violation out of the call.
     * The velocity store is left alone for a transaction already decided.
     */
    method ProcessAndPublish(transaction: TransactionCreatedEvent, clockMillis: int, failAt: Option<Velocity.StoreStep>,
                             mlCall: MlInference.CallOutcome, awaited: AwaitOutcome,
                             commit: CommitOutcome, savedId: string, savedAt: int)
      returns (failed: bool)
      requires IsLong(FeatureEngineering.EventTime(transaction, clockMillis))
      modifies this, featureEngineeringService.velocityTrackingService.store
      ensures var before := old(featureEngineeringService.velocityTrackingService.store.State());
        State() == Processed(old(State()), transaction,
                             Assess(rules, transaction, FeatureEngineering.BuildContext(before, transaction, clockMillis, failAt), mlCall, awaited),
                             commit, savedId, savedAt)
      ensures failed == CallFails(old(State()), transaction, commit)
      ensures var before := old(featureEngineeringService.velocityTrackingService.store.State());
        featureEngineeringService.velocityTrackingService.store.State()
          == if transaction.transactionId in old(repository) then before
             else Velocity.Track(before, transaction.userId, transaction.transactionId,
                                 FeatureEngineering.EventTime(transaction, clockMillis), failAt).0
    {
      if transaction.transactionId in repository {
        ghost var before := featureEngineeringService.velocityTrackingService.store.State();
        DuplicateSkipped(State(), transaction, Assess(rules, transaction, FeatureEngineering.BuildContext(before, transaction, clockMillis, failAt), mlCall, awaited),
                         commit, savedId, savedAt);
        latencySamples := latencySamples + 1;
        failed := false;
      } else {
        var next;
        next, failed := DecideNew(transaction, clockMillis, failAt, mlCall, awaited, commit, savedId, savedAt);
        Store(next.(latencySamples := latencySamples + 1));
      }
    }

    /**
     * The part of `processAndPublish` for a transaction not decided yet: build the features,
     * assess, save, publish and commit; returns the records as they then stand, leaving the
     * latency samples to the caller.
     */
    method DecideNew(transaction: TransactionCreatedEvent, clockMillis: int, failAt: Option<Velocity.StoreStep>,
                     mlCall: MlInference.CallOutcome, awaited: AwaitOutcome,
                     commit: CommitOutcome, savedId: string, savedAt: int)
      returns (next: ServiceState, failed: bool)
      requires IsLong(FeatureEngineering.EventTime(transaction, clockMillis))
      requires transaction.transactionId !in repository
      modifies featureEngineeringService.velocityTrackingService.store
      ensures var before := old(featureEngineeringService.velocityTrackingService.store.State());
        next.(latencySamples := latencySamples + 1)
          == Processed(State(), transaction,
                       Assess(rules, transaction, FeatureEngineering.BuildContext(before, transaction, clockMillis, failAt), mlCall, awaited),
                       commit, savedId, savedAt)
      ensures next.latencySamples == latencySamples
      ensures failed == CallFails(State(), transaction, commit)
      ensures featureEngineeringService.velocityTrackingService.store.State()
        == Velocity.Track(old(featureEngineeringService.velocityTrackingService.store.State()), transaction.userId,
                          transaction.transactionId, FeatureEngineering.EventTime(transaction, clockMillis), failAt).0
    {
      var featureContext := featureEngineeringService.BuildFeatureContext(transaction, clockMillis, failAt);
      next, failed := AssessAndSave(State(), rules, transaction, featureContext, mlCall, awaited, commit, savedId, savedAt);
    }

    /** Replaces the records with `next`. */
    method Store(next: ServiceState)
      modifies this
      ensures State() == next
    {
      repository := next.repository;
      publishedEvents := next.publishedEvents;
      streamedDecisions := next.streamedDecisions;
      decisionCounts := next.decisionCounts;
      latencySamples := next.latencySamples;
    }
  }
}
