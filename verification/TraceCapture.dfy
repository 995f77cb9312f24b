/**
 * When the log handlers keep only the metadata of a node, and what that means for the
 * delivery order: the convergence of create and finish, for nodes that are not captured.
 */
module TraceCapture {
  import opened Wrappers
  import opened LogProtocol
  import opened LogSafety
  import opened LogConvergence
  import R = LogRendezvous

  // ----- The helpers of the handlers -----

  /** `value.get(key)` of an object; anything else has no fields. */
  function Field(v: Json, key: string): Json {
    if v.Obj? && key in v.fields then v.fields[key] else Null
  }

  function NodeProcessData(processData: Json): Json {
    if Field(processData, "node_options").Obj? then Field(processData, "node_options") else processData
  }

  /** The process data ask for capture: of any node, or of a GitHub node that comments. */
  predicate MarksProcessData(github: bool, processData: Json) {
    || Field(processData, "_external_effect_output_sensitive") == Bool(true)
    || (github && Field(NodeProcessData(processData), "action") == Str("comment_pr"))
  }

  /** The metadata ask for capture: of any node, or of a GitHub node that commented. */
  predicate MarksMetadata(github: bool, metadata: Json) {
    || Field(Field(metadata, "external_effect_output"), "sensitive") == Bool(true)
    || (github && HasCommentEffect(metadata))
  }

  predicate HasCommentEffect(metadata: Json) {
    var effect := Field(metadata, "external_effect");
    Field(effect, "provider") == Str("github") && Field(effect, "operation") == Str("github.issue_comment.create")
  }

  predicate UsesMetadataOnlyProviderCapture(nodeType: Option<string>, processData: Json, metadata: Json) {
    if Field(processData, "_external_effect_output_sensitive") == Bool(true)
      || Field(Field(metadata, "external_effect_output"), "sensitive") == Bool(true)
    then true
    else if nodeType == Some("httpRequestNode") || nodeType == Some("slackPostNode") then true
    else if nodeType != Some("githubNode") then false
    else if Field(NodeProcessData(processData), "action") == Str("comment_pr") then true
    else HasCommentEffect(metadata)
  }

  /** The object `v` has this entry. */
  predicate Has(v: Json, key: string, entry: Json) { v.Obj? && key in v.fields && v.fields[key] == entry }

  /** The action of a node is that of its options where these are an object, else its own. */
  ghost predicate ActionIs(processData: Json, action: string) {
    if exists options :: Has(processData, "node_options", options) && options.Obj?
    then exists options :: Has(processData, "node_options", options) && Has(options, "action", Str(action))
    else Has(processData, "action", Str(action))
  }

  ghost predicate ReportsComment(metadata: Json) {
    exists effect ::
      && Has(metadata, "external_effect", effect)
      && Has(effect, "provider", Str("github")) && Has(effect, "operation", Str("github.issue_comment.create"))
  }

  lemma FieldIff(v: Json, key: string, entry: Json)
    requires entry != Null
    ensures Field(v, key) == entry <==> Has(v, key, entry)
  {
  }

  lemma ActionIff(processData: Json, action: string)
    ensures Field(NodeProcessData(processData), "action") == Str(action) <==> ActionIs(processData, action)
  {
    var options := Field(processData, "node_options");
    FieldIff(options, "action", Str(action));
    FieldIff(processData, "action", Str(action));
    if options.Obj? { FieldIff(processData, "node_options", options); }
  }

  /** Exactly which nodes are captured: marked ones, the HTTP and Slack ones, and GitHub nodes that comment. */
  lemma CapturedIff(nodeType: Option<string>, processData: Json, metadata: Json)
    ensures UsesMetadataOnlyProviderCapture(nodeType, processData, metadata) <==>
      || Has(processData, "_external_effect_output_sensitive", Bool(true))
      || (exists policy :: Has(metadata, "external_effect_output", policy) && Has(policy, "sensitive", Bool(true)))
      || nodeType in {Some("httpRequestNode"), Some("slackPostNode")}
      || (nodeType == Some("githubNode") && (ActionIs(processData, "comment_pr") || ReportsComment(metadata)))
    ensures DefersProviderCaptureUntilFinish(nodeType) <==> nodeType in {Some("workflowNode"), Some("loopNode")}
  {
    ActionIff(processData, "comment_pr");
    PolicyIff(metadata);
    CommentIff(metadata);
    FieldIff(processData, "_external_effect_output_sensitive", Bool(true));
    hide Field, Has, ActionIs, ReportsComment, HasCommentEffect, NodeProcessData;
  }

  lemma PolicyIff(metadata: Json)
    ensures Field(Field(metadata, "external_effect_output"), "sensitive") == Bool(true) <==>
      exists policy :: Has(metadata, "external_effect_output", policy) && Has(policy, "sensitive", Bool(true))
  {
    var policy := Field(metadata, "external_effect_output");
    FieldIff(policy, "sensitive", Bool(true));
    if policy != Null { FieldIff(metadata, "external_effect_output", policy); }
  }

  lemma CommentIff(metadata: Json)
    ensures HasCommentEffect(metadata) <==> ReportsComment(metadata)
  {
    var effect := Field(metadata, "external_effect");
    FieldIff(effect, "provider", Str("github"));
    FieldIff(effect, "operation", Str("github.issue_comment.create"));
    if effect != Null { FieldIff(metadata, "external_effect", effect); }
  }

  predicate DefersProviderCaptureUntilFinish(nodeType: Option<string>) {
    nodeType == Some("workflowNode") || nodeType == Some("loopNode")
  }

  /** The handlers' helpers; what a summary holds, the sanitiser and the downstream mark stay arbitrary. */
  datatype Helpers = Helpers(
    summarize: (Option<string>, Json, Json) -> Json,
    providerRecords: (seq<PayloadRecord>, Option<string>, Json, Json) -> seq<PayloadRecord>,
    sanitizeSpan: (string, Json) -> Json,
    downstream: (Json, string) -> Json)

  function EnvOf(helpers: Helpers): Env {
    Env(
      nodeType => DefersProviderCaptureUntilFinish(nodeType),
      (nodeType, processData, metadata) => UsesMetadataOnlyProviderCapture(nodeType, processData, metadata),
      (nodeType, processData, metadata) =>
        if UsesMetadataOnlyProviderCapture(nodeType, processData, metadata)
        then Some(helpers.summarize(nodeType, processData, metadata)) else None,
      helpers.providerRecords, helpers.sanitizeSpan, helpers.downstream)
  }

  // ----- Nodes that are not captured -----

  /** Types that are captured only when the data ask for it. */
  predicate IsOrdinaryType(nodeType: string) {
    nodeType !in {"httpRequestNode", "slackPostNode", "workflowNode", "loopNode"}
  }

  /** Cleaning metadata never adds a mark. */
  ghost predicate AddsNoMarks(helpers: Helpers) {
    && (forall t, github, md :: !MarksMetadata(github, md) ==> !MarksMetadata(github, helpers.sanitizeSpan(t, md)))
    && (forall github, md, verdict ::
         !MarksMetadata(github, md) ==> !MarksMetadata(github, helpers.downstream(md, verdict)))
  }

  /** Some row of the node may be a GitHub node's. */
  predicate MayBeGithub(c: NodeCreation, f: NodeFinish) { IsTypeOf(c, f, "githubNode") }

  /** One create and one finish of a node that neither its type nor their data mark for capture. */
  predicate IsOrdinaryPair(c: NodeCreation, f: NodeFinish) {
    var github := MayBeGithub(c, f);
    && c.node == f.node
    && IsOrdinaryType(c.nodeType) && IsOrdinaryType(NodeTypeOr(f.nodeType, "unknown"))
    && !MarksProcessData(github, c.processData) && !MarksProcessData(github, f.processData)
    && !MarksMetadata(github, c.traceMetadata) && !MarksMetadata(github, f.traceMetadata)
    && BelongTo(c.node, c.payloads) && BelongTo(f.node, f.payloads)
  }

  lemma UnmarkedIsNotCaptured(github: bool, nodeType: Option<string>, processData: Json, metadata: Json)
    requires nodeType.Some? ==> IsOrdinaryType(nodeType.value)
    requires nodeType == Some("githubNode") ==> github
    requires !MarksProcessData(github, processData) && !MarksMetadata(github, metadata)
    ensures !UsesMetadataOnlyProviderCapture(nodeType, processData, metadata)
  {
  }

  lemma EmptyDataMarkNothing(github: bool, v: Json)
    ensures !MarksProcessData(github, v) ==> !MarksProcessData(github, OrEmpty(v))
    ensures !MarksMetadata(github, v) ==> !MarksMetadata(github, OrEmpty(v))
  {
  }

  /** Ordinary pairs are what convergence asks for. */
  lemma OrdinaryPairsConverge(helpers: Helpers, c: NodeCreation, f: NodeFinish)
    requires AddsNoMarks(helpers) && IsOrdinaryPair(c, f)
    ensures Pair(EnvOf(helpers), c, f, md => !MarksMetadata(MayBeGithub(c, f), md))
  {
    hide MarksProcessData, MarksMetadata, IsOrdinaryType, UsesMetadataOnlyProviderCapture;
    var env, github := EnvOf(helpers), MayBeGithub(c, f);
    var calm := (md: Json) => !MarksMetadata(github, md);
    UnmarkedIsNotCaptured(github, Some(c.nodeType), c.processData, c.traceMetadata);
    UnmarkedIsNotCaptured(github, f.nodeType, f.processData, f.traceMetadata);
    OrdinaryTypesAreNotDeferred(c.nodeType);
    EmptyDataMarkNothing(github, c.processData);
    EmptyDataMarkNothing(github, f.processData);
    EmptyDataMarkNothing(github, f.traceMetadata);
    NullMarksNothing(github);
    forall t, pd, md | IsTypeOf(c, f, t) && IsProcessDataOf(c, f, pd) && calm(md)
      ensures !env.metadataOnly(Some(t), pd, md)
    {
      UnmarkedIsNotCaptured(github, Some(t), pd, md);
    }
  }

  lemma OrdinaryTypesAreNotDeferred(nodeType: string)
    requires IsOrdinaryType(nodeType)
    ensures !DefersProviderCaptureUntilFinish(Some(nodeType))
  {
  }

  lemma NullMarksNothing(github: bool)
    ensures !MarksMetadata(github, Null)
  {
  }

  /**
   * With the handlers' own rules for capture: any order, duplication and interleaving of the
   * create and the finish of an ordinary node, amid any other traffic, ends with the row of
   * the finish and exactly the payload ids of both messages.
   */
  lemma OrdinaryNodesConverge(
      helpers: Helpers, c: NodeCreation, f: NodeFinish, actions: seq<Action>, created: HandlerId,
      finished: HandlerId)
    requires AddsNoMarks(helpers) && IsOrdinaryPair(c, f)
    requires var env := EnvOf(helpers);
      var s := Reached(env, actions);
      && OnlyPairDelivered(env, c, f, s)
      && created in s.handlers && s.handlers[created] == Handler(CreateNode(c), s.handlers[created].phase)
      && finished in s.handlers && s.handlers[finished] == Handler(FinishNode(f), s.handlers[finished].phase)
      && Through(s.handlers[created].phase) && Through(s.handlers[finished].phase)
    ensures var db := Reached(EnvOf(helpers), actions).db;
      && c.node in db.nodes && ViewOf(db.nodes[c.node]) == FinishedView(f)
      && PayloadsOfNode(db, c.node) == PairIds(c, f)
  {
    hide IsOrdinaryPair, AddsNoMarks, EnvOf, Pair;
    OrdinaryPairsConverge(helpers, c, f);
    OrderDoesNotMatter(
      EnvOf(helpers), c, f, md => !MarksMetadata(MayBeGithub(c, f), md), actions, created, finished);
  }

  // ----- The hypotheses can be met -----

  /** Helpers that leave all metadata alone. */
  function PlainHelpers(): Helpers {
    Helpers((_, _, _) => EMPTY, (records, _, _, _) => records, (_, md) => md, (md, _) => md)
  }

  /** Run, node and finish delivered once each, one after the other. */
  function OneDeliveryEach(): seq<Action> {
    (R.Uninterrupted(0, R.RUN_CREATED) + R.Notified(1, R.NODE_CREATED)) + R.Uninterrupted(3, R.NODE_FINISHED)
  }

  lemma OneDeliveryEachIsAcknowledged(env: Env)
    requires FinishSummary(env, R.NODE_FINISHED.finish).None?
    ensures Reached(env, OneDeliveryEach()).handlers == map[
      0 := Handler(R.RUN_CREATED, Acked), 1 := Handler(R.NODE_CREATED, Acked), 3 := Handler(R.NODE_FINISHED, Acked)]
  {
    var s1 := Exec(env, Start(), R.Uninterrupted(0, R.RUN_CREATED));
    R.RunIsCreated(env);
    var s2 := Exec(env, s1, R.Notified(1, R.NODE_CREATED));
    R.NodeIsCreated(env, s1);
    R.FinishIsCommitted(env, s2);
    ExecSplits(env, Start(), R.Uninterrupted(0, R.RUN_CREATED), R.Notified(1, R.NODE_CREATED));
    ExecSplits(
      env, Start(), R.Uninterrupted(0, R.RUN_CREATED) + R.Notified(1, R.NODE_CREATED), R.Uninterrupted(3, R.NODE_FINISHED));
  }

  /** A run with an ordinary pair that satisfies everything `OrdinaryNodesConverge` asks for. */
  lemma HypothesesAreMet()
    ensures var helpers, c, f := PlainHelpers(), R.NODE_CREATED.creation, R.NODE_FINISHED.finish;
      var s := Reached(EnvOf(helpers), OneDeliveryEach());
      && AddsNoMarks(helpers) && IsOrdinaryPair(c, f) && OnlyPairDelivered(EnvOf(helpers), c, f, s)
      && 1 in s.handlers && s.handlers[1] == Handler(CreateNode(c), Acked)
      && 3 in s.handlers && s.handlers[3] == Handler(FinishNode(f), Acked)
  {
    hide OneDeliveryEach, Exec;
    UnmarkedIsNotCaptured(false, Some("llmNode"), EMPTY, EMPTY);
    OneDeliveryEachIsAcknowledged(EnvOf(PlainHelpers()));
  }
}
