/** The decision logic of the HTTP handlers: start a session, look up its
    status, submit feedback and list all sessions.  The handlers share one
    session table and one table of per-session workflow services. */
module Gateway {
  import opened Models
  import opened Services
  import opened Workflow

  const DefaultTargetAudience := "Health-conscious millennials aged 25-40"
  const DefaultBrandGuidelines := "Maintain brand authenticity and social responsibility"
  const SummaryLength := 50

  /** Why a handler refused a request. */
  datatype Failure =
    | NotFound            // unknown session id
    | AlreadyCompleted    // feedback after the session completed
    | WorkflowMissing     // no workflow service registered for the session
    | ConfigurationError  // the provider could not be set up (no API key, client failure)

  datatype Result<T> = Ok(value: T) | Err(failure: Failure)

  /** The record a start request creates, before any node has run. */
  function NewSession(request: StartRequest): (s: Session)
    ensures s.status == Initializing && s.iteration == 0
    ensures s.feedbackHistory == [] && s.currentProposal == "" && s.initialProposal == ""
    ensures s.humanFeedback == "" && s.contextInfo == "" && s.infoRequestedQuery == ""
    ensures s.campaignObjective == "Launch campaign for " + request.productName + ": " + request.campaignGoal
    ensures s.budgetAllocation == request.totalBudget
    ensures DecideNextNode(s) == ToInitialAnalysis
  {
    Session(
      currentProposal := "", initialProposal := "", humanFeedback := "",
      status := Initializing, iteration := 0, feedbackHistory := [],
      infoRequestedQuery := "", contextInfo := "",
      campaignObjective := "Launch campaign for " + request.productName + ": " + request.campaignGoal,
      targetAudience := DefaultTargetAudience,
      budgetAllocation := request.totalBudget,
      brandGuidelines := DefaultBrandGuidelines)
  }

  /** A request that relies on every default describes the organic-smoothie launch. */
  lemma DefaultRequestSession()
    ensures NewSession(DefaultStartRequest()).campaignObjective ==
      "Launch campaign for " + "EcoFresh Organic Smoothies" + ": " +
      "Launch new organic smoothie line targeting health-conscious millennials"
    ensures NewSession(DefaultStartRequest()).budgetAllocation == "$500,000"
  {
  }

  /** The listing's campaign text: the first 50 characters of the objective
      (all of it when shorter), always followed by "...". */
  function Summary(objective: string): (r: string)
    ensures |r| == (if |objective| < SummaryLength then |objective| else SummaryLength) + 3
    ensures r[..|r| - 3] <= objective
    ensures r[|r| - 3..] == "..."
  {
    var head := if |objective| <= SummaryLength then objective else objective[..SummaryLength];
    assert (head + "...")[..|head|] == head;
    head + "..."
  }

  /** One entry of the session listing. */
  datatype SessionSummary = SessionSummary(sessionId: string, status: Status, iteration: int, campaign: string)

  datatype SessionListing = SessionListing(totalSessions: int, sessions: seq<SessionSummary>)

  function Summarize(id: string, s: Session): SessionSummary
  {
    SessionSummary(id, s.status, s.iteration, Summary(s.campaignObjective))
  }

  /** Storing a session of the lifecycle shape keeps every stored session of that shape. */
  lemma StoreKeepsLifecycle(sessions: map<string, Session>, id: string, s: Session)
    requires AllLifecycle(sessions)
    requires Lifecycle(s)
    ensures AllLifecycle(sessions[id := s])
  {
  }

  /** Every session in the table has the stored-session shape. */
  predicate AllLifecycle(sessions: map<string, Session>)
  {
    forall k :: k in sessions ==> Lifecycle(sessions[k])
  }

  /** The service: the session table and the workflow service each started
      session keeps for its revision. */
  class App {
    const manager: SessionManager
    var activeWorkflows: map<string, Provider>

    /** The table is consistent and every stored session has the lifecycle shape. */
    ghost predicate Valid()
      reads this, manager
    {
      && manager.Valid()
      && AllLifecycle(manager.sessions)
    }

    /** Every stored session has a workflow service. */
    ghost predicate Registered()
      reads this, manager
    {
      manager.sessions.Keys <= activeWorkflows.Keys
    }

    constructor ()
      ensures Valid() && Registered() && fresh(manager)
      ensures manager.sessions == map[] && activeWorkflows == map[]
    {
      manager := new SessionManager();
      activeWorkflows := map[];
    }

    /** Starts a campaign under the fresh id `id`.  `service` is the provider
        built for this request, or None when it could not be built. */
    method StartCampaignWorkflow(request: StartRequest, id: string, service: Option<Provider>)
      returns (r: Result<CampaignResponse>)
      requires Valid()
      requires id !in manager.sessions
      modifies this, manager
      ensures Valid()
      ensures old(Registered()) ==> Registered()
      ensures service.None? ==> r == Err(ConfigurationError) && unchanged(this, manager)
      ensures service.Some? ==>
        var s := InitialAnalysisNode(NewSession(request), service.value);
        && manager.sessions == old(manager.sessions)[id := s]
        && manager.order == old(manager.order) + [id]
        && activeWorkflows == old(activeWorkflows)[id := service.value]
        && r == Ok(CampaignResponse(id, s.currentProposal, s.status, s.iteration,
                                    StartDetails(request.productName, request.campaignGoal, request.totalBudget)))
      ensures r.Ok? ==> r.value.status == AwaitingFeedback && r.value.iteration == 1
    {
      if service.None? {
        return Err(ConfigurationError);
      }
      var initial := NewSession(request);
      var sessionId := manager.CreateSession(id, initial);
      activeWorkflows := activeWorkflows[sessionId := service.value];
      var processed := InitialAnalysisNode(initial, service.value);
      manager.UpdateSession(sessionId, processed);
      r := Ok(CampaignResponse(sessionId, processed.currentProposal, processed.status, processed.iteration,
                               StartDetails(request.productName, request.campaignGoal, request.totalBudget)));
    }

    /** The status view of a stored session. */
    method GetCampaignStatus(id: string) returns (r: Result<StatusView>)
      ensures r.Err? <==> id !in manager.sessions
      ensures r.Err? ==> r.failure == NotFound
      ensures r.Ok? ==>
        var s := manager.sessions[id];
        && r.value.sessionId == id
        && r.value.currentProposal == s.currentProposal
        && r.value.initialProposal == s.initialProposal
        && r.value.status == s.status
        && r.value.iteration == s.iteration
        && r.value.feedbackHistory == s.feedbackHistory
        && r.value.contextInfo == s.contextInfo
        && r.value.details == CampaignParameters(s.campaignObjective, s.budgetAllocation, s.targetAudience)
      ensures r.Ok? && Valid() ==> r.value.iteration == |r.value.feedbackHistory| + 1
    {
      var known := manager.SessionExists(id);
      if !known {
        return Err(NotFound);
      }
      var found := manager.GetSession(id);
      var s := found.value;
      r := Ok(StatusView(id, s.currentProposal, s.status, s.iteration, s.feedbackHistory, s.contextInfo,
                         s.initialProposal, CampaignParameters(s.campaignObjective, s.budgetAllocation, s.targetAudience)));
    }

    /** Records the feedback on the session and runs the revision.  The guards
        run in order: unknown id, completed session, missing workflow service. */
    method SubmitCampaignFeedback(id: string, request: FeedbackRequest) returns (r: Result<FeedbackView>)
      requires Valid()
      modifies manager
      ensures Valid()
      ensures old(Registered()) ==> Registered()
      ensures id !in old(manager.sessions) ==> r == Err(NotFound)
      ensures id in old(manager.sessions) && old(manager.sessions)[id].status == Completed ==>
                r == Err(AlreadyCompleted)
      ensures (id in old(manager.sessions) && old(manager.sessions)[id].status != Completed &&
               id !in activeWorkflows) ==> r == Err(WorkflowMissing)
      ensures (id in old(manager.sessions) && old(manager.sessions)[id].status != Completed &&
               id in activeWorkflows) ==> r.Ok?
      ensures old(Registered()) ==> r != Err(WorkflowMissing)
      ensures r.Err? ==> unchanged(manager)
      ensures r.Ok? ==>
        && id in old(manager.sessions) && id in activeWorkflows
        && old(manager.sessions)[id].status == AwaitingFeedback
        && var s := FeedbackRevisionNode(old(manager.sessions)[id].(humanFeedback := request.feedback),
                                         activeWorkflows[id]);
           && manager.sessions == old(manager.sessions)[id := s]
           && manager.order == old(manager.order)
           && r.value == FeedbackView(s.currentProposal, s.status, s.iteration, s.feedbackHistory)
      ensures r.Ok? ==>
        && r.value.status == Completed && r.value.iteration == 2
        && r.value.feedbackHistory == [request.feedback]
        && manager.sessions[id].initialProposal == old(manager.sessions)[id].initialProposal
    {
      var known := manager.SessionExists(id);
      if !known {
        return Err(NotFound);
      }
      var terminal := manager.IsTerminalState(id);
      if terminal {
        return Err(AlreadyCompleted);
      }
      if id !in activeWorkflows {
        return Err(WorkflowMissing);
      }
      ghost var before := manager.sessions;
      var found := manager.GetSession(id);
      // The handler writes the feedback into the stored record itself.
      var current := found.value.(humanFeedback := request.feedback);
      manager.UpdateSession(id, current);
      var finalState := FeedbackRevisionNode(current, activeWorkflows[id]);
      RevisionKeepsLifecycle(found.value, activeWorkflows[id], request.feedback);
      manager.UpdateSession(id, finalState);
      assert manager.sessions == before[id := finalState];
      StoreKeepsLifecycle(before, id, finalState);
      r := Ok(FeedbackView(finalState.currentProposal, finalState.status, finalState.iteration,
                           finalState.feedbackHistory));
    }

    /** One summary per stored session, in the table's key order. */
    method ListSessions() returns (r: SessionListing)
      requires manager.Valid()
      ensures r.totalSessions == |manager.sessions| == |r.sessions| == |manager.order|
      ensures forall i :: 0 <= i < |r.sessions| ==>
                manager.order[i] in manager.sessions &&
                r.sessions[i] == Summarize(manager.order[i], manager.sessions[manager.order[i]])
      ensures forall id :: id in manager.sessions <==>
                exists i :: 0 <= i < |r.sessions| && r.sessions[i].sessionId == id
    {
      var entries: seq<SessionSummary> := [];
      var i := 0;
      while i < |manager.order|
        invariant 0 <= i <= |manager.order|
        invariant |entries| == i
        invariant forall j :: 0 <= j < i ==>
                    entries[j] == Summarize(manager.order[j], manager.sessions[manager.order[j]])
      {
        var sid := manager.order[i];
        entries := entries + [Summarize(sid, manager.sessions[sid])];
        i := i + 1;
      }
      DistinctOrderCount(manager.order, manager.sessions.Keys);
      forall id | id in manager.sessions
        ensures exists i :: 0 <= i < |entries| && entries[i].sessionId == id
      {
        var k :| 0 <= k < |manager.order| && manager.order[k] == id;
        assert entries[k].sessionId == id;
      }
      r := SessionListing(|manager.sessions|, entries);
    }
  }

  /** A single round through the handlers: start, feedback, then a second
      feedback that is refused without changing anything. */
  method OneRoundThroughHandlers(p: Provider, q: Provider, feedback: string)
  {
    var app := new App();
    var started := app.StartCampaignWorkflow(DefaultStartRequest(), "s1", Some(p));
    assert started.Ok? && started.value.status == AwaitingFeedback && started.value.iteration == 1;
    var unknown := app.SubmitCampaignFeedback("s2", FeedbackRequest(feedback));
    assert unknown == Err(NotFound);
    var revised := app.SubmitCampaignFeedback("s1", FeedbackRequest(feedback));
    assert revised.Ok? && revised.value.status == Completed && revised.value.iteration == 2;
    assert revised.value.feedbackHistory == [feedback];
    var again := app.SubmitCampaignFeedback("s1", FeedbackRequest("more"));
    assert again == Err(AlreadyCompleted);
    var status := app.GetCampaignStatus("s1");
    assert status.Ok? && status.value.initialProposal == GetCompletion(p, InitialAnalysisCall(NewSession(DefaultStartRequest())));
  }
}
