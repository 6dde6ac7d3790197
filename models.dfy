/** Data definitions of the campaign workflow: the status enum, the
    twelve-field session record and the request and response shapes the
    gateway exchanges. */
module Models {

  datatype Option<+T> = None | Some(value: T)

  /** The three statuses a session passes through, in lifecycle order. */
  datatype Status = Initializing | AwaitingFeedback | Completed

  /** The wire name under which a status is stored in the session record. */
  function StatusName(s: Status): string
  {
    match s
    case Initializing => "initializing"
    case AwaitingFeedback => "awaiting_feedback"
    case Completed => "completed"
  }

  /** Reads a stored status name back; exactly the three wire names are accepted,
      and each is read as the status that carries it. */
  function ParseStatus(t: string): (r: Option<Status>)
    ensures r.Some? <==> t in {"initializing", "awaiting_feedback", "completed"}
    ensures r.Some? ==> StatusName(r.value) == t
  {
    if t == "initializing" then Some(Initializing)
    else if t == "awaiting_feedback" then Some(AwaitingFeedback)
    else if t == "completed" then Some(Completed)
    else None
  }

  /** Distinct statuses have distinct wire names, and every name reads back. */
  lemma StatusNameRoundTrip(s: Status, s': Status)
    ensures ParseStatus(StatusName(s)) == Some(s)
    ensures StatusName(s) == StatusName(s') ==> s == s'
  {
  }

  /** One workflow session: the state the workflow nodes read and produce. */
  datatype Session = Session(
    currentProposal: string,
    initialProposal: string,
    humanFeedback: string,
    status: Status,
    iteration: int,
    feedbackHistory: seq<string>,
    infoRequestedQuery: string,
    contextInfo: string,
    campaignObjective: string,
    targetAudience: string,
    budgetAllocation: string,
    brandGuidelines: string)

  /** The body of a start request; every field has a default. */
  datatype StartRequest = StartRequest(productName: string, campaignGoal: string, totalBudget: string)

  const DefaultProductName := "EcoFresh Organic Smoothies"
  const DefaultCampaignGoal := "Launch new organic smoothie line targeting health-conscious millennials"
  const DefaultTotalBudget := "$500,000"

  /** The request a client gets when it omits every field. */
  function DefaultStartRequest(): StartRequest
  {
    StartRequest(DefaultProductName, DefaultCampaignGoal, DefaultTotalBudget)
  }

  /** The body of a feedback submission: the feedback text is required. */
  datatype FeedbackRequest = FeedbackRequest(feedback: string)

  /** The campaign parameters echoed back by the start handler. */
  datatype StartDetails = StartDetails(product: string, goal: string, budget: string)

  /** What the start handler answers (its fixed message text is not modelled). */
  datatype CampaignResponse = CampaignResponse(
    sessionId: string,
    currentProposal: string,
    status: Status,
    iteration: int,
    details: StartDetails)

  /** The campaign parameters shown by the status handler. */
  datatype CampaignParameters = CampaignParameters(objective: string, budget: string, targetAudience: string)

  /** What the status handler answers. */
  datatype StatusView = StatusView(
    sessionId: string,
    currentProposal: string,
    status: Status,
    iteration: int,
    feedbackHistory: seq<string>,
    contextInfo: string,
    initialProposal: string,
    details: CampaignParameters)

  /** The new state the feedback handler answers with. */
  datatype FeedbackView = FeedbackView(
    currentProposal: string,
    status: Status,
    iteration: int,
    feedbackHistory: seq<string>)
}
