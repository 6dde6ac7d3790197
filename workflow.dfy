/** The two workflow nodes and the routing decision between them.  Each node
    asks the provider for exactly one completion and returns a new session. */
module Workflow {
  import opened Models
  import opened Services

  /** Output-length budget of every completion a node asks for. */
  const MaxTokens := 1500

  /** The campaign parameters and the unused information query: no node changes them. */
  predicate SameParameters(s: Session, t: Session)
  {
    && s.campaignObjective == t.campaignObjective
    && s.targetAudience == t.targetAudience
    && s.budgetAllocation == t.budgetAllocation
    && s.brandGuidelines == t.brandGuidelines
    && s.infoRequestedQuery == t.infoRequestedQuery
  }

  /** The shape of every stored session in the one-round flow: the pending
      feedback is cleared, the iteration counts the proposals produced and the
      history the revisions run. */
  predicate Lifecycle(s: Session)
  {
    && s.status != Initializing
    && s.humanFeedback == ""
    && s.iteration == |s.feedbackHistory| + 1
    && (s.status == AwaitingFeedback ==> s.feedbackHistory == [] && s.currentProposal == s.initialProposal)
    && (s.status == Completed ==> |s.feedbackHistory| == 1)
  }

  /** The one completion request of the initial analysis. */
  function InitialAnalysisCall(s: Session): Completion
  {
    Completion(GetInitialAnalysisPrompt(s), MaxTokens)
  }

  /** The one completion request of the revision. */
  function RevisionCall(s: Session): Completion
  {
    Completion(GetRevisionPrompt(s), MaxTokens)
  }

  /** Generates the first proposal and waits for feedback. */
  function InitialAnalysisNode(s: Session, provider: Provider): (r: Session)
    ensures r.currentProposal == r.initialProposal == GetCompletion(provider, InitialAnalysisCall(s))
    ensures r.status == AwaitingFeedback && r.iteration == 1
    ensures r.feedbackHistory == [] && r.contextInfo == "" && r.humanFeedback == ""
    ensures SameParameters(s, r)
    ensures Lifecycle(r)
  {
    var proposal := GetCompletion(provider, InitialAnalysisCall(s));
    s.(currentProposal := proposal, initialProposal := proposal, status := AwaitingFeedback,
       iteration := 1, feedbackHistory := [], contextInfo := "", humanFeedback := "")
  }

  /** Revises the proposal against the pending feedback, records that feedback
      and completes the session.  The source appends to the incoming history
      list in place; here the result carries the extended history. */
  function FeedbackRevisionNode(s: Session, provider: Provider): (r: Session)
    ensures r.feedbackHistory == s.feedbackHistory + [s.humanFeedback]
    ensures |r.feedbackHistory| == |s.feedbackHistory| + 1
    ensures r.currentProposal == GetCompletion(provider, RevisionCall(s))
    ensures r.status == Completed && r.iteration == s.iteration + 1 && r.humanFeedback == ""
    ensures r.initialProposal == s.initialProposal && r.contextInfo == s.contextInfo
    ensures SameParameters(s, r)
  {
    var revised := GetCompletion(provider, RevisionCall(s));
    s.(currentProposal := revised, status := Completed, iteration := s.iteration + 1,
       feedbackHistory := s.feedbackHistory + [s.humanFeedback], humanFeedback := "")
  }

  /** Where the workflow goes next. */
  datatype Next = ToInitialAnalysis | ToFeedbackRevision | End

  function DecideNextNode(s: Session): (r: Next)
    ensures r == ToFeedbackRevision <==> s.status == AwaitingFeedback && s.humanFeedback != ""
    ensures r == End <==> s.status == Completed
    ensures r == ToInitialAnalysis <==> s.status.Initializing? || (s.status.AwaitingFeedback? && s.humanFeedback == "")
  {
    if s.status == AwaitingFeedback && s.humanFeedback != "" then ToFeedbackRevision
    else if s.status == Completed then End
    else ToInitialAnalysis
  }

  /** Each node depends on the provider only through its one request, whose
      budget is 1500 tokens: providers that agree on that request give the
      same session. */
  lemma NodesAskOnce(s: Session, p: Provider, q: Provider)
    ensures InitialAnalysisCall(s).maxTokens == 1500 && RevisionCall(s).maxTokens == 1500
    ensures p(InitialAnalysisCall(s)) == q(InitialAnalysisCall(s)) ==>
              InitialAnalysisNode(s, p) == InitialAnalysisNode(s, q)
    ensures p(RevisionCall(s)) == q(RevisionCall(s)) ==>
              FeedbackRevisionNode(s, p) == FeedbackRevisionNode(s, q)
  {
  }

  /** A provider failure does not abort the revision: the session completes
      and the error text becomes the proposal. */
  lemma ProviderFailureBecomesProposal(s: Session, p: Provider)
    requires p(RevisionCall(s)).ProviderError?
    ensures FeedbackRevisionNode(s, p).status == Completed
    ensures FeedbackRevisionNode(s, p).currentProposal == ErrorReplyPrefix + p(RevisionCall(s)).detail
  {
  }

  /** One full round from a fresh record: initial analysis, then feedback,
      then revision. */
  lemma OneRound(s: Session, p: Provider, q: Provider, feedback: string)
    requires s.status == Initializing
    ensures var a := InitialAnalysisNode(s, p);
            var b := FeedbackRevisionNode(a.(humanFeedback := feedback), q);
            && DecideNextNode(s) == ToInitialAnalysis
            && (DecideNextNode(a.(humanFeedback := feedback)) == ToFeedbackRevision <==> feedback != "")
            && b.iteration == 2 && b.status == Completed && DecideNextNode(b) == End
            && b.feedbackHistory == [feedback]
            && b.initialProposal == a.initialProposal == GetCompletion(p, InitialAnalysisCall(s))
            && Lifecycle(b)
  {
  }

  /** The revision that follows a stored awaiting session keeps the lifecycle shape. */
  lemma RevisionKeepsLifecycle(s: Session, p: Provider, feedback: string)
    requires Lifecycle(s) && s.status == AwaitingFeedback
    ensures Lifecycle(FeedbackRevisionNode(s.(humanFeedback := feedback), p))
    ensures Rank(FeedbackRevisionNode(s.(humanFeedback := feedback), p).status) == Rank(s.status) + 1
  {
  }

  /** Position of a status in the lifecycle. */
  function Rank(st: Status): nat
  {
    match st
    case Initializing => 0
    case AwaitingFeedback => 1
    case Completed => 2
  }

  /** Runs the revision once per feedback text, in order. */
  function ReviseAll(s: Session, feedback: seq<string>, provider: Provider): Session
    decreases |feedback|
  {
    if feedback == [] then s
    else ReviseAll(FeedbackRevisionNode(s.(humanFeedback := feedback[0]), provider), feedback[1..], provider)
  }

  /** The revision node has no round limit of its own: repeated revisions
      append every feedback text in order, count one iteration each and never
      touch the initial proposal or the campaign parameters. */
  lemma {:induction false} ReviseAllAppends(s: Session, feedback: seq<string>, provider: Provider)
    ensures ReviseAll(s, feedback, provider).feedbackHistory == s.feedbackHistory + feedback
    ensures ReviseAll(s, feedback, provider).iteration == s.iteration + |feedback|
    ensures ReviseAll(s, feedback, provider).initialProposal == s.initialProposal
    ensures SameParameters(s, ReviseAll(s, feedback, provider))
    ensures feedback != [] ==> ReviseAll(s, feedback, provider).status == Completed
    decreases |feedback|
  {
    if feedback != [] {
      var t := FeedbackRevisionNode(s.(humanFeedback := feedback[0]), provider);
      ReviseAllAppends(t, feedback[1..], provider);
      assert s.feedbackHistory + feedback == (s.feedbackHistory + [feedback[0]]) + feedback[1..];
    }
  }

  /** The source's gateway runs the revision even for empty feedback, which
      the routing function would not send to the revision. */
  lemma EmptyFeedbackStillRevises(s: Session, p: Provider)
    requires Lifecycle(s) && s.status == AwaitingFeedback
    ensures DecideNextNode(s.(humanFeedback := "")) == ToInitialAnalysis
    ensures FeedbackRevisionNode(s.(humanFeedback := ""), p).feedbackHistory == [""]
    ensures FeedbackRevisionNode(s.(humanFeedback := ""), p).status == Completed
  {
  }
}
