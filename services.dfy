/** The collaborators of the workflow: the prompts it sends, the completion
    call that never fails, and the in-memory session table. */
module Services {
  import opened Models

  /** A prompt, reduced to the session fields it embeds; the fixed wording
      around those fields is not modelled. */
  datatype Prompt =
    | InitialAnalysis(objective: string, budget: string, target: string)
    | Revision(proposal: string, feedback: string, context: string, history: string)

  /** One request to the language model: a prompt and its output-length budget. */
  datatype Completion = Completion(prompt: Prompt, maxTokens: int)

  /** What the provider does with a request: a reply, or a failure with its message. */
  datatype ProviderReply = Reply(text: string) | ProviderError(detail: string)

  /** The language-model provider, opaque to the model. */
  type Provider = Completion -> ProviderReply

  const ErrorReplyPrefix := "Error generating AI response: "

  /** The completion call catches every provider failure and hands its message
      back as the completion text, so a caller always gets text. */
  function GetCompletion(provider: Provider, c: Completion): (text: string)
    ensures provider(c).Reply? ==> text == provider(c).text
    ensures provider(c).ProviderError? ==> text == ErrorReplyPrefix + provider(c).detail
  {
    match provider(c)
    case Reply(t) => t
    case ProviderError(e) => ErrorReplyPrefix + e
  }

  /** Sum of the lengths of the parts. */
  function TotalLength(parts: seq<string>): nat
  {
    if parts == [] then 0 else |parts[0]| + TotalLength(parts[1..])
  }

  /** The parts with `sep` between consecutive ones, as a string join does. */
  function Join(sep: string, parts: seq<string>): (r: string)
    ensures |r| == TotalLength(parts) + (if parts == [] then 0 else (|parts| - 1) * |sep|)
  {
    if |parts| == 0 then ""
    else if |parts| == 1 then parts[0]
    else
      var rest := Join(sep, parts[1..]);
      assert |sep| + (|parts| - 2) * |sep| == (|parts| - 1) * |sep|;
      parts[0] + sep + rest
  }

  /** Joining one more part adds the separator and that part at the end. */
  lemma {:induction false} JoinAppend(sep: string, parts: seq<string>, x: string)
    ensures Join(sep, parts + [x]) == if parts == [] then x else Join(sep, parts) + sep + x
  {
    if |parts| == 1 {
      assert parts + [x] == [parts[0], x];
      assert [parts[0], x][1..] == [x];
    } else if |parts| > 1 {
      assert (parts + [x])[1..] == parts[1..] + [x];
      JoinAppend(sep, parts[1..], x);
    }
  }

  /** The prompt of the initial analysis: objective, budget and audience only. */
  function GetInitialAnalysisPrompt(s: Session): Prompt
  {
    InitialAnalysis(s.campaignObjective, s.budgetAllocation, s.targetAudience)
  }

  /** The prompt of the revision: proposal, pending feedback, context and the
      earlier feedback joined with "; ". */
  function GetRevisionPrompt(s: Session): Prompt
  {
    Revision(s.currentProposal, s.humanFeedback, s.contextInfo, Join("; ", s.feedbackHistory))
  }

  /** Two sessions that agree on objective, budget and audience get the same
      initial prompt, whatever else differs. */
  lemma InitialPromptReadsParameters(s: Session, t: Session)
    requires s.campaignObjective == t.campaignObjective
    requires s.budgetAllocation == t.budgetAllocation
    requires s.targetAudience == t.targetAudience
    ensures GetInitialAnalysisPrompt(s) == GetInitialAnalysisPrompt(t)
  {
  }

  /** The revision prompt is determined by proposal, feedback, context and
      history, and a longer history shows up as one more "; "-separated entry. */
  lemma {:induction false} RevisionPromptReads(s: Session, t: Session, x: string)
    requires s.currentProposal == t.currentProposal && s.humanFeedback == t.humanFeedback
    requires s.contextInfo == t.contextInfo
    requires s.feedbackHistory != [] && t.feedbackHistory == s.feedbackHistory + [x]
    ensures GetRevisionPrompt(t).history == GetRevisionPrompt(s).history + "; " + x
    ensures GetRevisionPrompt(t) == GetRevisionPrompt(s).(history := GetRevisionPrompt(s).history + "; " + x)
  {
    JoinAppend("; ", s.feedbackHistory, x);
  }

  /** A duplicate-free key order that lists exactly the keys has one entry per key. */
  lemma {:induction false} DistinctOrderCount(order: seq<string>, keys: set<string>)
    requires forall i, j :: 0 <= i < j < |order| ==> order[i] != order[j]
    requires forall k :: k in keys <==> k in order
    ensures |keys| == |order|
  {
    if order != [] {
      var last := order[|order| - 1];
      var init := order[..|order| - 1];
      assert order == init + [last];
      forall k
        ensures k in keys - {last} <==> k in init
      {
        if k in init {
          var i :| 0 <= i < |init| && init[i] == k;
          assert order[i] == k && order[|order| - 1] == last;
        }
      }
      DistinctOrderCount(init, keys - {last});
    }
  }

  /** The in-memory session table: a dictionary from session id to session.
      `order` is the dictionary's key order, which is insertion order. */
  class SessionManager {
    var sessions: map<string, Session>
    var order: seq<string>

    ghost predicate Valid()
      reads this
    {
      && (forall i, j :: 0 <= i < j < |order| ==> order[i] != order[j])
      && (forall k :: k in sessions <==> k in order)
    }

    constructor ()
      ensures Valid() && sessions == map[] && order == []
    {
      sessions := map[];
      order := [];
    }

    /** Stores `state` under `id`, a fresh identifier supplied by the caller
        in place of a random UUID. */
    method CreateSession(id: string, state: Session) returns (sessionId: string)
      requires Valid()
      requires id !in sessions
      modifies this
      ensures Valid()
      ensures sessionId == id
      ensures sessions == old(sessions)[id := state]
      ensures order == old(order) + [id]
    {
      sessions := sessions[id := state];
      order := order + [id];
      sessionId := id;
    }

    /** The stored session, or None for an unknown id. */
    method GetSession(id: string) returns (r: Option<Session>)
      ensures id in sessions ==> r == Some(sessions[id])
      ensures id !in sessions ==> r == None
    {
      r := if id in sessions then Some(sessions[id]) else None;
    }

    /** Stores `state` under `id`, inserting the id when it is absent. */
    method UpdateSession(id: string, state: Session)
      requires Valid()
      modifies this
      ensures Valid()
      ensures sessions == old(sessions)[id := state]
      ensures order == if id in old(sessions) then old(order) else old(order) + [id]
    {
      if id !in sessions {
        order := order + [id];
      }
      sessions := sessions[id := state];
    }

    method SessionExists(id: string) returns (b: bool)
      ensures b <==> id in sessions
    {
      b := id in sessions;
    }

    /** False for an unknown id; otherwise whether the session is completed. */
    method IsTerminalState(id: string) returns (b: bool)
      ensures b <==> id in sessions && sessions[id].status == Completed
    {
      var known := SessionExists(id);
      if !known {
        return false;
      }
      b := sessions[id].status == Completed;
    }
  }
}
