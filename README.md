# Human-in-the-loop campaign workflow, modelled in Dafny

This project models the core of a small human-in-the-loop demo service. A
client starts a marketing-campaign session. The service then generates an
initial proposal synchronously and waits for one round of human feedback.
Submitting feedback produces a revised proposal and completes the session.

The model has four modules, one per source file:

- `Models` (`models.dfy`, models.py) holds the status enum (`initializing`,
  `awaiting_feedback`, `completed`) and the twelve-field session record. It
  also holds the start request with its defaults, the feedback request (its
  feedback text has no default) and the three response shapes.
- `Services` (`services.dfy`, services.py) holds four things:
  - the prompts, reduced to the session fields each one reads;
  - the completion call, which turns every provider failure into error text;
  - a string join;
  - the `SessionManager` class. It is a map from session id to session, plus
    the dictionary's insertion order.
- `Workflow` (`workflow.dfy`, workflow.py) holds the two workflow nodes as
  functions from session to session, and the routing function.
- `Gateway` (`gateway.dfy`, main.py) holds the `App` class. Its methods are
  the decision logic of the start, status, feedback and listing handlers.
  They work over the shared session table and the table of per-session
  workflow services (`active_workflows`).

The language model is a function-typed parameter, `Provider`, which maps one
completion request (prompt and token budget) to a reply or a provider error.
Each session keeps the provider that was built when it started. The revision
uses that provider. Random UUIDs are not modelled: the caller passes in a
fresh session id.

Where the code and its design description disagree, the model follows the code:

- A provider failure does not abort a transition. The completion call catches
  it, and its error text becomes the proposal (`ProviderFailureBecomesProposal`).
- Updating a session inserts the id when it is absent. It never reports a
  missing id.
- There is no per-session locking.
- The feedback handler never consults the routing function. It revises even
  when the feedback text is empty, and it records `""` in the history.
  `EmptyFeedbackStillRevises` states this.

## Model

| member | source | states |
|---|---|---|
| `Models.ParseStatus` | models.py:6-9 | exactly the three wire names `initializing`, `awaiting_feedback`, `completed` are statuses, and each reads back as the status carrying that name |
| `Models.StatusNameRoundTrip` | models.py:6-9 | every status's name reads back as that status, and distinct statuses have distinct names |
| `Services.GetCompletion` | services.py:30-45 | the completion call always yields text: the provider's reply, or the error prefix followed by the failure message |
| `Services.Join` | services.py:110 | the joined history is as long as all parts plus one separator between each consecutive pair |
| `Services.JoinAppend` | services.py:110 | joining one more feedback entry appends "; " and that entry (just the entry when the history was empty) |
| `Services.InitialPromptReadsParameters` | services.py:74-93 | the initial prompt depends only on campaign objective, budget and target audience |
| `Services.RevisionPromptReads` | services.py:95-121 | the revision prompt reads the current proposal, pending feedback, context and the "; "-joined history, and one more history entry shows up as one more joined entry |
| `Services.DistinctOrderCount` | main.py:199 | a duplicate-free key order that lists exactly the table's keys has as many entries as the table |
| `Services.SessionManager.constructor` | services.py:49-50 | a new table is empty |
| `Services.SessionManager.CreateSession` | services.py:52-55 | stores the state under the fresh id, returns that id, appends it to the key order and leaves every other entry alone |
| `Services.SessionManager.GetSession` | services.py:57-58 | returns the stored session, or None for an unknown id, and changes nothing |
| `Services.SessionManager.UpdateSession` | services.py:60-61 | sets the entry for the id and inserts it when absent; other entries and the existing key order are unchanged |
| `Services.SessionManager.SessionExists` | services.py:63-64 | true exactly when the id is a key of the table |
| `Services.SessionManager.IsTerminalState` | services.py:66-70 | false for an unknown id, otherwise true exactly when the stored status is completed |
| `Workflow.InitialAnalysisNode` | workflow.py:11-27 | current and initial proposal both become the generated text; the status becomes awaiting_feedback and the iteration 1; history, context and pending feedback are cleared; the campaign parameters are kept; the result has the stored-session shape |
| `Workflow.FeedbackRevisionNode` | workflow.py:29-48 | the history becomes the old history followed by the pending feedback (one entry longer); the status becomes completed; the iteration goes up by one; the pending feedback is cleared; the initial proposal, context and parameters are kept |
| `Workflow.DecideNextNode` | workflow.py:50-56 | routes to revision exactly when awaiting feedback with non-empty feedback, ends exactly when completed, and otherwise routes to initial analysis |
| `Workflow.NodesAskOnce` | workflow.py:14-36 | each node's result depends on the provider only through its single request, whose budget is 1500 tokens |
| `Workflow.ProviderFailureBecomesProposal` | services.py:42-45 | a provider failure during revision still completes the session, with the error text as the proposal |
| `Workflow.OneRound` | workflow.py:18-48 | from a fresh record, initial analysis followed by revision gives iteration 2, completed, a history holding just the feedback, and the initial proposal from the first step; routing along the way is initial analysis, revision iff the feedback is non-empty, then end |
| `Workflow.RevisionKeepsLifecycle` | workflow.py:41-48 | revising a stored awaiting session yields a stored-shape completed session, one status step forward |
| `Workflow.ReviseAllAppends` | workflow.py:38-46 | repeated revisions append every feedback text in order, add one iteration each and never change the initial proposal or the parameters |
| `Workflow.EmptyFeedbackStillRevises` | main.py:172-177 | with empty feedback the routing function would not choose revision, yet the revision runs and records `""` |
| `Gateway.NewSession` | main.py:82-95 | a new record is initializing with iteration 0, empty history and empty proposals; its objective is "Launch campaign for " + product + ": " + goal; its budget is the request's total budget; it routes to initial analysis |
| `Gateway.DefaultRequestSession` | models.py:27-35 | a request on defaults yields the EcoFresh Organic Smoothies objective and the "$500,000" budget |
| `Gateway.Summary` | main.py:205 | the listing text is the first 50 characters of the objective (all of it when shorter) followed by "..." |
| `Gateway.App.constructor` | main.py:38-39 | the service starts with an empty session table and no workflow services |
| `Gateway.App.StartCampaignWorkflow` | main.py:67-127 | without a provider it fails with a configuration error and changes nothing; otherwise it stores the initial-analysis result of the new record under the fresh id, registers the provider, and answers awaiting_feedback with iteration 1 |
| `Gateway.App.GetCampaignStatus` | main.py:130-151 | unknown id gives not-found; otherwise every field of the view mirrors the stored record, and on a consistent table the iteration is the history length plus one |
| `Gateway.App.SubmitCampaignFeedback` | main.py:154-190 | guards run in order: unknown id (not-found), completed (already-completed), no workflow service (workflow-missing); every rejection leaves the table unchanged; otherwise the stored session becomes the revision of itself with the feedback written in; the answer is completed, iteration 2, history [feedback]; the initial proposal is kept |
| `Gateway.App.ListSessions` | main.py:196-209 | one summary per stored session in key order; the total equals the table size, and every stored id appears |

## Left out

- Language-model client: the API-key check and client construction, the model name and the float temperature are left out. The provider is an opaque function parameter. A start request passes `None` when the provider could not be built.
- Prompt wording: a prompt is modelled by the fields it embeds. The fallbacks for missing keys in the initial prompt ('New product launch', '$500,000', 'Health-conscious millennials') are unreachable here, because every record carries all twelve fields.
- The information-gathering prompt: no transition reaches it.
- The graph built over the nodes by an external graph library: no handler uses it.
- HTTP: routes, status codes, CORS, the fixed response messages, the root and health endpoints, logging, and the mapping of exceptions to HTTP errors. The exception handler around the revision is unreachable in the model, because nothing inside it can fail.
- Random UUIDs: the caller passes a fresh id (`requires id !in manager.sessions`).
- Aliasing: the feedback handler writes the feedback into the stored record in place, and the revision appends to the stored history list in place. The model writes the updated record back explicitly and then replaces it. No other reader can observe the difference.
- Concurrency: the source has no locking, and the model is sequential.
- Gateway.App.SubmitCampaignFeedback: the status text in the already-completed message is not returned. It is always "completed".
