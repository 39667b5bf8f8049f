# Artifact-Proof-Lab in Dafny

A model of the two halves of Artifact-Proof-Lab and proofs about it: the fail-closed artifact
verifier (`src/artifact_proof`) and the agent gym whose episodes are recorded in hash chains and
gated before anything is learned from them (`gym`).

`dafny verify dfyconfig.toml` checks the whole project.

## How the system is modelled

- **Digests.** `sha256_json` is a function parameter from JSON values to strings. The lemmas about
  roots and checkpoints assume that no two of the finitely many values hashed in the two given
  histories collide, and nothing about any other value; only the lemmas about accepted transcripts
  assume that digests look like SHA-256.
- **Other parties.** In `Episode` everything outside the gym is a `World`: streams of arbitrary
  answers of the policy, the generator and the host, one per turn, so a statement about every
  world is a statement about every behaviour of those parties.
- **The file system.** `FileSystem` is a history over instants in which any path and any file may
  change at any instant. Each operation of the program happens at some later instant than the one
  before; the inventory looks at one file at a time and a read takes one byte at a time. The
  assumption that a listed path whose file changes or is recreated during the run does not show its
  listed metadata again is the predicate `FreshMetadata`; `Source.UnnoticedChange` shows what happens
  without it.
  Where a run is said to succeed, the files it touches are left alone meanwhile (`Still`, `Quiet`,
  `Untouched`), and nothing is assumed about their metadata.
- **Environments.** A bundled environment is a value that changes with each request, raising or not
  (`Host.TakeStep`); the environment and host classes are tied to it, and `HostedRuns` plays the
  gym over such a session.
  A task fits its environment (`BoundedSearch.Equipped`, `HostSemantics.SpeaksOfItsSlots`) when it
  allows that environment's actions, its provenance or origin signs one of the environment's own two
  slots, which is the one looked for, and a configuration task allows none of the structured-data
  actions, which would be preferred.
- **The network.** In `ExternalAgent` a request may be refused by the encoder, lost on the way out
  or back, garbled, or answered by an earlier reply; the worker's own parties may raise.
- **Numbers.** Costs, rates, gamma and Q values are reals.
- **Loops and objects.** Methods and classes follow the source's loops and mutable objects and are
  tied to specification functions; lemmas about those functions carry the results.

The files, by component:

| component | files |
|---|---|
| hash chain, ledger, transcript | `Json`, `HashChain`, `Ledger`, `AgentTranscript`, `TranscriptBinding` |
| episodes | `Evidence`, `Retries`, `Episode`, `ReferenceGym`, `EpisodeLaws`, `Endings`, `AgentAdapter`, `IsolatedEpisode`, `IsolatedLaws` |
| hosts and endpoints | `Digits`, `Host`, `HostHistory`, `HostSemantics`, `HostBoundary`, `HostedRuns`, `ExternalAgent`, `ServedEpisode` |
| learning | `Replay`, `Semantics`, `AdaptivePolicy`, `LearningLaws`, `NegativeExperience`, `Exploration`, `AuthorityTraining`, `BoundedSearch`, `SearchedRuns`, `Curriculum` |
| artifact verifier | `FileSystem`, `Source`, `DecimalForm`, `AsciiJson`, `CanonicalJson`, `JsonPointer`, `Checks`, `Engine`, `Verdicts`; on an episode's own bundle: `Bundle` |

Where the code says more, or less, than its documentation the model follows the code. Four
findings are stated as lemmas: an episode whose host rejects an action after a candidate was
drafted never yields an accepted transcript (`IsolatedLaws.RejectedDraftIsLost`); a change that
puts metadata back between two looks goes unnoticed by all three inventories and every read of a
run (`Source.UnnoticedChange`); a JSON Pointer may name an array item in the digits of any script,
so that a pointer that resolves need not be the encoding of its path
(`JsonPointer.ForeignIndexResolves`, with the exact condition in `JsonPointer.ResolvedIsANode`);
and a mutable file is exempt from its digest in the live profile but not from the checks that read
it, so that changing one can end a pass (`Verdicts.BoundMutableFile`, with the exact condition in
`Verdicts.MutableFilesAreFree`).
`CanonicalJson.SplitPairCollides` is no finding about the code: it shows that canonical texts tell
strings apart by their UTF-16 units only (`CanonicalJson.StringTextDecides`), and the string it
exhibits, a surrogate pair kept as two code points, is one that `json.loads` never yields from
UTF-8 text.

## Model

| member | source | states |
|---|---|---|
| `HashChain.RootCommits` | gym/ledger.py:76-98 | unless two values hashed in the two chains collide, linked chains with one last hash have the same length and agree entry by entry on every hashed or chained field |
| `HashChain.ChainedIsLinked` | gym/ledger.py:76-98 | what `append` builds is a chain that the verifiers call linked |
| `Ledger.VerifyLedgerDocument` | gym/ledger.py:188-288 | the one-pass verifier accepts a document if and only if the declarative description of a complete history holds, for any document |
| `Ledger.AcceptedIsAttested` | gym/ledger.py:188-288 | a document is accepted if and only if it is a linked chain of its stated length and root that reads by the grammar and whose entries commit to what their kinds call for: a batch or result to its observations, a decision and the receipt to all observations before them, a result to the decision right before it, the receipt to that decision exactly when it is unresolved |
| `Ledger.AcceptedGrammar` | gym/ledger.py:235-282 | an accepted history reads START (BATCH, or DECISION RESULT)* [DECISION] TERMINAL |
| `Ledger.RootFixesLedger` | gym/ledger.py:197-288 | unless two values hashed in the two ledgers collide, the root of an accepted ledger fixes all of it |
| `Ledger.TrajectoryLedger.AppendEntry` | gym/ledger.py:76-98 | appending adds exactly the next entry of the chain and keeps it linked |
| `Ledger.WrittenIsAccepted` | gym/ledger.py:176-186 | a written, well-placed history closed by its receipt is accepted by the verifier |
| `Ledger.TerminalAccepted` | gym/ledger.py:154-174 | closing an open recording with its receipt gives an accepted ledger, whether or not a decision is unresolved |
| `Evidence.CheckProvenance` | gym/core.py:220-253 | the test with dictionaries and sorting equals the pairwise description: unique ids, contiguous sequence, rising ticks, each check one source and probe with rising attempts |
| `Evidence.AttemptsIncreasing` | gym/core.py:248-252 | attempts collected per identity increase exactly when every pair of observations of that identity is in order |
| `Evidence.AdmissibleInNumbers` | gym/core.py:220-253 | evidence passes if and only if there are as many ids as observations, the sequence has no gap, ticks rise, no check has more than one origin, its attempts rise, and names and costs are in order |
| `Retries.CountUselessRetries` | gym/core.py:597-608 | grouping and comparing neighbours within each group gives the one-pass count; the next row says what that count is |
| `Retries.UselessRetriesAre` | gym/core.py:597-608 | the penalty is the number of observations that follow one of their identity, with none in between, with a newer attempt, the same value and the same status |
| `Episode.CheckBundle` | gym/core.py:273-306 | the bundle check passes if and only if the ledger is accepted, starts from this task and ends in a receipt for these observations and verdicts |
| `Episode.PlayEnds` | gym/core.py:419-495 | every run ends, whatever the parties answer |
| `ReferenceGym.Run` | gym/core.py:374-579 | the loop over mutable variables and a ledger object computes the specified receipt of the run and the calls it made, of which `Endings` says when and how they end; an attached adapter has written down exactly those calls |
| `ReferenceGym.OneTurn` | gym/core.py:426-495 | one turn of the loop is one step of the run that `Endings.EndingIsExact` and `Endings.PolicySees` characterize |
| `ReferenceGym.Conclude` | gym/core.py:497-579 | verdicts, terminal receipt, verification and admission after the loop |
| `Endings.EndingIsExact` | gym/core.py:384-524 | for every world the exact condition of each of the seven endings in terms of the last decision, the allowed actions, the generator, the drafts made against their limit, steps, cost and the host's reply; every decision before was passed on and answered; exactly the three budget endings count as exhausted budgets; each ending leaves its own mark on the trajectory, which otherwise is the actions taken; the candidates are the generator's answers in order |
| `Endings.PolicySees` | gym/core.py:426-434 | before each decision the policy is shown everything observed so far and the actions of all earlier decisions |
| `EpisodeLaws.EveryRunVerifies` | gym/core.py:374-579 | on every way to end, the ledger is accepted and meets every commitment of the proof bundle; admission is exactly environment done, verdict, provenance and bundle |
| `Bundle.Verify` | gym/core.py:259-352 | a bundle that passes binds to the episode; when nothing else happens to its private directory and the manifest is read back, it passes exactly when its ledger binds to this task, these observations and verdicts and its files are within the verifier's limits |
| `Bundle.EveryRunIsVerified` | gym/core.py:308-352 | every run's bundle is verified exactly when it is within the limits, so admission is exactly environment done, verdict, provenance and size |
| `Bundle.RunVerified` | gym/core.py:374-579 | the gym with its verifier run on a disk: integrity is the verifier's own answer, and over a private directory that is exactly that the bundle is within the limits |
| `Bundle.OversizedRunIsRefused` | src/artifact_proof/source.py:90-91 | a structured-data run with a measurement of more than 64 MiB that earned its verdict, with its evidence in order, is not admitted |
| `EpisodeLaws.EveryRunWithinBudget` | gym/core.py:393-579 | decisions and candidates stay within budget, entries are 3 + decisions + results with results equal to decisions or one fewer, the cost ending is reported exactly when the cost is exceeded, and exactly the admitted train episodes teach when there is a learner |
| `AgentTranscript.VerifyAgentTranscriptDocument` | gym/agent_transcript.py:138-308 | the transcript verifier accepts if and only if the declarative description holds |
| `AgentTranscript.AcceptedTranscriptReads` | gym/agent_transcript.py:138-308 | an accepted transcript opens a named session, takes its turns one by one, closes the same session and ends in its root; each candidate answers the call right before it, on the same frontier, and carries its own number |
| `AgentTranscript.RootFixesTranscript` | gym/agent_transcript.py:158-308 | unless two values hashed in the two transcripts collide, the root of an accepted transcript fixes all of it |
| `TranscriptBinding.VerifyAgainstEpisode` | gym/agent_transcript.py:311-398 | the cross-check accepts if and only if both records name the same decisions, trajectories and candidates |
| `TranscriptBinding.AgentBoundaryTranscript.AppendEntry` | gym/agent_transcript.py:111-135 | the transcript writer extends the chain by exactly the next entry |
| `AgentAdapter.AgentEndpointPolicyAdapter.Forward` | gym/isolated_agent.py:68-106 | each call is written down with the endpoint's turn, so the transcript always holds exactly the calls so far |
| `AgentAdapter.AgentEndpointPolicyAdapter.Close` | gym/isolated_agent.py:108-115 | closing is recorded once |
| `IsolatedEpisode.RunIsolatedEpisode` | gym/isolated_agent.py:124-192 | the result is given and taught from exactly when the cross-check accepts; otherwise the transcript is rejected |
| `IsolatedLaws.TranscriptBindsToEpisode` | gym/isolated_agent.py:68-115 | for any policy, generator, host and budget, with the decisions made well formed, the transcript is accepted, and it binds to the episode if and only if no drafted candidate was lost to a rejected action |
| `IsolatedLaws.AcceptedTranscriptTellsRun` | gym/agent_transcript.py:311-398 | conversely whatever document is accepted as the transcript of a run tells that run: its task, each decision on what the policy was shown and after what it had done, and the candidates drafted, none of them lost |
| `IsolatedLaws.LocalHostTranscriptAccepted` | gym/host_boundary.py:66-70 | with the reference host every completed isolated episode passes both transcript verifiers |
| `ServedEpisode.ServedEpisodeBinds` | gym/isolated_agent.py:68-115 | an episode all of whose calls were answered over the endpoint, after any history, with any calls on other sessions in between and over any network: the transcript written from the turns of its receipts is accepted, and binds to the episode if and only if no drafted candidate was lost |
| `ServedEpisode.ValidEpisodesAreServed` | gym/isolated_agent.py:68-115 | from a new endpoint on, over a network that connects and delivers, an episode can be served under any session name if and only if all its decisions are well formed |
| `IsolatedLaws.RejectedDraftIsLost` | gym/core.py:462-474 | the failing family: a host that rejects the action its candidate was drafted for |
| `Host.ProducedIsAdmissible` | gym/host.py:32-67 | observations stamped by the counter pass the provenance test exactly when each check keeps one probe, names are not empty and costs are not negative |
| `Host.Environment.Obs` | gym/host.py:32-67 | a call raises exactly when its attempt does not rise; otherwise it adds one stamped observation and counts the attempt |
| `Host.Environment.Reset` | gym/host.py:100-112 | the opening observations, stamped in order, or none exactly when a stamp raises; a new environment never raises |
| `Host.Environment.Step` | gym/host.py:114-172 | the whole state and outcome of a step: it raises exactly for an unknown action or an attempt that does not rise, and then keeps only the flag or verdict it had set by then; otherwise it follows its machine, of which `HostHistory` says what it answers and when its verdict is valid, and adds exactly its stamped observation |
| `Host.EnvironmentEvidenceAdmissible` | gym/host.py:77-512 | whatever is asked of a bundled environment after its opening, and whatever raises, everything it has observed passes the provenance test |
| `Host.RespondRegular` | gym/host.py:114-512 | every step of every environment names a check with its own fixed probe and a non-negative cost |
| `HostHistory.ValidEndIsEarned` | gym/host.py:114-512 | after any history of requests to a new environment its verdict is valid if and only if the requests earned it: a running process inspected; a stopped one inspected, restarted and retried in this order; the admissible source or configuration selected last, after its provenance or origin was looked up; a fix applied after a failing test, not rolled back, and found by the last regression run; a safe deferral or the accepted candidate as the last request |
| `HostHistory.CliAnswers` | gym/host.py:114-172 | what each request of a process environment shows, whether it raises and whether it ends the episode, by the requests before it |
| `HostHistory.DataAnswers` | gym/host.py:239-280 | the same for a structured-data environment |
| `HostHistory.ConfigAnswers` | gym/host.py:346-377 | the same for a configuration environment |
| `HostHistory.CodingAnswers` | gym/host.py:426-451 | the same for a repository environment |
| `HostHistory.SafeDeferAnswers` | gym/host.py:462-466 | the same for a safe-deferral environment |
| `HostHistory.GenerativeAnswers` | gym/host.py:481-512 | the same for a fallback environment |
| `HostSemantics.EvidenceEncodes` | gym/adaptive_policy.py:37-118 | after any history of requests to a new environment its evidence is encoded as the state that the history says, for each of the six environments; a rollback does not show in it, and a restart that did nothing hides the one that did |
| `HostBoundary.LocalReferenceHost.StepSession` | gym/host_boundary.py:66-70 | the reply and the new state of the session: an action is refused exactly when it is outside the contract, and then nothing changes; otherwise both are those of its environment's step, raising included; other sessions are never touched |
| `HostedRuns.HostedRunsAreEarned` | gym/core.py:374-524 | a run over a session of a bundled environment has valid provenance, and is admitted if and only if the environment ended it, its requests earned the verdict and the bundle passes; its trajectory then is those requests |
| `HostedRuns.ServedRunsAreHosted` | gym/core.py:468-474 | for any policy and generator the run over such a session exists exactly when the environment raises in none of its turns |
| `Bundle.HostedRunsAreAdmitted` | gym/core.py:374-579 | with the bundle as written, a run over a new environment is admitted if and only if the environment ended it, its requests earned the verdict and the bundle is within the limits |
| `HostBoundary.LocalReferenceHost.Start` | gym/host_boundary.py:53-64 | a start succeeds exactly for an unused session id, which then has an environment of its own, opened, and returns its opening observations; existing sessions stay as they are |
| `ExternalAgent.ReferenceAgentWorker.Dispatch` | gym/agent_worker.py:61-185 | the worker's tables and answer after any request, None when it raises |
| `ExternalAgent.ExternalAgentEndpoint.Exchange` | gym/external_agent.py:328-407 | one frame out and at most one accepted reply in; everything else poisons |
| `ExternalAgent.ExternalAgentEndpoint.EnsureConnected` | gym/external_agent.py:230-290 | the link after connecting and the handshake, and whether a request may be sent; `ExternalAgent.ReadyIsExact` says when |
| `ExternalAgent.ReadyIsExact` | gym/external_agent.py:230-290 | a usable endpoint is ready exactly when its connection stands or it connects and its HELLO is delivered; then the handshake is complete, and otherwise it is poisoned unless the HELLO never left |
| `ExternalAgent.ExternalAgentEndpoint.StartSession` | gym/external_agent.py:103-123 | the whole new endpoint after a START call over any network; when it succeeds and with what is `ExternalAgent.AnswerIsExact` with `ExternalAgent.AnswersByTable` |
| `ExternalAgent.ExternalAgentEndpoint.DecideTurn` | gym/external_agent.py:125-155 | the whole new endpoint after a DECIDE call over any network |
| `ExternalAgent.ExternalAgentEndpoint.GenerateTurn` | gym/external_agent.py:157-185 | the same for GENERATE |
| `ExternalAgent.ExternalAgentEndpoint.CloseSession` | gym/external_agent.py:187-193 | the same for CLOSE |
| `ExternalAgent.ExternalAgentEndpoint.PingAgent` | gym/external_agent.py:195-199 | the same for PING |
| `ExternalAgent.ExternalAgentEndpoint.HangUp` | gym/external_agent.py:201-220 | disconnecting closes the endpoint, forgets its sessions and sends nothing |
| `ExternalAgent.TurnTablesAgree` | gym/external_agent.py:103-193 | after any calls on any sessions over any network an endpoint that may still send has exactly the worker's turns, and a closed or poisoned one has none |
| `ExternalAgent.PoisonIsAbsorbing` | gym/external_agent.py:446-456 | poisoned or closed is for good and nothing is sent any more |
| `ExternalAgent.ReceiptAnswersThisCall` | gym/external_agent.py:343-360 | a receipt is the worker's own answer to the frame just sent, never a late or misdirected one |
| `ExternalAgent.AnswerIsExact` | gym/external_agent.py:103-407 | a call is answered if and only if the endpoint may still send, the way to the worker is open or this call opens it, request and reply are delivered and the worker answers; otherwise the endpoint is poisoned unless nothing was sent |
| `ExternalAgent.WorkerAnswersByTable` | gym/agent_worker.py:61-185 | what the worker answers, by the endpoint's own table: an unused name, an open session whose party delivers, an open session to close |
| `ExternalAgent.AnswersByTable` | gym/external_agent.py:103-199 | what each answered call brings and what it does to the endpoint's table |
| `ExternalAgent.FirstCallIsAnswered` | gym/external_agent.py:103-123 | from a new endpoint on, over a network that connects and delivers, a PING is answered and a START opens its named session with turn one in both tables |
| `ExternalAgent.DeliveredAnswerIsKept` | gym/external_agent.py:139-155 | over a network that connects and delivers every answer of the worker is kept, whether or not the endpoint was connected before, and leaves it connected with the handshake complete |
| `ExternalAgent.TurnsCountUp` | gym/external_agent.py:152-185 | while a session stays open its receipts carry consecutive turns, whatever happens in between |
| `Replay.ReplayIsFaithful` | gym/core.py:426-434 | read back from its ledger, every decision of a run stands in exactly the situation its policy saw |
| `Semantics.EncodeState` | gym/adaptive_policy.py:37-118 | the dictionary loop and branches compute the encoding, of which `HostSemantics.EvidenceEncodes` says what it makes of each environment's evidence |
| `Semantics.SupersededIsForgotten` | gym/adaptive_policy.py:42-45 | only the last observation of each check matters to the encoding |
| `Semantics.AdapterRoundTrip` | gym/adaptive_policy.py:137-181 | a decision made for an intent is within the task and reads back as that intent |
| `Semantics.AllowedIntentSupported` | gym/adaptive_policy.py:137-181 | an intent read off an allowed decision can be acted on in that task |
| `AdaptivePolicy.DecisionExperiences` | gym/adaptive_policy.py:317-347 | one pass over the ledger collects the experiences in all recorded situations |
| `AdaptivePolicy.ProofGatedAdaptivePolicy.Update` | gym/adaptive_policy.py:257-315 | updating raises exactly when the evidence is not from an admitted train episode with an accepted ledger and something to learn, and then changes nothing; otherwise the last experience is credited with one and each earlier one with gamma times the next, an experience that occurs once gets one visit more and its credit into its mean, others are left alone, and every cell holds the mean of all its credits; a fresh learner taught distinct experiences holds exactly those credits |
| `AdaptivePolicy.OneMoreExperience` | gym/adaptive_policy.py:292-293 | one more experience in an episode multiplies all earlier targets by gamma and adds target one |
| `AdaptivePolicy.FirstEpisodeCredits` | gym/adaptive_policy.py:289-301 | after one episode of distinct experiences a fresh learner has value one for the last, gamma times the next value for each earlier one, one visit each, and nothing else |
| `AdaptivePolicy.EpisodeAccrues` | gym/adaptive_policy.py:294-301 | from any history, an experience that an episode holds once adds its one target to its mean, and experiences it does not hold keep their cells |
| `AdaptivePolicy.LessonKeepsMeans` | gym/adaptive_policy.py:292-301 | the incremental step keeps every cell a plain mean |
| `AdaptivePolicy.ValuesAreCredits` | gym/adaptive_policy.py:292-301 | learned values lie in (0, 1] |
| `AdaptivePolicy.ProofGatedAdaptivePolicy.Decide` | gym/adaptive_policy.py:231-255 | the decision is the only best offered intent, a tie, or no support |
| `LearningLaws.DecisionIsExact` | gym/adaptive_policy.py:231-255 | a taught learner acts on the one intent taught in this state and possible in this task whose value leads by more than the margin; no support exactly when there is none, a tie when none leads |
| `LearningLaws.TaughtIsLived` | gym/adaptive_policy.py:317-347 | learning from a run's ledger is learning from what its policy saw and decided |
| `LearningLaws.LearnerImitates` | gym/adaptive_policy.py:231-315 | taught once by an admitted episode with one intent per state, a fresh learner makes a choice of the same intent wherever that episode's choice was learnable |
| `LearningLaws.AdmittedEpisodesTeach` | gym/adaptive_policy.py:257-287 | an admitted train episode of the gym is refused only when there is nothing to learn from it |
| `LearningLaws.RejectedEpisodesAreBlamed` | gym/negative_experience.py:72-131 | a rejected episode is recorded exactly when only the verdict went against it and its last choice is known, and the recorded pair is that choice |
| `NegativeExperience.TerminalDecisionExperience` | gym/negative_experience.py:248-279 | one pass finds the decision that the ledger names as the cause of the end |
| `NegativeExperience.BlameIsTheLastChoice` | gym/negative_experience.py:248-279 | in a run that its environment ended this is the last decision, in the situation its policy saw |
| `NegativeExperience.NegativeExperienceStore.Observe` | gym/negative_experience.py:72-131 | at most the blamed pair changes, by exactly one, and counts stay equal to the numbers of receipts |
| `NegativeExperience.FreshSearchIsRoundRobin` | gym/negative_experience.py:169-175 | from an empty store the k-th rejection falls on candidate k mod n and counts never differ by more than one |
| `NegativeExperience.EveryCandidateIsReached` | gym/negative_experience.py:169-175 | from any counts each candidate is picked for the first time after an exact number of other picks |
| `Exploration.DecideNegativeAware` | gym/negative_experience.py:149-180 | learned preferences first, then the least rejected supported candidate |
| `Exploration.FreshActorTakesTurns` | gym/negative_experience.py:164-180 | the actor's k-th choice in a state with only rejections is supported candidate k mod n |
| `Exploration.ActorReachesEveryCandidate` | gym/negative_experience.py:164-180 | whatever is stored, every supported candidate is chosen after the exact wait its count calls for |
| `Exploration.TrainTask` | gym/negative_experience.py:214-242 | each attempt is made with what the store holds after those before; they stop at the first accepted one, run out, or raise exactly at a rejected episode outside the train split; the store and the count hold exactly the typed negative attempts |
| `AuthorityTraining.TrainFromNothing` | gym/negative_experience.py:214-242 | with nothing learned and nothing stored, training over sessions of any structured-data environment is accepted on exactly its second attempt, after one typed negative attempt on the unsigned source |
| `AuthorityTraining.AttemptEnds` | gym/negative_experience.py:149-180 | an attempt of the untaught actor in that environment is accepted exactly when it selects the signed source, and is otherwise recorded against that selection |
| `AuthorityTraining.SceneExists` | gym/host.py:175-280 | for any counts such an attempt exists: the environment raises in none of its turns |
| `Exploration.SupportedCandidates` | gym/on_policy.py:122-129 | the filter loop keeps exactly the supported candidates in order |
| `Exploration.BoundedExplorationPolicy.Decide` | gym/on_policy.py:64-82 | the learned preference, or the candidate at the cursor, whose walk is `BoundedSearch.CursorWalks` |
| `Exploration.BoundedExplorationPolicy.ObserveFailedAttempt` | gym/on_policy.py:84-120 | the cursor of exactly one state moves by one when all evidence held and no learned value speaks for the choice; cursors equal numbers of receipts |
| `BoundedSearch.CursorWalks` | gym/on_policy.py:64-120 | after k recorded failures in a state supported candidate k is chosen; the last one stays |
| `BoundedSearch.RejectionsMoveCursors` | gym/on_policy.py:84-120 | a rejected run of the gym moves the cursor exactly when its evidence and bundle held, its last choice was made in a known state with a known intent, and no learned value speaks for it; it moves the cursor of that state |
| `BoundedSearch.SearchedActorEarns` | gym/on_policy.py:29-82 | with nothing learned and one failure recorded in each state the actor makes exactly the requests that earn a valid end, in every reference environment |
| `SearchedRuns.SearchedRunIsAccepted` | gym/on_policy.py:64-82 | in the gym, over a session of any of the six environments, the run of that actor is ended by its environment with exactly those requests and accepted if its bundle is verified, within a budget of its number of requests and their prices |
| `SearchedRuns.SearchedRunExists` | gym/host_boundary.py:53-70 | such a run exists for every environment and task that fit: the environment raises in none of its turns |
| `Curriculum.EvaluateStage` | gym/curriculum.py:209-294 | a receipt is given exactly for matching results, with the exact rates and every failed threshold |
| `Curriculum.PromotionIsExact` | gym/curriculum.py:237-262 | a stage is promoted if and only if none of its four failures holds, each stated on counts of episodes with a threshold just met being met, and the reasons given are exactly those that hold |
| `Curriculum.PromotionTaughtAllAdmitted` | gym/curriculum.py:237-262 | a promoted stage that requires updates has taught exactly its admitted train episodes |
| `Curriculum.GymResultsAreGenuine` | gym/core.py:575-579 | results of the gym have learned only when admitted |
| `Curriculum.VerifyPromotionChain` | gym/curriculum.py:297-320 | the chain verifier accepts if and only if every receipt fits its stage, follows its predecessor and all but the last promoted |
| `Curriculum.BuiltChainsVerify` | gym/curriculum.py:209-320 | receipts obtained in order that stop at the first failure are always a valid chain |
| `Curriculum.AcceptedChainsAreBuilt` | gym/curriculum.py:297-320 | conversely receipts of any evaluations are accepted as a chain if and only if they are of this curriculum's stages in order, each on the checkpoint before it, and all but the last promoted |
| `Curriculum.ChainsCommit` | gym/curriculum.py:297-320 | unless two payloads of the two chains collide, the last checkpoint of an accepted chain fixes every receipt in it |
| `Curriculum.ValidateCurriculumTasks` | gym/curriculum.py:162-206 | the registry check with its seen sets equals: known tasks of the right split, none used twice, all skills covered |
| `Curriculum.SplitsDisjoint` | gym/curriculum.py:205-206 | the final check of the registry can never fail |
| `FileSystem.SameMetaSameFile` | src/artifact_proof/source.py:125-134 | under the assumption on a path and its listed metadata two looks with that metadata leave no room for a change in between |
| `Source.Inventory` | src/artifact_proof/source.py:72-98 | each file listed with metadata it had at some instant of the walk, within all limits; a disk quiet during the walk is listed exactly when it fits the limits |
| `Source.ReadGuarded` | src/artifact_proof/source.py:118-138 | bytes of one open file between two looks with the inventoried metadata; a file left alone is read completely |
| `Source.DirectorySource.ReadBytes` | src/artifact_proof/source.py:103-143 | a successful read is logged with its digest, which agrees with every earlier read of the path |
| `Source.DirectorySource.FinalizeSnapshot` | src/artifact_proof/source.py:145-161 | if it returns, the digest is of the recorded digests of all inventoried files, and under the metadata assumption all of the run saw one frozen state; a source left alone is always finalized |
| `Source.Linearized` | src/artifact_proof/source.py:145-161 | from the end of the first inventory to the start of the last one every file held exactly the bytes the run read, despite interleaved writes by others |
| `Source.OneDigestPerPath` | src/artifact_proof/source.py:139-142 | without any assumption all reads of one path had one digest |
| `Source.UnnoticedChange` | src/artifact_proof/source.py:125-134 | a concrete history in which a change with restored metadata escapes all three inventories and the guarded reads before and between them |
| `DecimalForm.CanonicalDecimal` | src/artifact_proof/checks.py:346-354 | the popping loop computes the stripped triple |
| `DecimalForm.CanonicalIsExact` | src/artifact_proof/checks.py:346-354 | two decimals have one triple if and only if they are the same number |
| `AsciiJson.DumpInjective` | src/artifact_proof/checks.py:317-324 | the ASCII text determines the normalized tree |
| `AsciiJson.DumpPrefix` | src/artifact_proof/checks.py:317-324 | a dumped tree can be read off the front of any longer text |
| `CanonicalJson.NormalizeDecides` | src/artifact_proof/checks.py:327-343 | normalized forms are equal if and only if the values mean the same |
| `CanonicalJson.CanonicalTextDecides` | src/artifact_proof/checks.py:317-343 | canonical bytes are equal if and only if the values mean the same: objects as maps, arrays in order, numbers by value, kinds apart |
| `CanonicalJson.StringTextDecides` | src/artifact_proof/checks.py:317-324 | any two strings share a canonical text exactly when their UTF-16 code units are the same |
| `CanonicalJson.SplitPairCollides` | src/artifact_proof/checks.py:317-324 | such a pair of different strings, one of them with a split surrogate pair |
| `JsonPointer.ValidateJsonPointer` | src/artifact_proof/manifest.py:186-206 | the index loop accepts exactly the pointers whose tildes all start an escape |
| `JsonPointer.TwoPassesAreOne` | src/artifact_proof/checks.py:299 | the two ordered replacements equal the one-pass decoder of section 4 of RFC 6901 on every text |
| `JsonPointer.EncodeDecodes` | src/artifact_proof/manifest.py:198-206 | the section 3 encoding of any path is valid and decodes to it |
| `JsonPointer.DecodeEncodes` | src/artifact_proof/checks.py:294-299 | every valid pointer is the encoding of what it decodes to, so decoding is injective |
| `JsonPointer.DecodeInjective` | src/artifact_proof/checks.py:294-299 | no two valid pointers name the same path |
| `JsonPointer.ResolveJsonPointer` | src/artifact_proof/checks.py:294-314 | the loop follows the decoded tokens, array indices being numerals of any script without a leading ASCII zero |
| `JsonPointer.EveryNodeHasItsPointer` | src/artifact_proof/checks.py:294-314 | the pointer of the path to a node resolves to that node |
| `JsonPointer.ResolvedIsANode` | src/artifact_proof/checks.py:294-314 | conversely whatever a valid pointer resolves to is a node, and the pointer encodes the path to it exactly when its array indices are in ASCII digits |
| `JsonPointer.ForeignIndexResolves` | src/artifact_proof/checks.py:305-311 | the pointer "/" followed by ARABIC-INDIC DIGIT THREE resolves to item 3 and is not the encoding of that path |
| `Checks.VerifyManifestAnchor` | src/artifact_proof/checks.py:22-52 | fails exactly on a mismatch or a missing required anchor |
| `Checks.VerifyCoverage` | src/artifact_proof/checks.py:55-73 | fails exactly when a declared file is missing or coverage is complete and an unlisted one is present |
| `Checks.VerifyFileHashes` | src/artifact_proof/checks.py:76-100 | no finding fails exactly when every declared file is present and holds its digest, mutable ones excepted in the live profile; there are findings whenever the files are left alone; `Verdicts.PassIsSound` states the exemption in the verdict itself |
| `Checks.VerifyValueBinding` | src/artifact_proof/checks.py:222-266 | unless a read is refused it passes exactly when all operands have values and all mean the same; no read of a file left alone is refused |
| `Checks.RunDeclaredCheck` | src/artifact_proof/checks.py:103-114 | unless a read is refused a declared check fails exactly when it does not hold of the files read; no read of a file left alone is refused |
| `Engine.VerifyArtifact` | src/artifact_proof/engine.py:18-76 | a finalized report speaks of one frozen state of the directory: a pass is the pass of an atomic check of that state, its digests are that state's, and without refused reads a failure is that check's failure; over a directory that nothing happens to, whatever its size, the report passes exactly when its files are within the limits and that check passes, which `Verdicts.PassIsSound` spells out, and has exactly the digests it should have |
| `Engine.PassingReportMeans` | src/artifact_proof/engine.py:38-58 | what a pass says of the frozen files: manifest, declared digests, coverage and value bindings |
| `Verdicts.PassIsSound` | src/artifact_proof/engine.py:34-58 | the report on any files passes if and only if the arguments are good, the files are within the limits, the manifest can be read and parsed, the anchor matches, every declared file is there, every file that is not both mutable and live has its digest, under complete coverage no other file is there, all operands of every active binding have one meaning, and every active inspection can read its inputs and does not fail |
| `Verdicts.MutableFilesAreFree` | src/artifact_proof/checks.py:85-94 | in the live profile, when only mutable files change and the limits still hold, a pass stays one if and only if every active check that reads a changed file is still satisfied |
| `Verdicts.BoundMutableFile` | src/artifact_proof/checks.py:222-266 | a mutable file bound to a copy of what it was: the live report passes exactly as long as their digests agree |
| `Verdicts.PointerStandsForNode` | src/artifact_proof/checks.py:228-240 | the pointer operand of the path to a node stands for the meaning of that node |
| `Verdicts.DigestsAgree` | src/artifact_proof/checks.py:228-244 | two digest operands agree exactly when both files are there with one digest |

## Left out

- Sockets, subprocesses, threads, temporary directories, `os.walk` itself and SQLite: only their steps (deliver, lose, list, stat, read) appear.
- SHA-256, HMAC and attestation: digests are function parameters.
- Decoding: Python's `json`, UTF-8, `Decimal` parsing and `zipfile` are function parameters or appear by their results; recursion limits are not modelled.
- `ZipSource`, the inside of the SQLite, nested-ZIP and environment checks: the latter are an arbitrary judgement of the bytes they read (`Checks.Inspection`).
- Wire codecs, manifest field checks, private packs, runners, CLI and schema files.
- Source.Inventory: the walk is an arbitrary list of visits, so files that are never listed are not spoken of; Unicode normalization and drive prefixes of paths are not checked.
- FileSystem.FreshMetadata: speaks, for listed paths and the metadata they were listed with, of what a path leads to with links followed, because the inventory's second look follows them.
- Engine.VerifyArtifact: covers directories; report texts, names and versions are not modelled; over a directory that nothing happens to each walk meets every file once, and what a walk that repeats one would count is stated for `Source.Inventory` alone.
- Json.Json: the code's own words are constructors (`Fixed`), so the same text built as `Str` counts as another value; results that compare two histories treat them as two.
- Reasons: the texts with which verifiers and admission explain themselves, and the rationale of decisions.
- Float effects: not-a-number and infinite costs, rounding, and underflow of powers of gamma.
- ReferenceGym.Run: exceptions of the policy, generator, sink or host other than a rejected action, host session handling and reward channels other than the retry penalty; a learning sink appears as the flag that it was used.
- Observations are immutable values: a policy that changes one in place is not modelled.
- Budgets: the dictionary is three typed fields, so conversion failures are not modelled.
- IsolatedEpisode.RunIsolatedEpisode: starts from a session whose task commitment was right, and the endpoint answers every call; `ServedEpisode` shows that the endpoint's own turn numbers are the ones used here.
- Bundle.Verify: writing the files and reading the manifest back are hypotheses on the directory and the parser.
- AuthorityTraining.TrainFromNothing: the bundles of its attempts are taken as verified, as `Bundle` shows of bundles within the limits.
- HostedRuns.HostedRunsAreEarned: a run in which the environment raises has no result, in the code as in the model.
- ExternalAgent.ReferenceAgentWorker.Dispatch: field checks of payloads and SHUTDOWN, which the socket server refuses, are not modelled; request ids are the counter they are printed from.
- AdaptivePolicy.ProofGatedAdaptivePolicy.Update: policy digests in receipts are not modelled, and a ledger whose observations are not objects is read as having empty ones.
- Curriculum.VerifyPromotionChain: thresholds and task ids are not rechecked against the stage, as in the code; the identity test with the last receipt is its position.
