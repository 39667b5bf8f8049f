/** An episode played through an isolated agent endpoint (`gym/isolated_agent.py`): the adapter
    forwards the gym's calls to the endpoint, writes the transcript, and the finished pair of
    records is cross-verified before anything may be learned from it. */
module IsolatedEpisode {
  import opened HashChain
  import opened Episode
  import opened TranscriptBinding
  import opened AgentAdapter
  import ReferenceGym

  datatype IsolatedResult =
    | TranscriptRejected
    | Isolated(episode: EpisodeResult, transcript: seq<Entry>)

  /** The episode as it stands after the post-verification learning gate. */
  function Taught(task: PublicTask, episode: EpisodeResult, hasSink: bool): EpisodeResult {
    if episode.Accepted() && task.split == "train" && hasSink then episode.(learningUpdated := true) else episode
  }

  /** `run_isolated_episode`, for a session that starts with the right task commitment. */
  method RunIsolatedEpisode(task: PublicTask, w: World, session: string, bundlePasses: bool, hasSink: bool)
    returns (r: IsolatedResult)
    ensures var episode := Receipt(task, w, Final(task, w), bundlePasses, false);
      var entries := ClosedTranscript(w, task.AgentView(), session, Final(task, w).calls);
      r == if AcceptsEpisode(w.h, w.textSha, Document(entries), task.AgentView(), episode)
           then Isolated(Taught(task, episode, hasSink), entries) else TranscriptRejected
  {
    hide AcceptsEpisode, Receipt, Final, Append, StartPayload, ClosePayload, Document, Noted;
    var adapter := new AgentEndpointPolicyAdapter(w, task.AgentView(), session);
    var episode, calls := ReferenceGym.Run(task, w, bundlePasses, false, adapter);
    adapter.Close();
    var entries := adapter.transcript.entries;
    var valid := VerifyAgainstEpisode(w.h, w.textSha, Document(entries), task.AgentView(), episode);
    if !valid { return TranscriptRejected; }
    return Isolated(Taught(task, episode, hasSink), entries);
  }
}
