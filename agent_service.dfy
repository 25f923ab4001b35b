/** The service that creates, resumes and rolls back agents and watches their
    replies for rollback requests (src/agents/agent_service.py). The model
    client is outside the model: what the service hands it is the effective
    configuration dictionary, which the methods return. */
module AgentServices {
  import opened Wrappers
  import opened Values
  import IS = InternalSessions
  import CR = CheckpointRepository
  import IR = InternalSessionRepository
  import ER = ExternalSessionRepository
  import RA = RollbackAgents

  // ---------------------------------------------------------------------
  // Base URL sanitising

  predicate HasScheme(url: string) {
    StartsWith(url, "http://") || StartsWith(url, "https://")
  }

  /** `_sanitize_base_url` as written: None for a missing or blank URL;
      otherwise the URL stripped of surrounding whitespace and then of
      trailing slashes, with "https://" put in front unless it already names
      a scheme. */
  function SanitizeAsWritten(raw: Option<string>): (r: Option<string>)
    ensures raw.None? || raw.value == "" ==> r.None?
    ensures raw.Some? ==> (r.None? <==> RStripChar(Strip(raw.value), '/') == "")
    ensures r.Some? ==> var url := RStripChar(Strip(raw.value), '/');
                        && HasScheme(r.value)
                        && (HasScheme(url) ==> r.value == url)
                        && (!HasScheme(url) ==> r.value == "https://" + url)
                        && r.value[|r.value| - 1] != '/'
  {
    if raw.None? || raw.value == "" then None
    else
      var url := RStripChar(Strip(raw.value), '/');
      if url == "" then None
      else if HasScheme(url) then Some(url)
      else
        assert StartsWith("https://" + url, "https://");
        Some("https://" + url)
  }

  /** The slash stripped last can uncover whitespace that the earlier strip
      did not see: "a /" becomes "https://a ", which sanitises again to
      "https://a". */
  lemma AsWrittenNotIdempotent()
    ensures SanitizeAsWritten(Some("a /")) == Some("https://a ")
    ensures SanitizeAsWritten(Some("https://a ")) == Some("https://a")
  {
    SlashUncoversSpace();
    SpaceStrippedAfterScheme();
  }

  lemma SlashUncoversSpace()
    ensures RStripChar(Strip("a /"), '/') == "a "
    ensures !HasScheme("a ") && "https://" + "a " == "https://a "
  {
    var s := "a /";
    assert !IsSpace('/') && !IsSpace('a');
    assert RStrip(s) == s;
    assert LStrip(s) == s;
    assert s[..|s| - 1] == "a ";
    assert RStripChar("a ", '/') == "a ";
  }

  lemma SpaceStrippedAfterScheme()
    ensures RStripChar(Strip("https://a "), '/') == "https://a"
    ensures HasScheme("https://a")
  {
    var u := "https://a";
    assert u[0] == 'h' && u[|u| - 1] == 'a';
    assert !IsSpace('h') && !IsSpace('a');
    assert u + [' '] == "https://a ";
    TrailingSpaceDropped(u);
    assert u[..8] == "https://";
  }

  /** One trailing space after an unpadded text is all that `strip` removes. */
  lemma TrailingSpaceDropped(u: string)
    requires u != [] && !IsSpace(u[0]) && !IsSpace(u[|u| - 1])
    ensures Strip(u + [' ']) == u
  {
    var t := u + [' '];
    assert t[|t| - 1] == ' ' && IsSpace(' ');
    assert t[..|t| - 1] == u;
    assert RStrip(t) == RStrip(u);
    StripUnpadded(u);
  }

  /** Trailing whitespace and slashes, in any mix, all dropped. */
  function RStripUrl(s: string): (r: string)
    ensures |r| <= |s| && r == s[..|r|]
    ensures r == [] || !(IsSpace(r[|r| - 1]) || r[|r| - 1] == '/')
    ensures forall i :: |r| <= i < |s| ==> IsSpace(s[i]) || s[i] == '/'
  {
    if s != [] && (IsSpace(s[|s| - 1]) || s[|s| - 1] == '/') then RStripUrl(s[..|s| - 1]) else s
  }

  /** `_sanitize_base_url` as evidently intended: trailing whitespace and
      slashes are dropped together, so neither is left at either end. */
  function SanitizeBaseUrl(raw: Option<string>): (r: Option<string>)
    ensures raw.None? || raw.value == "" ==> r.None?
    ensures raw.Some? ==> (r.None? <==> RStripUrl(Strip(raw.value)) == "")
    ensures r.Some? ==> var url := RStripUrl(Strip(raw.value));
                        && HasScheme(r.value)
                        && (HasScheme(url) ==> r.value == url)
                        && (!HasScheme(url) ==> r.value == "https://" + url)
  {
    if raw.None? || raw.value == "" then None
    else
      var url := RStripUrl(Strip(raw.value));
      if url == "" then None
      else if HasScheme(url) then Some(url)
      else
        assert StartsWith("https://" + url, "https://");
        Some("https://" + url)
  }

  /** A sanitised URL has no whitespace at either end and no trailing slash. */
  lemma SanitizedTrimmed(raw: Option<string>)
    requires SanitizeBaseUrl(raw).Some?
    ensures var u := SanitizeBaseUrl(raw).value;
            u != [] && !IsSpace(u[0]) && !IsSpace(u[|u| - 1]) && u[|u| - 1] != '/'
  {
    var url := RStripUrl(Strip(raw.value));
    UrlEdges(raw.value);
    if !HasScheme(url) {
      PrefixedEdges(url);
    }
  }

  /** The stripped URL, when not empty, has clean edges. */
  lemma UrlEdges(s: string)
    ensures var url := RStripUrl(Strip(s));
            url == [] || (!IsSpace(url[0]) && !IsSpace(url[|url| - 1]) && url[|url| - 1] != '/')
  {
    var stripped := Strip(s);
    var url := RStripUrl(stripped);
    StripNoEdgeSpace(s);
    if url != [] {
      assert url[0] == stripped[0];
    }
  }

  /** Putting the scheme in front keeps the last character and starts with
      a letter. */
  lemma PrefixedEdges(url: string)
    requires url != [] && !IsSpace(url[|url| - 1]) && url[|url| - 1] != '/'
    ensures var u := "https://" + url;
            !IsSpace(u[0]) && !IsSpace(u[|u| - 1]) && u[|u| - 1] != '/'
  {
    var u := "https://" + url;
    assert u[0] == 'h';
    assert u[|u| - 1] == url[|url| - 1];
  }

  /** Sanitising a sanitised URL changes nothing. */
  lemma SanitizeIdempotent(raw: Option<string>)
    requires SanitizeBaseUrl(raw).Some?
    ensures SanitizeBaseUrl(SanitizeBaseUrl(raw)) == SanitizeBaseUrl(raw)
  {
    var u := SanitizeBaseUrl(raw).value;
    SanitizedTrimmed(raw);
    StripUnpadded(u);
    assert RStripUrl(u) == u;
  }

  // ---------------------------------------------------------------------
  // Model configuration

  /** The configuration the service falls back on when it is given none (or
      an empty one): the model id and the environment's key and base URL. */
  function DefaultConfig(envApiKey: Option<string>, envBaseUrl: Option<string>): (d: Dict)
    ensures d.Keys == {"id", "api_key", "base_url"}
    ensures d["base_url"] != VNone ==> d["base_url"].VStr? && HasScheme(d["base_url"].s)
  {
    map["id" := VStr("gpt-4o-mini"),
        "api_key" := OptStrValue(envApiKey),
        "base_url" := OptStrValue(SanitizeBaseUrl(envBaseUrl))]
  }

  /** The configuration the service starts with: the given one unless it is
      missing or empty, else the default; never empty. */
  function InitialConfig(modelConfig: Option<Dict>, envApiKey: Option<string>, envBaseUrl: Option<string>): (d: Dict)
    ensures d != map[]
    ensures modelConfig.Some? && modelConfig.value != map[] ==> d == modelConfig.value
    ensures modelConfig.None? || modelConfig.value == map[] ==> d == DefaultConfig(envApiKey, envBaseUrl)
  {
    if modelConfig.Some? && modelConfig.value != map[] then modelConfig.value
    else
      var d := DefaultConfig(envApiKey, envBaseUrl);
      assert "id" in d;
      d
  }

  /** Python truthiness of an optional string. */
  predicate Given(o: Option<string>) {
    o.Some? && o.value != ""
  }

  /** `d[key] = v` when `given`, else `d` unchanged. */
  function Override(d: Dict, key: string, given: bool, v: Value): (r: Dict)
    ensures r.Keys == d.Keys + (if given then {key} else {})
    ensures given ==> r[key] == v
    ensures forall k :: k in d && !(k == key && given) ==> r[k] == d[k]
  {
    if given then d[key := v] else d
  }

  /** The copy of the configuration a call hands to the model client: a
      given `api_key` and a given `base_url` (sanitised) replace the stored
      ones; every other entry is the stored one. */
  function EffectiveConfig(config: Dict, apiKey: Option<string>, baseUrl: Option<string>): (r: Dict)
    ensures r.Keys == config.Keys + (if Given(apiKey) then {"api_key"} else {})
                                  + (if Given(baseUrl) then {"base_url"} else {})
    ensures Given(apiKey) ==> r["api_key"] == VStr(apiKey.value)
    ensures Given(baseUrl) ==> r["base_url"] == OptStrValue(SanitizeBaseUrl(baseUrl))
    ensures forall k :: k in config && k != "api_key" && k != "base_url" ==> r[k] == config[k]
    ensures !Given(apiKey) && "api_key" in config ==> r["api_key"] == config["api_key"]
    ensures !Given(baseUrl) && "base_url" in config ==> r["base_url"] == config["base_url"]
  {
    var withKey := Override(config, "api_key", Given(apiKey), VStr(apiKey.GetOr("")));
    Override(withKey, "base_url", Given(baseUrl), OptStrValue(SanitizeBaseUrl(baseUrl)))
  }

  // ---------------------------------------------------------------------
  // The request/perform handshake

  /** The state `handle_agent_response` leaves: the request flag cleared,
      the requested checkpoint id kept for the caller. */
  function Acknowledged(state: Dict): (r: Dict)
    ensures r.Keys == state.Keys + {"rollback_requested"}
    ensures r["rollback_requested"] == VBool(false)
    ensures forall k :: k in state && k != "rollback_requested" ==> r[k] == state[k]
  {
    state["rollback_requested" := VBool(false)]
  }

  /** Whether the agent's state holds a rollback request to act on. */
  predicate RollbackPending(state: Dict) {
    Truthy(Get(state, "rollback_requested", VNone)) && Truthy(Get(state, "rollback_checkpoint_id", VNone))
  }

  /** A request raised by `rollback_to_checkpoint_tool` is pending, and
      acknowledging it leaves the checkpoint id for the caller and nothing
      pending. */
  lemma RequestedIsPending(state: Dict, id: int)
    requires id != 0
    ensures RollbackPending(RA.RollbackRequested(state, Some(id)))
    ensures var acked := Acknowledged(RA.RollbackRequested(state, Some(id)));
            && !RollbackPending(acked)
            && Get(acked, "rollback_checkpoint_id", VNone) == VInt(id)
  {
  }

  // ---------------------------------------------------------------------
  // The service

  class AgentService {
    var modelConfig: Dict
    var currentAgent: RA.RollbackAgent?
    const externals: ER.ExternalSessionRepository
    const sessions: IR.InternalSessionRepository
    const checkpoints: CR.CheckpointRepository

    predicate Valid()
      reads externals, sessions, checkpoints
    {
      externals.Valid() && sessions.Valid() && checkpoints.Valid()
    }

    /** `__init__`: a missing or empty configuration falls back on the default. */
    constructor (modelConfig: Option<Dict>, envApiKey: Option<string>, envBaseUrl: Option<string>,
                 externals: ER.ExternalSessionRepository, sessions: IR.InternalSessionRepository,
                 checkpoints: CR.CheckpointRepository)
      requires externals.Valid() && sessions.Valid() && checkpoints.Valid()
      ensures Valid() && currentAgent == null
      ensures this.externals == externals && this.sessions == sessions && this.checkpoints == checkpoints
      ensures this.modelConfig == InitialConfig(modelConfig, envApiKey, envBaseUrl)
    {
      this.modelConfig := InitialConfig(modelConfig, envApiKey, envBaseUrl);
      this.externals := externals;
      this.sessions := sessions;
      this.checkpoints := checkpoints;
      currentAgent := null;
    }

    /** The agent's session is the freshly opened session `agno` of `ext`,
        stored under `id`. */
    predicate Started(agent: RA.RollbackAgent, ext: int, agno: string, now: Datetime, id: int)
      reads agent, agent.session
    {
      agent.session != null && agent.session.Data() == RA.Opened(ext, agno, map[], now).(id := Some(id))
    }

    /** The agent runs over the stored session `d` of `ext`, with its state
        and session id, automatic checkpoints on. */
    predicate Resumed(agent: RA.RollbackAgent, ext: int, d: IS.InternalSessionData)
      reads agent, agent.session
    {
      && agent.session != null && agent.session.Data() == d
      && agent.sessionState == d.sessionState && agent.agnoSessionId == d.agnoSessionId
      && agent.externalSessionId == ext && agent.autoCheckpoint
    }

    /** `create_new_agent`: a new agent with automatic checkpoints on, whose
        fresh session `agno` becomes the only current session of the external
        session; it becomes the service's current agent. The stored
        configuration is left as it was. */
    method CreateNewAgent(ext: int, apiKey: Option<string>, baseUrl: Option<string>, agno: string, now: Datetime)
      returns (agent: RA.RollbackAgent, config: Dict)
      requires Valid() && !IR.AgnoTaken(sessions.rows, agno)
      modifies this, sessions, externals
      ensures Valid()
      ensures config == EffectiveConfig(modelConfig, apiKey, baseUrl)
      ensures modelConfig == old(modelConfig) && currentAgent == agent && fresh(agent)
      ensures agent.sessions == sessions && agent.checkpoints == checkpoints && agent.externals == externals
      ensures agent.autoCheckpoint && agent.externalSessionId == ext && agent.agnoSessionId == agno
      ensures agent.session != null && fresh(agent.session) && Started(agent, ext, agno, now, old(sessions.nextId))
      ensures sessions.rows == IR.Demoted(old(sessions.rows), ext, None)[old(sessions.nextId) := agent.session.Data()]
      ensures IR.OnlyCurrent(sessions.rows, ext, old(sessions.nextId))
      ensures externals.rows == ER.WithInternal(old(externals.rows), ext, agno, now)
    {
      config := EffectiveConfig(modelConfig, apiKey, baseUrl);
      agent := new RA.RollbackAgent(ext, agno, true, sessions, checkpoints, externals, map[], false, now);
      currentAgent := agent;
    }

    /** The internal session `resume_agent` picks: the one with the given id
        when the id is truthy, else the external session's current one. */
    function Chosen(ext: int, internalId: Option<int>): Option<IS.InternalSessionData>
      reads sessions
    {
      if RA.IdTruthy(internalId) then sessions.GetById(internalId.value) else sessions.GetCurrentSession(ext)
    }

    /** `resume_agent`: nothing for an unknown external session; a new agent
        (with the stored configuration, the call's overrides being dropped)
        when no internal session is found; otherwise an agent over the stored
        session, with no table written. */
    method ResumeAgent(ext: int, internalId: Option<int>, apiKey: Option<string>, baseUrl: Option<string>,
                       agno: string, now: Datetime)
      returns (agent: RA.RollbackAgent?, config: Option<Dict>)
      requires Valid() && !IR.AgnoTaken(sessions.rows, agno)
      modifies this, sessions, externals
      ensures Valid() && modelConfig == old(modelConfig)
      ensures ext !in old(externals.rows) ==>
                && agent == null && config == None && currentAgent == old(currentAgent)
                && unchanged(sessions) && unchanged(externals)
      ensures ext in old(externals.rows) && old(Chosen(ext, internalId)).None? ==>
                && agent != null && fresh(agent) && currentAgent == agent
                && config == Some(EffectiveConfig(modelConfig, None, None))
                && agent.session != null && fresh(agent.session) && Started(agent, ext, agno, now, old(sessions.nextId))
                && sessions.rows == IR.Demoted(old(sessions.rows), ext, None)[old(sessions.nextId) := agent.session.Data()]
                && IR.OnlyCurrent(sessions.rows, ext, old(sessions.nextId))
                && externals.rows == ER.WithInternal(old(externals.rows), ext, agno, now)
      ensures ext in old(externals.rows) && old(Chosen(ext, internalId)).Some? ==>
                && agent != null && fresh(agent) && currentAgent == agent
                && config == Some(EffectiveConfig(modelConfig, apiKey, baseUrl))
                && Resumed(agent, ext, old(Chosen(ext, internalId)).value)
                && unchanged(sessions) && unchanged(externals)
    {
      var external := externals.GetById(ext);
      if external.None? {
        return null, None;
      }
      var resumed, c := ResumeKnown(ext, Chosen(ext, internalId), apiKey, baseUrl, agno, now);
      agent, config := resumed, Some(c);
    }

    /** `resume_agent` past the lookup of a known external session, given
        the internal session it picks, if any. */
    method ResumeKnown(ext: int, internal: Option<IS.InternalSessionData>, apiKey: Option<string>,
                       baseUrl: Option<string>, agno: string, now: Datetime)
      returns (agent: RA.RollbackAgent, config: Dict)
      requires Valid() && !IR.AgnoTaken(sessions.rows, agno)
      modifies this, sessions, externals
      ensures Valid() && modelConfig == old(modelConfig) && fresh(agent) && currentAgent == agent
      ensures internal.None? ==>
                && config == EffectiveConfig(modelConfig, None, None)
                && agent.session != null && fresh(agent.session) && Started(agent, ext, agno, now, old(sessions.nextId))
                && sessions.rows == IR.Demoted(old(sessions.rows), ext, None)[old(sessions.nextId) := agent.session.Data()]
                && IR.OnlyCurrent(sessions.rows, ext, old(sessions.nextId))
                && externals.rows == ER.WithInternal(old(externals.rows), ext, agno, now)
      ensures internal.Some? ==>
                && config == EffectiveConfig(modelConfig, apiKey, baseUrl)
                && Resumed(agent, ext, internal.value)
                && unchanged(sessions) && unchanged(externals)
    {
      if internal.None? {
        agent, config := CreateNewAgent(ext, None, None, agno, now);
        return;
      }
      agent := Reopened(ext, internal.value, now);
      config := EffectiveConfig(modelConfig, apiKey, baseUrl);
      currentAgent := agent;
    }

    /** The agent `resume_agent` builds over a stored internal session: its
        state and session id are the stored ones, and no table is written. */
    method Reopened(ext: int, d: IS.InternalSessionData, now: Datetime) returns (agent: RA.RollbackAgent)
      requires Valid()
      modifies sessions, externals
      ensures Valid() && unchanged(sessions) && unchanged(externals)
      ensures fresh(agent) && Resumed(agent, ext, d)
    {
      agent := new RA.RollbackAgent(ext, d.agnoSessionId, true, sessions, checkpoints, externals,
                                    d.sessionState, true, now);
      agent.session := new IS.InternalSession(d);
    }

    /** `rollback_to_checkpoint`: forks a new agent from the checkpoint; an
        unknown checkpoint gives nothing, creates no session and leaves the
        current agent as it was. */
    method RollbackToCheckpoint(ext: int, checkpointId: int, apiKey: Option<string>, baseUrl: Option<string>,
                                agno: string, now: Datetime)
      returns (agent: RA.RollbackAgent?, config: Option<Dict>)
      requires Valid() && !IR.AgnoTaken(sessions.rows, agno)
      modifies this, sessions, externals, checkpoints
      ensures Valid() && modelConfig == old(modelConfig)
      ensures checkpointId !in old(checkpoints.rows) ==>
                && agent == null && config == None && currentAgent == old(currentAgent)
                && unchanged(sessions) && unchanged(externals) && unchanged(checkpoints)
      ensures checkpointId in old(checkpoints.rows) ==>
                && agent != null && fresh(agent) && currentAgent == agent
                && config == Some(EffectiveConfig(modelConfig, apiKey, baseUrl))
                && agent.session != null
                && agent.session.Data() == RA.Forked(old(sessions.nextId), ext, agno, old(checkpoints.rows)[checkpointId], now)
                && sessions.rows == IR.Demoted(old(sessions.rows), ext, None)[old(sessions.nextId) := agent.session.Data()]
                && (forall id :: id in old(sessions.rows) ==>
                      id in sessions.rows && sessions.rows[id] == old(sessions.rows)[id].(isCurrent := sessions.rows[id].isCurrent))
                && IR.OnlyCurrent(sessions.rows, ext, old(sessions.nextId))
                && checkpoints.rows == RA.AppendAll(old(checkpoints.rows), old(checkpoints.nextId),
                     RA.Copies(CR.Listed(old(checkpoints.rows), old(checkpoints.nextId),
                                         old(checkpoints.rows)[checkpointId].internalSessionId, false),
                               old(checkpoints.rows)[checkpointId], old(sessions.nextId)))
                && externals.rows == ER.WithInternal(old(externals.rows), ext, agno, now)
    {
      var r := Fork(ext, checkpointId, agno, now);
      if r.Err? {
        return null, None;
      }
      currentAgent := r.value;
      agent, config := r.value, Some(EffectiveConfig(modelConfig, apiKey, baseUrl));
    }

    /** The agent `rollback_to_checkpoint` forks, with the stored state of
        the checkpoint and automatic checkpoints on. */
    method Fork(ext: int, checkpointId: int, agno: string, now: Datetime) returns (r: Result<RA.RollbackAgent, string>)
      requires Valid() && !IR.AgnoTaken(sessions.rows, agno)
      modifies sessions, externals, checkpoints
      ensures Valid()
      ensures checkpointId !in old(checkpoints.rows) ==>
                r.Err? && unchanged(sessions) && unchanged(externals) && unchanged(checkpoints)
      ensures checkpointId in old(checkpoints.rows) ==>
                && r.Ok? && fresh(r.value) && r.value.session != null
                && var target := old(checkpoints.rows)[checkpointId];
                   && r.value.session.Data() == RA.Forked(old(sessions.nextId), ext, agno, target, now)
                   && sessions.rows == IR.Demoted(old(sessions.rows), ext, None)[old(sessions.nextId) := r.value.session.Data()]
                   && (forall id :: id in old(sessions.rows) ==>
                         id in sessions.rows && sessions.rows[id] == old(sessions.rows)[id].(isCurrent := sessions.rows[id].isCurrent))
                   && IR.OnlyCurrent(sessions.rows, ext, old(sessions.nextId))
                   && checkpoints.rows == RA.AppendAll(old(checkpoints.rows), old(checkpoints.nextId),
                        RA.Copies(CR.Listed(old(checkpoints.rows), old(checkpoints.nextId), target.internalSessionId, false),
                                  target, old(sessions.nextId)))
                   && externals.rows == ER.WithInternal(old(externals.rows), ext, agno, now)
    {
      r := RA.FromCheckpoint(checkpointId, ext, agno, true, None, checkpoints, sessions, externals, now);
    }

    /** `handle_agent_response`: True iff the agent's state holds a truthy
        request flag and a truthy checkpoint id; then the flag is cleared, the
        id kept, and the agent's internal session saved. */
    method HandleAgentResponse(agent: RA.RollbackAgent) returns (rollback: bool)
      requires agent.Valid() && agent.session != null
      modifies agent, agent.sessions
      ensures agent.Valid()
      ensures rollback <==> RollbackPending(old(agent.sessionState))
      ensures rollback ==> agent.sessionState == Acknowledged(old(agent.sessionState))
      ensures !rollback ==> agent.sessionState == old(agent.sessionState)
      ensures agent.session == old(agent.session)
      ensures agent.sessions != null ==>
                agent.sessions.rows == (if rollback then IR.UpdatedRows(old(agent.sessions.rows), agent.session.Data())
                                        else old(agent.sessions.rows))
    {
      rollback := false;
      if Truthy(Get(agent.sessionState, "rollback_requested", VNone)) {
        var id := Get(agent.sessionState, "rollback_checkpoint_id", VNone);
        if Truthy(id) {
          agent.sessionState := Acknowledged(agent.sessionState);
          agent.SaveInternalSession();
          rollback := true;
        }
      }
    }
  }
}
