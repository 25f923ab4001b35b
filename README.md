# Checkpointed agent sessions: a Dafny model

This project models the checkpoint and rollback core of a conversational
agent system in Dafny, and proves properties of the model. Agents talk to a
user over sessions, save snapshots of their conversation, and roll back to
those snapshots. Every core source file is one Dafny module (one `.dfy` file
each). The modules import each other only as the Python files do.

**Sessions and checkpoints.** A user owns *external sessions*. Each external
session holds a list of *internal sessions*, which are lines of conversation
with their own state and history. An internal session owns *checkpoints*,
which are snapshots of that state and history. Each of the three tables and
the `users` table is a class. Its rows are a `map<int, Row>`, and an id
counter only grows. Each repository operation (create, get, update, delete,
list, prune) is a method whose `ensures` gives the new table and the
result. The queries are specified by functions over the table
(`Listing`): rows filtered, sorted newest first, and limited. Lemmas prove
what the code relies on: new rows get fresh ids, at most one
internal session is current, pruning keeps exactly the newest automatic
checkpoints, and a listing is a permutation of the matching rows in
non-increasing creation order.

**The rollback agent and the service.** `RollbackAgents` models one turn of
the agent that persists its internal session. The language model's turn is
given as its reply and the tool calls it made: each checkpoint tool (create,
list, roll back, delete, details, cleanup) with its argument, and any other
tool, whose name is never one of the checkpoint tools', with the agent state it leaves. The agent appends the user message,
runs the calls through its hook and the tools in order, appends the reply,
takes an automatic checkpoint when one is due and saves the session. A
rollback starts a new current session holding the checkpoint's state and
history. `AgentServices` models the service that
creates, resumes and rolls back agents, including the sanitisation of a
configured base URL.

**The legacy in-state framework.** `RollbackManagers`, `LegacyCheckpoints`,
`CheckpointTools`, `LegacyAgents`, `Instructions` and `TimeUtils` model the
original single-agent design. There, checkpoints live inside the session
state itself. The model covers the manager's
snapshots and restores, the role formatting of its history, the tool hook,
the instruction text, and datetime serialisation, which is idempotent and leaves no datetime behind.

**The tool rollback protocol.** `ToolProtocol`, `ToolRegistry` and
`ToolAdapters` model how tool calls are recorded with their reverse
operations, and how a rollback runs the reverse handlers over the recorded
calls newest first, skipping the checkpoint tools.

**Accounts.** `Validators`, `AuthUsers`, `UserRepositories` and
`AuthServices` model registration, login, password changes and the
administrator rules. `LegacyUsers` and `UserManagers` model the account
store of the original application.

**Conventions.** Python's dynamic values are the datatype `Values.Value`, and
a dictionary is `map<string, Value>`. A datetime is an integer clock value.
Hashing, datetime formatting and parsing, uuid generation and the current
time are function parameters, so no property depends on how they are
computed. A language-model turn is an input: the reply text, the tool calls
it makes and the state it leaves. Failures that Python raises as exceptions
are `Result.Err` values carrying the message text.

## Model

| member | source | states |
|---|---|---|
| AgentServices.SanitizeAsWritten | src/agents/agent_service.py:49-57 | `_sanitize_base_url` as written: None for a missing or empty URL; otherwise whitespace stripped, then trailing '/' stripped, None if nothing is left, and "https://" put in front unless the URL starts with "http://" or "https://" |
| AgentServices.AsWrittenNotIdempotent | src/agents/agent_service.py:52-57 | the as-written sanitiser maps "a /" to "https://a " and that result to "https://a", so it is not idempotent |
| AgentServices.SanitizeBaseUrl | src/agents/agent_service.py:49-57 | the sanitiser as intended: None for a missing, empty or blank URL; trailing whitespace and slashes removed in any mix; scheme prefixed unless present |
| AgentServices.SanitizedTrimmed | src/agents/agent_service.py:52-57 | a sanitised URL has no whitespace at either end, no trailing '/', and starts with "http://" or "https://" |
| AgentServices.SanitizeIdempotent | src/agents/agent_service.py:52-57 | sanitising a sanitised URL returns it unchanged |
| AgentServices.DefaultConfig | src/agents/agent_service.py:36-45 | the fallback configuration holds the model id, the environment's API key and the environment base URL sanitised by the corrected rule (see Left out), which carries a scheme when present |
| AgentServices.InitialConfig | src/agents/agent_service.py:26-45 | `model_config or {...}`: a given non-empty configuration is kept as is, a missing or empty one is replaced by the default; never empty |
| AgentServices.Override | src/agents/agent_service.py:81-84 | a truthy override sets exactly that key; every other entry is kept |
| AgentServices.EffectiveConfig | src/agents/agent_service.py:79-84 | the per-call copy: a truthy api_key and a truthy base_url (sanitised by the corrected rule, see Left out) replace the stored ones, every other entry is the stored one, and no other key appears |
| AgentServices.Acknowledged | src/agents/agent_service.py:240-247 | acknowledging a request sets `rollback_requested` to False and keeps every other key, the checkpoint id included |
| AgentServices.RequestedIsPending | src/agents/agent_service.py:239-251 | a request raised by the rollback tool for a non-zero id is pending; once acknowledged it is no longer pending and the id is still readable |
| AgentServices.AgentService.constructor | src/agents/agent_service.py:26-47 | the service starts with no current agent and the initial configuration over the given repositories; that configuration carries the corrected base URL (see Left out) |
| AgentServices.AgentService.CreateNewAgent | src/agents/agent_service.py:59-108 | creates a fresh agent with automatic checkpoints on; its new internal session is the only current one of the external session and is appended to the external session's list; the stored configuration is unchanged and the agent becomes current |
| AgentServices.AgentService.ResumeAgent | src/agents/agent_service.py:110-169 | an unknown external session gives None and changes nothing; with no internal session found, a new agent is created as `create_new_agent` does it without overrides: its session is the only new row and the only current one, the other rows of the external session are demoted, and the new Agno id is added to the external session's list; otherwise the stored session is reused with its state and agno id and no table is written |
| AgentServices.AgentService.ResumeKnown | src/agents/agent_service.py:134-169 | for a known external session: without a chosen internal session it behaves as `create_new_agent` with no overrides, with the same new sessions table and external session list; with one, the agent runs over that stored session and no repository changes |
| AgentServices.AgentService.Reopened | src/agents/agent_service.py:144-166 | the agent built over a stored internal session takes its data, state and agno id; no repository changes |
| AgentServices.AgentService.RollbackToCheckpoint | src/agents/agent_service.py:171-227 | an unknown checkpoint id gives None (the ValueError is caught) and nothing changes; otherwise a new agent forked from the checkpoint becomes current, its session is the only new row and the only current one, every earlier session row is kept except for its current flag, the earlier checkpoints of the source session are appended as copies for the new session, the new Agno id is registered with the external session, and the stored configuration never changes |
| AgentServices.AgentService.Fork | src/agents/agent_service.py:204-223 | the fork fails with the source's error for an unknown id; otherwise it returns an agent over a new session holding the checkpoint's state and history, adds exactly that session row and demotes the others of the external session without otherwise changing them, appends copies of the earlier checkpoints, and registers the new Agno id with the external session |
| AgentServices.AgentService.HandleAgentResponse | src/agents/agent_service.py:229-251 | returns True iff `rollback_requested` and `rollback_checkpoint_id` are both truthy; on True the request flag is cleared and the id kept; on False the state is unchanged |
| AuthUsers.SetPassword | src/auth/user.py:62-68 | after `set_password(p)`, `verify_password(p)` holds, and no field but the hash changes |
| AuthUsers.LastPasswordWins | src/auth/user.py:51-68 | after two `set_password` calls a candidate verifies iff its hash is that of the second password |
| AuthUsers.ToDict | src/auth/user.py:70-82 | `to_dict` writes exactly id, username, is_admin, created_at and last_login, never `password_hash` |
| AuthUsers.FromDict | src/auth/user.py:84-105 | an empty dict reads as the default user; an absent hash reads as "", an absent `is_admin` as False, an absent or falsy time as None |
| AuthUsers.RoundTrip | src/auth/user.py:70-105 | `from_dict` of `to_dict(u)` with `password_hash` added back reproduces u |
| AuthUsers.PublicRoundTrip | src/auth/user.py:70-105 | `from_dict(to_dict(u))` is u with an empty hash, against which no password verifies |
| AuthServices.NewAccount | src/auth/auth_service.py:82-87 | the account `register` builds is a non-admin with no id, created now, never logged in, whose password verifies |
| AuthServices.AdminsMayDeleteAdmins | src/auth/auth_service.py:221-241 | an administrator may delete another administrator other than `rootusr`: the code has no check for it, despite the docstring |
| AuthServices.AuthService.constructor | src/auth/auth_service.py:33-39 | the service works over the given repository |
| AuthServices.AuthService.IsUsernameTaken | src/auth/auth_service.py:41-51 | true iff some stored user has that username |
| AuthServices.AuthService.Register | src/auth/auth_service.py:53-98 | succeeds iff the registration data is valid and the name is free; a validation failure returns the validator's message, a taken name returns "already taken", and both leave the store unchanged; a success stores a non-admin user under a fresh id |
| AuthServices.AuthService.Login | src/auth/auth_service.py:100-132 | succeeds iff the user exists and the password verifies; an unknown user and a wrong password give the same message and change nothing; a success sets `last_login` and saves it |
| AuthServices.AuthService.ChangePassword | src/auth/auth_service.py:134-167 | succeeds iff the user exists, the current password verifies and the new one is valid, with the first failure's message; afterwards the new password verifies; a failure changes nothing |
| AuthServices.AuthService.ResetAdminPassword | src/auth/auth_service.py:169-205 | the same steps for `rootusr` only: only rootusr's hash can change |
| AuthServices.AuthService.DeleteUser | src/auth/auth_service.py:207-248 | deletes iff the requester is an admin, the target exists, is not `rootusr` and is not the requester, with the messages in that order; rootusr and the requester always remain; a refusal changes nothing |
| Checkpoints.FromDict | src/checkpoints/checkpoint.py:63-85 | an empty dict reads as the dataclass defaults; each missing key gives its default (id None, session 0, empty state and history, `is_auto` False, `created_at` None) |
| Checkpoints.RoundTrip | src/checkpoints/checkpoint.py:46-85 | `from_dict(to_dict(c))` equals c field by field |
| Checkpoints.LeadingFields | src/checkpoints/checkpoint.py:52-56 | `to_dict` stores id, internal_session_id, checkpoint_name and session_state where `from_dict` reads them |
| Checkpoints.TrailingFields | src/checkpoints/checkpoint.py:57-60 | `to_dict` stores conversation_history, is_auto, metadata and created_at where `from_dict` reads them |
| Checkpoints.FromInternalSession | src/checkpoints/checkpoint.py:87-111 | the snapshot holds the session's id, state and history as values, the given name and `is_auto`, `created_at` now, and metadata with the agno id and `checkpoint_count + 1` |
| InternalSessions.Message | src/sessions/internal_session.py:54-59 | the history entry has role, content and a timestamp, plus every extra keyword field, an extra `timestamp` overriding the generated one |
| InternalSessions.Merged | src/sessions/internal_session.py:62-68 | `update` overwrites the keys of the new state, keeps every other key and removes none |
| InternalSessions.FromDict | src/sessions/internal_session.py:87-109 | an empty dict reads as the defaults; each missing key gives its default (`is_current` True, `checkpoint_count` 0, empty state and history) |
| InternalSessions.RoundTrip | src/sessions/internal_session.py:70-109 | `from_dict(to_dict(s))` equals s |
| InternalSessions.InternalSession.constructor | src/sessions/internal_session.py:37-44 | the live session object holds exactly the given field values |
| InternalSessions.InternalSession.AddMessage | src/sessions/internal_session.py:46-60 | appends exactly one entry at the end; earlier entries and every other field are unchanged |
| InternalSessions.InternalSession.UpdateState | src/sessions/internal_session.py:62-68 | the state becomes the merge of the old state and the changes; no other field changes |
| ExternalSessions.AddNewAppendsAndSelects | src/sessions/external_session.py:47-55 | adding a new id appends it at the end and makes it current |
| ExternalSessions.AddPresentIsNoOp | src/sessions/external_session.py:53 | adding an id already listed leaves the list and the current id unchanged |
| ExternalSessions.AddKeepsWellFormed | src/sessions/external_session.py:47-55 | adding keeps the list free of duplicates and the current id None or listed, and the id is listed afterwards |
| ExternalSessions.SetCurrentSucceedsIffListed | src/sessions/external_session.py:57-69 | `set_current_internal_session` returns True iff the id is listed; only then does current change (to that id); the list never changes and well-formedness is kept |
| ExternalSessions.FromDict | src/sessions/external_session.py:88-111 | an empty dict reads as the defaults; each missing key gives its default (user 0, active, empty list, no current id) |
| ExternalSessions.RoundTrip | src/sessions/external_session.py:71-111 | `from_dict(to_dict(s))` equals s |
| ExternalSessions.LeadingFields | src/sessions/external_session.py:77-81 | `to_dict` stores id, user_id, session_name and created_at where `from_dict` reads them |
| ExternalSessions.TrailingFields | src/sessions/external_session.py:82-86 | `to_dict` stores updated_at, is_active, internal_session_ids and current_internal_session_id where `from_dict` reads them |
| ExternalSessions.ExternalSession.constructor | src/sessions/external_session.py:38-45 | the live session object holds exactly the given field values |
| ExternalSessions.ExternalSession.AddInternalSession | src/sessions/external_session.py:47-55 | the object's new state is the one `add_internal_session` specifies |
| ExternalSessions.ExternalSession.SetCurrentInternalSession | src/sessions/external_session.py:57-69 | the result and the new state are the ones `set_current_internal_session` specifies |
| CheckpointRepository.ListedSound | src/database/repositories/checkpoint_repository.py:129-161 | every checkpoint `get_by_internal_session` lists is a stored row of that session (an automatic one when `auto_only`) |
| CheckpointRepository.ListedComplete | src/database/repositories/checkpoint_repository.py:143-158 | every stored row matching the query is listed |
| CheckpointRepository.ListedDistinct | src/database/repositories/checkpoint_repository.py:143-161 | no row is listed twice |
| CheckpointRepository.ListedSpec | src/database/repositories/checkpoint_repository.py:129-161 | the listing holds exactly the session's matching rows, each once, in non-increasing `created_at` order |
| CheckpointRepository.LatestSpec | src/database/repositories/checkpoint_repository.py:163-188 | `get_latest_checkpoint` is None iff the session has no checkpoint, and otherwise is one of the session's checkpoints at least as new as every other |
| CheckpointRepository.CountsAgree | src/database/repositories/checkpoint_repository.py:249-278 | total = auto + manual; total is the length of the full listing and auto the length of the automatic listing |
| CheckpointRepository.PrunedSpec | src/database/repositories/checkpoint_repository.py:222-244 | pruning only removes rows, never touches manual checkpoints or other sessions, and keeps an automatic checkpoint of the session iff the LIMIT query selected its id |
| CheckpointRepository.PrunedAutoIds | src/database/repositories/checkpoint_repository.py:222-244 | the automatic checkpoints of the session left after pruning are exactly the kept ids |
| CheckpointRepository.KeptAreAuto | src/database/repositories/checkpoint_repository.py:222-228 | the ids `delete_auto_checkpoints` keeps are automatic checkpoints of the session |
| CheckpointRepository.RemovedBeyondKept | src/database/repositories/checkpoint_repository.py:222-247 | the number of rows removed is the number of the session's automatic checkpoints minus the number kept by `LIMIT` |
| CheckpointRepository.PruneKeepsCount | src/database/repositories/checkpoint_repository.py:209-247 | `delete_auto_checkpoints(s, k)` leaves min(k, n) automatic checkpoints of s: none when k is 0 (the empty keep-list branch), and all n when k is negative (SQLite reads a negative LIMIT as no limit) |
| CheckpointRepository.PruneKeepsNewest | src/database/repositories/checkpoint_repository.py:222-244 | every automatic checkpoint left is at least as new as every one removed |
| CheckpointRepository.NewestKept | src/database/repositories/checkpoint_repository.py:223-230 | a kept id is at least as new as any automatic checkpoint of the session that was not kept |
| CheckpointRepository.PruneIdempotent | src/database/repositories/checkpoint_repository.py:222-247 | pruning twice with the same k equals pruning once, so the second call removes nothing |
| CheckpointRepository.PruneRemovedCount | src/database/repositories/checkpoint_repository.py:246-247 | the number removed is n − min(k, n) (0 when k is negative) |
| CheckpointRepository.CheckpointRepository.constructor | src/database/repositories/checkpoint_repository.py:40-67 | a new table is empty and the first id is 1 |
| CheckpointRepository.CheckpointRepository.Create | src/database/repositories/checkpoint_repository.py:69-102 | stores the checkpoint under a fresh id, filling a missing `created_at` with now; no other row changes, and `get_by_id` then returns it |
| CheckpointRepository.CheckpointRepository.Delete | src/database/repositories/checkpoint_repository.py:190-207 | returns True iff the id existed; afterwards `get_by_id` returns None and no other row changes |
| CheckpointRepository.CheckpointRepository.DeleteAutoCheckpoints | src/database/repositories/checkpoint_repository.py:209-247 | the table becomes the pruned table, and the count returned is the number of rows removed |
| InternalSessionRepository.InsertKeepsInvariants | src/database/repositories/internal_session_repository.py:89-110 | inserting under a fresh id with an unused agno id keeps the table invariant (own key, creation time, unique agno ids) |
| InternalSessionRepository.DemotedSpec | src/database/repositories/internal_session_repository.py:314-337 | `_mark_all_not_current` clears the flag of every session of that external session except the excluded one, changes no other column, and leaves other external sessions alone |
| InternalSessionRepository.DemotedIdentity | src/database/repositories/internal_session_repository.py:314-337 | demotion keeps every row's identity and only lowers flags |
| InternalSessionRepository.DemotedKeepsInvariants | src/database/repositories/internal_session_repository.py:314-337 | demotion keeps the table invariant and never creates a second current session |
| InternalSessionRepository.PromotedIsOnlyCurrent | src/database/repositories/internal_session_repository.py:84-108 | demoting all of an external session's sessions and then writing one current row leaves that row the only current session of the parent |
| InternalSessionRepository.BeforeInsertSpec | src/database/repositories/internal_session_repository.py:83-85 | the demotion step of `create` runs only for a current session (otherwise every flag is unchanged), clears all of that parent's flags, and keeps the invariants and the set of agno ids |
| InternalSessionRepository.CreateSpec | src/database/repositories/internal_session_repository.py:71-110 | after a successful `create` the invariants hold, and a current new session is the only current session of its parent |
| InternalSessionRepository.UpdateSpec | src/database/repositories/internal_session_repository.py:112-146 | `update` without a truthy id changes nothing; otherwise it demotes the siblings of a current session (but not the session itself), writes the four columns of its row, and leaves other parents' rows alone |
| InternalSessionRepository.UpdateKeepsOneCurrent | src/database/repositories/internal_session_repository.py:126-146 | an `update` that marks a session current leaves it the only current session of its parent and keeps at most one current per parent |
| InternalSessionRepository.SetCurrentSpec | src/database/repositories/internal_session_repository.py:247-274 | an unknown id changes nothing; otherwise exactly the target is current among its siblings, the invariants hold, and only flags of that parent's sessions change |
| InternalSessionRepository.ListedSpec | src/database/repositories/internal_session_repository.py:198-312 | `get_by_external_session` lists each session of the parent once, no other row, newest first; `count_sessions` equals its length |
| InternalSessionRepository.FirstWhereSpec | src/database/repositories/internal_session_repository.py:230-245 | a `fetchone` without ordering finds nothing iff no row matches, and otherwise a matching stored row |
| InternalSessionRepository.CurrentSessionSpec | src/database/repositories/internal_session_repository.py:221-245 | `get_current_session` is None iff the parent has no current session, else a current session of that parent, the only one when at most one is current |
| InternalSessionRepository.ByAgnoSpec | src/database/repositories/internal_session_repository.py:173-196 | `get_by_agno_session_id` is the unique row with that agno id, or None when there is none |
| InternalSessionRepository.InternalSessionRepository.constructor | src/database/repositories/internal_session_repository.py:30-69 | a new table is empty and the first id is 1 |
| InternalSessionRepository.InternalSessionRepository.MarkAllNotCurrent | src/database/repositories/internal_session_repository.py:314-337 | the table becomes the demoted table |
| InternalSessionRepository.InternalSessionRepository.Create | src/database/repositories/internal_session_repository.py:71-110 | stamps a missing `created_at`, demotes the siblings of a current session first, then inserts under a fresh id and writes the id back, or fails on a duplicate agno id after the demotion |
| InternalSessionRepository.InternalSessionRepository.Update | src/database/repositories/internal_session_repository.py:112-146 | returns False without a truthy id, and otherwise True iff the row exists; the table becomes the updated table |
| InternalSessionRepository.InternalSessionRepository.SetCurrentSession | src/database/repositories/internal_session_repository.py:247-274 | returns True iff the id exists; the table becomes the one with only the target current among its siblings |
| InternalSessionRepository.InternalSessionRepository.Delete | src/database/repositories/internal_session_repository.py:276-293 | returns True iff the id existed; no remaining row changes, so no other session is promoted |
| ExternalSessionRepository.NewRowSpec | src/database/repositories/external_session_repository.py:70-107 | the row `create` inserts reads back as the session with its new id and a filled `created_at`, and its columns agree with its blob |
| ExternalSessionRepository.RewrittenSpec | src/database/repositories/external_session_repository.py:109-143 | `update` without a truthy id or row changes nothing; otherwise the row reads back as the object with `updated_at` now, the owner and creation columns and every other row are kept |
| ExternalSessionRepository.RewrittenKeepsColumns | src/database/repositories/external_session_repository.py:127-143 | an `update` whose object keeps the row's owner and creation time keeps the columns in agreement with the blob |
| ExternalSessionRepository.WithInternalSpec | src/database/repositories/external_session_repository.py:230-245 | an unknown session changes nothing; otherwise the agno id is listed afterwards, a new id is appended and made current, a listed one leaves list and current as they were, the list stays duplicate-free, and no other row changes |
| ExternalSessionRepository.WithCurrentInternalSpec | src/database/repositories/external_session_repository.py:247-263 | succeeds iff the session exists and lists the id; then current becomes that id and the list is kept; otherwise nothing changes; no other row changes |
| ExternalSessionRepository.DeactivatedSpec | src/database/repositories/external_session_repository.py:265-284 | `deactivate` keeps every row, marks the target inactive in column and blob with `updated_at` now, and touches no other row |
| ExternalSessionRepository.Loads | src/database/repositories/external_session_repository.py:200-201 | one session read back per row, in order |
| ExternalSessionRepository.UserSessionsSpec | src/database/repositories/external_session_repository.py:170-354 | `get_user_sessions` lists each of the user's sessions (active ones when `active_only`) exactly once, no other row, newest first; `count_user_sessions` equals its length |
| ExternalSessionRepository.ContainingRowSpec | src/database/repositories/external_session_repository.py:203-228 | `get_by_internal_session` is None iff no session lists the id, and otherwise a stored session whose list contains it |
| ExternalSessionRepository.OwnershipSpec | src/database/repositories/external_session_repository.py:309-328 | `check_ownership` is true iff the session exists with that `user_id` |
| ExternalSessionRepository.ExternalSessionRepository.constructor | src/database/repositories/external_session_repository.py:31-68 | a new table is empty and the first id is 1 |
| ExternalSessionRepository.ExternalSessionRepository.Create | src/database/repositories/external_session_repository.py:70-107 | inserts the session under a fresh id, fills a missing `created_at`, writes the id back into the object; no other row changes and `get_by_id` then finds it |
| ExternalSessionRepository.ExternalSessionRepository.Update | src/database/repositories/external_session_repository.py:109-143 | returns False without a truthy id, otherwise True iff the row exists; stamps `updated_at` on the object and rewrites the row |
| ExternalSessionRepository.ExternalSessionRepository.AddInternalSession | src/database/repositories/external_session_repository.py:230-245 | returns False for an unknown session; the table becomes the one `add_internal_session` specifies |
| ExternalSessionRepository.ExternalSessionRepository.SetCurrentInternalSession | src/database/repositories/external_session_repository.py:247-263 | returns True iff the session exists and lists the id; nothing is written otherwise |
| ExternalSessionRepository.ExternalSessionRepository.Deactivate | src/database/repositories/external_session_repository.py:265-284 | returns True iff the session exists; the row stays, marked inactive |
| ExternalSessionRepository.ExternalSessionRepository.Delete | src/database/repositories/external_session_repository.py:286-307 | returns True iff the row existed; afterwards `get_by_id` is None and no other row changes (no cascade) |
| Instructions.ComposeShape | src/rollback_agent/utils/instructions.py:41-76 | the composed list is the fixed lines, then the context lines (header first, checkpoint names fifth), then the restored conversation context as one more line iff it is non-empty, then the Baidu lines iff asked for; its length adds up accordingly |
| Instructions.CheckpointLineCount | src/rollback_agent/utils/instructions.py:29-38 | there are six static checkpoint lines |
| Instructions.BaiduLineCount | src/rollback_agent/utils/instructions.py:55-62 | there are four Baidu lines |
| Instructions.ContextShape | src/rollback_agent/utils/instructions.py:41-52 | five context lines, header first and checkpoint list fifth, plus the restored context iff non-empty |
| TimeUtils.SerializeDict | src/rollback_agent/utils/time_utils.py:75-76 | serialising a dict keeps its keys |
| TimeUtils.SerializeDictUpdate | src/rollback_agent/utils/time_utils.py:75-76 | serialising a dict with one entry set equals setting the serialised entry in the serialised dict |
| TimeUtils.SerializeShape | src/rollback_agent/utils/time_utils.py:71-79 | a datetime maps to its formatted text, a dict to one with the same keys and each value serialised, a list to one of the same length serialised element-wise, anything else (tuples included) to itself |
| TimeUtils.SerializedHasNoDatetime | src/rollback_agent/utils/time_utils.py:71-79 | the result contains no datetime outside a tuple |
| TimeUtils.NoDatetimeUnchanged | src/rollback_agent/utils/time_utils.py:71-79 | a value with no datetime outside a tuple is returned unchanged |
| TimeUtils.SerializeIdempotent | src/rollback_agent/utils/time_utils.py:71-79 | serialising twice equals serialising once |
| TimeUtils.SerializeDictIdempotent | src/rollback_agent/utils/time_utils.py:75-76 | the same for a whole dict |
| LegacyAgents.InitialState | src/rollback_agent/agent.py:119-125 | the initial state has `message_counter` 0, the given interval and maximum and an empty restored context; its "checkpoints" list is held apart (and starts empty) |
| LegacyAgents.CreateRollbackAgent | src/rollback_agent/agent.py:53-140 | the new agent has the given session id (or a time-stamped one when none is given), the given user, the initial state with no checkpoints, storage, and the instructions composed with Baidu guidance from a context with counter 0 and no checkpoints |
| LegacyAgents.FreshStateAdmits | src/rollback_agent/agent.py:119-125 | on a new agent's state the configured maximum is read back, and every checkpoint creation succeeds and keeps the list within it |
| LegacyAgents.AutoCheckpointHook | src/rollback_agent/agent.py:28-50 | the tool's result is returned unchanged and its error propagates with nothing created; after a successful call of a tool outside the four checkpoint tools an "auto" checkpoint is created, and a failed creation is swallowed, leaving the list unchanged |
| LegacyAgents.AutoCheckpointShape | src/rollback_agent/agent.py:40-44 | the hook's checkpoint is of type "auto", named "Auto checkpoint after: " followed by the tool name, and recorded as made by the system |
| CheckpointTools.Agent.State | src/rollback_agent/tools/checkpoint.py:57-67 | the whole `session_state` is the other keys plus the "checkpoints" list of the checkpoints' dicts |
| CheckpointTools.Agent.constructor | src/rollback_agent/agent.py:109-139 | the agent holds exactly the given session id, user, storage flag, state, checkpoint list and instructions |
| CheckpointTools.NewCheckpoint | src/rollback_agent/tools/checkpoint.py:41-54 | the snapshot's state is the current state without "checkpoints", each value serialised; the given name is kept when truthy, otherwise a time-stamped default is used; `message_count` comes from `message_counter` (default 0); `created_by` is "user" iff the type is manual; `conversation_length` is the history length |
| CheckpointTools.Admitted | src/rollback_agent/tools/checkpoint.py:60-67 | below the bound the new checkpoint is appended to the unchanged list; at the bound the oldest (index 0) is removed first; the new one is always last; `pop(0)` of an empty list is an error |
| CheckpointTools.AdmittedKeepsBound | src/rollback_agent/tools/checkpoint.py:56-67 | within the bound the list grows by one below `max_checkpoints` and keeps its length at it, so the bound keeps holding |
| CheckpointTools.CreateCheckpoint | src/rollback_agent/tools/checkpoint.py:11-69 | the list becomes the admitted list with the new snapshot last, or is unchanged when creation raises; the other keys of the state never change |
| CheckpointTools.ListingShowsEach | src/rollback_agent/tools/checkpoint.py:87-96 | the listing holds each checkpoint's numbered entry between the entries before it and after it, in list order |
| CheckpointTools.ListCheckpoints | src/rollback_agent/tools/checkpoint.py:72-96 | "No checkpoints available." for an empty list, else the header followed by one numbered entry per checkpoint in list order |
| CheckpointTools.FirstMatch | src/rollback_agent/tools/checkpoint.py:113-142 | the position of the first checkpoint whose id equals the argument or starts with it, or None when there is none |
| CheckpointTools.FindFirstMatch | src/rollback_agent/tools/checkpoint.py:135-142 | the search loop returns that position, or -1 when nothing matches |
| CheckpointTools.Deleted | src/rollback_agent/tools/checkpoint.py:110-119 | only the first match is removed and the other entries keep their order; with no match the list is unchanged |
| CheckpointTools.DeleteCheckpoint | src/rollback_agent/tools/checkpoint.py:99-119 | the list becomes the one without the first match, with the success text naming it, or the not-found text and no change; the other keys never change |
| CheckpointTools.RestoreStep | src/rollback_agent/tools/checkpoint.py:151-153 | copying one more snapshot key sets that key, except "checkpoints", which is skipped |
| CheckpointTools.RestoreKeys | src/rollback_agent/tools/checkpoint.py:150-153 | every snapshot key other than "checkpoints" is overwritten and every other key kept |
| CheckpointTools.RolledBackSpec | src/rollback_agent/tools/checkpoint.py:150-172 | after a rollback the snapshot's keys are overwritten and other keys kept; `message_counter` is the checkpoint's `message_count`; `rollback_conversation` reads back as its snapshot; `rollback_completed` is True; with storage, `new_session_id` is the session id + "_rollback_" + the id's first 8 characters |
| CheckpointTools.RollbackToCheckpoint | src/rollback_agent/tools/checkpoint.py:121-177 | with no match, state and list are unchanged and the not-found text is returned; on a match the state becomes the rolled-back state and the list the prefix ending at the target |
| LegacyCheckpoints.ToDict | src/rollback_agent/models/checkpoint.py:20-32 | `to_dict` produces exactly the eight fields |
| LegacyCheckpoints.FromDict | src/rollback_agent/models/checkpoint.py:34-41 | a key that is not a field is rejected (the TypeError of `cls(**data)`); a missing field takes its default (fresh uuid, now, "manual", no name, 0, empty collections); a string `timestamp` is parsed and any other value passes through; the argument is a value and is never changed |
| LegacyCheckpoints.RoundTrip | src/rollback_agent/models/checkpoint.py:20-41 | `from_dict(to_dict(c))` preserves every field except the timestamp, which goes through the default format and back |
| LegacyUsers.VerifyPassword | src/rollback_agent/models/user.py:23-25 | a record verifies a password exactly when it has a hash and that hash equals the password's hash; a record without a hash verifies nothing |
| LegacyUsers.OptFormatted | src/rollback_agent/models/user.py:33-34 | an absent time is written as `None`, a present one as its formatted text |
| LegacyUsers.ToDict | src/rollback_agent/models/user.py:27-35 | `to_dict` produces exactly the five fields, the password hash included, with absent times as `None` |
| LegacyUsers.OptParsed | src/rollback_agent/models/user.py:44-45 | a falsy column reads as no time; text is parsed and a datetime is kept |
| LegacyUsers.FromDbRow | src/rollback_agent/models/user.py:37-46 | a row shorter than five columns is an `IndexError`; otherwise columns 0 to 4 become the id, name, hash and the two times, each falsy time column read as absent |
| LegacyUsers.RowRoundTrip | src/rollback_agent/models/user.py:27-46 | reading `to_dict`'s values back as a row keeps id, name and hash and re-parses each formatted time |
| LegacyUsers.AsOptIntRoundTrip | src/rollback_agent/models/user.py:41 | an optional id survives being stored and read back |
| LegacyUsers.AsOptStrRoundTrip | src/rollback_agent/models/user.py:42-43 | an optional text column survives being stored and read back |
| Listing.RowsById | src/database/repositories/checkpoint_repository.py:144-147 | a table scan returns only stored rows and every stored row whose id lies below the next id |
| Listing.RowsByIdIncreasing | src/database/repositories/checkpoint_repository.py:144-147 | the scan lists rows in strictly increasing id order (insertion order), all below the next id |
| Listing.Filter | src/database/repositories/checkpoint_repository.py:148 | `WHERE` keeps exactly the rows that satisfy the condition, none added |
| Listing.CountIsFilterLength | src/database/repositories/checkpoint_repository.py:262-268 | `COUNT(*) ... WHERE` is the number of rows `SELECT ... WHERE` returns |
| Listing.CountSplit | src/database/repositories/checkpoint_repository.py:262-268 | a total splits into the counts of two disjoint conditions that cover it, as `total = auto + manual` |
| Listing.Insert | src/database/repositories/checkpoint_repository.py:149 | placing one row into an ordered list adds exactly that row |
| Listing.InsertSorted | src/database/repositories/checkpoint_repository.py:149 | inserting into a list ordered by descending key keeps it ordered |
| Listing.SortDesc | src/database/repositories/checkpoint_repository.py:149 | `ORDER BY created_at DESC` returns a permutation of its input in descending key order |
| Listing.SortedMembers | src/database/repositories/checkpoint_repository.py:149 | sorting neither adds nor drops a row |
| Listing.Limit | src/database/repositories/checkpoint_repository.py:227 | `LIMIT n` returns the first `min(n, length)` rows, and a negative limit returns all of them |
| Listing.QuerySound | src/database/repositories/checkpoint_repository.py:144-150 | every row a `SELECT ... WHERE ... ORDER BY` returns satisfies the condition and is the row stored under its id |
| Listing.QueryComplete | src/database/repositories/checkpoint_repository.py:144-150 | every stored row that satisfies the condition is returned |
| Listing.QueryIds | src/database/repositories/checkpoint_repository.py:144-150 | the ids returned are exactly the ids of the matching rows |
| Listing.QueryDistinct | src/database/repositories/checkpoint_repository.py:144-150 | no row is returned twice |
| Listing.QueryCount | src/database/repositories/checkpoint_repository.py:262-268 | the count of matching rows equals the length of the query's result |
| RollbackAgents.IsCheckpointTool | src/agents/rollback_agent.py:249-270 | `None` and the empty name are not checkpoint tools; a name is one exactly when it is one of the six tool names |
| RollbackAgents.LastTool | src/agents/rollback_agent.py:71-76 | after a turn the hook leaves no last tool exactly when no tool was called, and otherwise one of the called tools |
| RollbackAgents.AutoCheckpointDue | src/agents/rollback_agent.py:205-209 | an automatic checkpoint is due exactly when auto-checkpointing is on, some tool was called and the last one is not a checkpoint tool |
| RollbackAgents.Asked | src/agents/rollback_agent.py:170 | the user message is appended as the last entry of the history, timestamped, and nothing else of the session changes |
| RollbackAgents.Answered | src/agents/rollback_agent.py:199-203 | the reply is appended as the last entry of the history, the agent state is merged into the session state, and nothing else changes |
| RollbackAgents.StepSession | src/agents/rollback_agent.py:321-495 | one tool call changes the agent's session only by the count of a checkpoint `create_checkpoint_tool` made, advances the next checkpoint id by the same, and adds no internal session row |
| RollbackAgents.TurnSession | src/agents/rollback_agent.py:321-495 | over a whole turn the session changes only in its checkpoint count, which grows by the number of `create_checkpoint_tool` calls when there is a checkpoints table and a truthy session id, and no internal session row is added |
| RollbackAgents.StepKeepsOtherCheckpoints | src/agents/rollback_agent.py:321-495 | one tool call keeps the checkpoints table well formed, keeps the session id, never touches another session's checkpoint, changes no stored checkpoint, and adds only a manual checkpoint of the agent's own session under a fresh id |
| RollbackAgents.TurnKeepsOtherCheckpoints | src/agents/rollback_agent.py:321-495 | the same over any sequence of tool calls: deletions and cleanups reach only the agent's own checkpoints and creations add only its own manual ones |
| RollbackAgents.ReadOnlyTurn | src/agents/rollback_agent.py:351-375 | a turn that lists checkpoints, asks for their details or calls other tools leaves the session and both tables as they were and changes only the agent state |
| RollbackAgents.OwnToolsAreCheckpointTools | src/agents/rollback_agent.py:205-209 | a turn whose last call is one of the agent's checkpoint tools never takes the automatic checkpoint |
| RollbackAgents.RunSession | src/agents/rollback_agent.py:156-214 | after `run` the history has grown by exactly the user message and the reply, the session state is the old one merged with the agent state, the checkpoint count has grown by the manual checkpoints of the turn plus the automatic one when it was made, and the session id and current flag are kept |
| RollbackAgents.AfterTool | src/agents/rollback_agent.py:209 | the automatic checkpoint is named "After " followed by the tool name |
| RollbackAgents.DefaultName | src/agents/rollback_agent.py:330-331 | a truthy name is kept; otherwise the name starts with "Checkpoint at " |
| RollbackAgents.InfoText | src/agents/rollback_agent.py:463-473 | the info reply ends with the conversation-length line |
| RollbackAgents.Cleanup | src/agents/rollback_agent.py:492-495 | the cleanup reply says nothing was cleaned exactly when no row was removed, and otherwise reports the count and the number kept |
| RollbackAgents.ListingShowsEach | src/agents/rollback_agent.py:365-375 | the listing is the header followed by one entry per checkpoint in list order, so each checkpoint's entry appears in its place |
| RollbackAgents.FirstNamedSpec | src/agents/rollback_agent.py:405-409 | the name search finds nothing exactly when no checkpoint's truthy name matches ignoring case, and otherwise finds the first match |
| RollbackAgents.NewestNameWins | src/agents/rollback_agent.py:401-409 | over the newest-first list, the checkpoint found by name is a newest one among those that match |
| RollbackAgents.FindByName | src/agents/rollback_agent.py:406-409 | the loop with `break` returns the first matching checkpoint |
| RollbackAgents.RollbackRequested | src/agents/rollback_agent.py:415-416 | a rollback request sets `rollback_requested` to true and `rollback_checkpoint_id` to the checkpoint's id, and keeps every other key |
| RollbackAgents.CopiesSound | src/agents/rollback_agent.py:635-648 | every copy has no id, belongs to the new session and comes from a checkpoint no later than the target, and there are no more copies than listed checkpoints |
| RollbackAgents.CopiesComplete | src/agents/rollback_agent.py:635-648 | every listed checkpoint with a timestamp no later than the target's is copied |
| RollbackAgents.CopiesStep | src/agents/rollback_agent.py:635-648 | each further listed checkpoint adds its copy at the end when it qualifies, and adds nothing otherwise |
| RollbackAgents.AppendAllSpec | src/agents/rollback_agent.py:648 | creating the copies one by one keeps the old rows and stores the i-th copy under the next id plus i, adding no other row |
| RollbackAgents.AppendAllStep | src/agents/rollback_agent.py:648 | one more `create` stores one more row under the next id |
| RollbackAgents.ForkCopiesEarlier | src/agents/rollback_agent.py:629-648 | every checkpoint of the source session that is no later than the target is copied into the fork |
| RollbackAgents.RollbackAgent.constructor | src/agents/rollback_agent.py:34-126 | the tool-tracking and restore flags start cleared; when creation is skipped there is no session and nothing is written; otherwise a fresh current session is stored under the next id, the external session's other sessions are demoted, it is the only current one, and its Agno id is added to the external session |
| RollbackAgents.RollbackAgent.StartSession | src/agents/rollback_agent.py:128-154 | `_create_internal_session` stores a current session with an empty history and the agent's state (when there is a table), and `_register_with_external_session` adds its Agno id to the external session |
| RollbackAgents.RollbackAgent.SaveInternalSession | src/agents/rollback_agent.py:497-500 | saving rewrites the session's own row when there is a table and a truthy id, and otherwise leaves the table as it is |
| RollbackAgents.RollbackAgent.CreateAutoCheckpoint | src/agents/rollback_agent.py:305-318 | with a table and a truthy session id, exactly one automatic checkpoint of the session is stored under the next id and the session's count goes up by one; otherwise nothing changes |
| RollbackAgents.RollbackAgent.CheckpointHook | src/agents/rollback_agent.py:71-76 | the hook records that a tool was called and its name, and changes nothing else |
| RollbackAgents.RollbackAgent.Invoke | src/agents/rollback_agent.py:71-76 | the hook records the tool's name, then the tool runs and leaves the session, the agent state and both tables exactly as one step of the turn says; a call of another tool never bears a checkpoint tool's name |
| RollbackAgents.RollbackAgent.Dispatch | src/agents/rollback_agent.py:321-495 | each checkpoint tool, given its argument, and any other tool, given the agent state it leaves, changes the agent and its tables exactly as the step for that call says |
| RollbackAgents.RollbackAgent.ModelTurn | src/agents/rollback_agent.py:189-194 | the tracking is reset and the calls run in order, so the agent and its tables end as the turn over those calls says, and the tracking names exactly the last call |
| RollbackAgents.RollbackAgent.AskUser | src/agents/rollback_agent.py:170-185 | the user message goes into the history, and the restore flag is cleared exactly when there was restored history to hand over |
| RollbackAgents.RollbackAgent.Answer | src/agents/rollback_agent.py:199-203 | the reply goes into the history and the agent state is merged into the session, and nothing else changes |
| RollbackAgents.RollbackAgent.RecordTurn | src/agents/rollback_agent.py:170-203 | the agent and its tables end as the user message, the turn's tool calls and the reply leave them; the restore flag is cleared when there was restored history |
| RollbackAgents.RollbackAgent.Run | src/agents/rollback_agent.py:156-214 | a run records the turn with its tool calls, makes the automatic checkpoint named after the last tool exactly when it is due, and saves the session's row |
| RollbackAgents.RollbackAgent.FinishTurn | src/agents/rollback_agent.py:205-212 | after the turn the automatic checkpoint is stored and counted exactly when it is due and the session has a truthy id, and the session's row is then written |
| RollbackAgents.RollbackAgent.AutoCheckpointAfterTurn | src/agents/rollback_agent.py:205-209 | the checkpoint named after the last tool is stored exactly when it is due, there is a table and the session has a truthy id |
| RollbackAgents.RollbackAgent.Restore | src/agents/rollback_agent.py:616-623 | the new session takes the checkpoint's state and history, and the agent is marked restored with that history |
| RollbackAgents.RollbackAgent.CreateCheckpointTool | src/agents/rollback_agent.py:321-346 | with a table and a truthy session id, a manual checkpoint under the default name is stored, counted and saved, and the reply names it and its id; otherwise the reply is the failure text and nothing changes |
| RollbackAgents.RollbackAgent.ListCheckpointsTool | src/agents/rollback_agent.py:351-375 | the reply is the rendering of the session's checkpoints, newest first, or the unavailable or empty text |
| RollbackAgents.RollbackAgent.RollbackToCheckpointTool | src/agents/rollback_agent.py:377-419 | without a table the reply is "not available"; an argument that resolves to no checkpoint gives "not found" and leaves the state alone; otherwise only the two request keys change and the reply names the checkpoint |
| RollbackAgents.RollbackAgent.DeleteCheckpointTool | src/agents/rollback_agent.py:421-445 | an unknown id gives "not found", another session's checkpoint is refused and kept, and the session's own checkpoint is deleted |
| RollbackAgents.RollbackAgent.GetCheckpointInfoTool | src/agents/rollback_agent.py:447-473 | without a table the reply is "not available"; it describes the checkpoint exactly when the id is stored, and is "not found" otherwise |
| RollbackAgents.RollbackAgent.CleanupAutoCheckpointsTool | src/agents/rollback_agent.py:475-495 | without a table or a truthy session id nothing changes; otherwise the automatic checkpoints are pruned as `delete_auto_checkpoints` does, and the reply reports how many rows went |
| RollbackAgents.CopyEarlier | src/agents/rollback_agent.py:635-648 | the copy loop creates exactly the qualifying copies, in list order, under consecutive new ids |
| RollbackAgents.ForkSaved | src/agents/rollback_agent.py:650-651 | saving the forked session rewrites its own row and keeps it the only current session of its external session |
| RollbackAgents.FromCheckpoint | src/agents/rollback_agent.py:566-652 | an unknown checkpoint raises before anything is written; otherwise a new current session under a fresh id holds the checkpoint's state and history and is the only current one of its external session, every earlier session row is kept except for its current flag, so the session forked from is otherwise untouched, the earlier checkpoints are copied into the new session, and its Agno id is registered with the external session |
| RollbackManagers.RoleOf | src/rollback_agent/managers/rollback_manager.py:63 | `msg.get('role', 'unknown').capitalize()` succeeds exactly on a dictionary whose role, when present, is a string |
| RollbackManagers.LinesSnoc | src/rollback_agent/managers/rollback_manager.py:62-66 | each pass of the loop appends the current message's line, or nothing for a system message, to the lines so far |
| RollbackManagers.OkStep | src/rollback_agent/managers/rollback_manager.py:62-66 | the loop gets through one more message exactly when it got through the earlier ones and that message is well formed |
| RollbackManagers.MessageLinesOk | src/rollback_agent/managers/rollback_manager.py:62-66 | the loop runs without raising exactly when every message is well formed |
| RollbackManagers.MessageLinesCount | src/rollback_agent/managers/rollback_manager.py:62-66 | the loop produces one line per message that is not a system message |
| RollbackManagers.MessageLinesAt | src/rollback_agent/managers/rollback_manager.py:62-66 | the line of each non-system message sits at the index given by the number of non-system messages before it, in order |
| RollbackManagers.ContextSpec | src/rollback_agent/managers/rollback_manager.py:56-68 | an empty conversation gives ""; a non-empty list of well-formed messages gives the header line followed by one line per non-system message, joined by newlines |
| RollbackManagers.SerializedHistory | src/rollback_agent/managers/rollback_manager.py:41 | serialising a conversation snapshot keeps its length |
| RollbackManagers.HistorySerialized | src/rollback_agent/managers/rollback_manager.py:41 | `serialize_datetimes` of a list of messages serialises each message |
| RollbackManagers.SerializedCheckpointForm | src/rollback_agent/managers/rollback_manager.py:39-41 | serialising a stored checkpoint dictionary gives the dictionary of the checkpoint with each nested value serialised, so it still reads back as a checkpoint |
| RollbackManagers.Base | src/rollback_agent/managers/rollback_manager.py:28-36 | the new agent's state before the copy is the factory's initial state plus the three metadata keys, with no checkpoints key |
| RollbackManagers.NewStateSpec | src/rollback_agent/managers/rollback_manager.py:38-45 | the new state has none of the three rollback flags, so no rollback is pending, and it holds the restored context |
| RollbackManagers.NewStateCarries | src/rollback_agent/managers/rollback_manager.py:33-41 | every old key other than the flags is carried over serialised and wins over a metadata key of the same name; a metadata key the old state lacks keeps its new value |
| RollbackManagers.Copied | src/rollback_agent/managers/rollback_manager.py:40-41 | one pass of the copy loop sets the serialised old value for a key that is not a flag, and skips a flag |
| RollbackManagers.CarryStep | src/rollback_agent/managers/rollback_manager.py:39-41 | copying one more key extends the carried state by exactly that key's copy |
| RollbackManagers.CarryOver | src/rollback_agent/managers/rollback_manager.py:39-41 | the copy into the new agent leaves its state as the base plus every carried old key, and leaves its checkpoints and instructions alone |
| RollbackManagers.CopyKeys | src/rollback_agent/managers/rollback_manager.py:39-41 | the loop over the old state's items yields the base plus every old key other than the flags, serialised |
| RollbackManagers.NewAgent | src/rollback_agent/managers/rollback_manager.py:28-45 | the new agent runs under the new session id for the current user, with the carried state and every old checkpoint serialised in order |
| RollbackManagers.Factory | src/rollback_agent/managers/rollback_manager.py:28-31 | `create_rollback_agent` with its defaults gives a fresh agent under the given id whose state is the initial state with interval 5 and at most 10 checkpoints |
| RollbackManagers.Furnish | src/rollback_agent/managers/rollback_manager.py:33-45 | after the metadata keys, the carry-over and the context, the agent's state is the new state and its checkpoints are the old ones serialised |
| RollbackManagers.HandleRollback | src/rollback_agent/managers/rollback_manager.py:10-53 | without a completed rollback the result is None; otherwise the new agent runs under `new_session_id` (default "rollback_session") for the current user and carries the old state, and the result reports the context, the number of messages restored and the old session id |
| ToolProtocol.ValidateSpec | rollback_portocal/protocol.py:41-45 | `validate` raises exactly for a tool that is not a checkpoint tool and has no reverse handler; each of the agent's checkpoint tools passes without one |
| ToolProtocol.AgentToolsAreCheckpointTools | rollback_portocal/protocol.py:10-21 | the six checkpoint tools of the rollback agent are all among the protocol's checkpoint tool names |
| ToolProtocol.RecordOf | rollback_portocal/adapters.py:50-55 | a successful call is recorded with its result and no error; a failed one with no result, `success` false and the error's message |
| ToolAdapters.SpecFor | rollback_portocal/adapters.py:39-43 | the spec keeps the name; a checkpoint tool never gets a reverse handler; any other tool gets one exactly when the reverse map has its name |
| ToolAdapters.FirstFailure | rollback_portocal/adapters.py:34-43 | the index found is the first name that is not a callable of the toolkit or fails validation, and none is found only when every name registers |
| ToolAdapters.RegisteringSpec | rollback_portocal/adapters.py:29-43 | registration raises exactly when some name fails; then the names before the first failure stay registered; otherwise every name is registered with the spec built for it |
| ToolAdapters.RegisteredEach | rollback_portocal/adapters.py:34-43 | when the first name registers and the rest all do, every name ends up registered with its spec |
| ToolAdapters.FirstFailureStep | rollback_portocal/adapters.py:34-37 | past a name that registers, the first failure is one position further on |
| ToolAdapters.PrefixStep | rollback_portocal/adapters.py:34-43 | registering a prefix that starts with a good name is registering that name and then the rest of the prefix |
| ToolAdapters.RegisteredStays | rollback_portocal/adapters.py:38-43 | a name registered with its spec keeps that spec through later registrations |
| ToolAdapters.AgnoToolkitAdapter.constructor | rollback_portocal/adapters.py:25-27 | the adapter keeps the toolkit and the given registry, or creates an empty registry when none is given |
| ToolAdapters.AgnoToolkitAdapter.RegisterTools | rollback_portocal/adapters.py:29-43 | the registry's tools and the raised error are those `Registering` describes, and the track is unchanged |
| ToolAdapters.AgnoToolkitAdapter.ExecuteAndRecord | rollback_portocal/adapters.py:45-56 | an unregistered tool raises and records nothing; otherwise the forward handler's outcome is returned (re-raised on failure) and exactly one record of it is appended |
| ToolRegistry.ReversalsSpec | rollback_portocal/registry.py:68-110 | rollback visits records newest first, skips checkpoint tools and yields one result for every other record; a tool with no reverse handler fails with "No reverse handler registered" |
| ToolRegistry.ReplayedSpec | rollback_portocal/registry.py:112-144 | redo yields one new record per record whose tool is registered, in the original order with checkpoint tools included; each is a success or a failure with no result |
| ToolRegistry.ToolRollbackRegistry.constructor | rollback_portocal/registry.py:31-33 | a new registry has no tools and an empty track |
| ToolRegistry.ToolRollbackRegistry.RegisterTool | rollback_portocal/registry.py:36-38 | an invalid spec raises and changes nothing; a valid one is stored under its name and replaces any earlier one |
| ToolRegistry.ToolRollbackRegistry.GetTool | rollback_portocal/registry.py:40-41 | a spec is found exactly when its name is registered, and it is the stored one |
| ToolRegistry.ToolRollbackRegistry.RecordInvocation | rollback_portocal/registry.py:44-59 | exactly one record is appended to the track |
| ToolRegistry.ToolRollbackRegistry.ClearTrack | rollback_portocal/registry.py:61-62 | the track is emptied and the tools are kept |
| ToolRegistry.ToolRollbackRegistry.GetTrack | rollback_portocal/registry.py:64-65 | the copy equals the track |
| ToolRegistry.ToolRollbackRegistry.Rollback | rollback_portocal/registry.py:68-110 | the loop over the reversed track returns the reverse results `ReversalsSpec` describes, and the track and tools stay as they are |
| ToolRegistry.ToolRollbackRegistry.Redo | rollback_portocal/registry.py:112-144 | the loop over a snapshot returns the replayed records and appends exactly those to the track |
| Validators.ValidateUsernameAsWritten | src/auth/validators.py:15-41 | as written, a name is accepted exactly when it is 3 to 30 characters long and matches the pattern as Python's `$` reads it, with the message empty exactly on acceptance |
| Validators.TrailingNewlineAccepted | src/auth/validators.py:38 | the pattern as written accepts "abc\n", which the corrected rule refuses |
| Validators.AsWrittenDiffersOnlyOnNewline | src/auth/validators.py:38 | the two rules disagree only on an identifier followed by one trailing newline, which the code as written accepts |
| Validators.ValidateUsername | src/auth/validators.py:15-41 | the corrected rule, with `$` read as the end of the string: the message is empty exactly when the name is accepted |
| Validators.UsernameRule | src/auth/validators.py:24-41 | a name is accepted exactly when it is 3 to 30 characters long, starts with an ASCII letter and holds only ASCII letters, digits and underscores |
| Validators.ValidatePassword | src/auth/validators.py:44-66 | the message is empty exactly when the password is accepted |
| Validators.PasswordRule | src/auth/validators.py:53-66 | a password is accepted exactly when it is longer than four characters and neither starts nor ends with whitespace |
| Validators.ValidatePasswordMatch | src/auth/validators.py:69-82 | the passwords match exactly when they are equal |
| Validators.ValidateAdminPermission | src/auth/validators.py:85-97 | permission is granted exactly to an admin |
| Validators.ValidateRegistrationData | src/auth/validators.py:100-127 | registration data is accepted exactly when the username (under the corrected rule, see Left out) and the password are, and the confirmation, when given, matches; the first failing check's message is the answer |
| UserRepositories.SavedRow | src/database/repositories/user_repository.py:93-111 | `save` binds the user's name and hash to their columns, `is_admin` as 0 exactly for a non-admin, and a payload holding the public fields plus the hash |
| UserRepositories.ColumnDict | src/database/repositories/user_repository.py:226-232 | without a payload the columns are rebuilt into a dictionary of exactly the public fields |
| UserRepositories.RowToUser | src/database/repositories/user_repository.py:208-239 | a decoded user always takes its id from the key and its hash from the hash column; without a payload its name and admin flag come from the columns |
| UserRepositories.SavedRowReadsBack | src/database/repositories/user_repository.py:93-239 | reading back a row that `save` wrote, under the id it was given, yields the saved user with that id |
| UserRepositories.ColumnsReadBack | src/database/repositories/user_repository.py:100-111 | the columns alone, with no payload, read back as the same user |
| UserRepositories.RootUser | src/database/repositories/user_repository.py:67-73 | the default account is the admin "rootusr" with no id, whose password "1234" verifies |
| UserRepositories.UserRepository.constructor | src/database/repositories/user_repository.py:35-76 | an existing table with a "rootusr" row is left as it is; otherwise the administrator is inserted under the next id; either way "rootusr" is present afterwards |
| UserRepositories.UserRepository.Save | src/database/repositories/user_repository.py:78-131 | a name clash raises and changes nothing; a user without an id is inserted under the next id and given it; a user with an id overwrites its row, or changes nothing when that row is gone |
| UserRepositories.UserRepository.FindById | src/database/repositories/user_repository.py:133-153 | a user is found exactly when its id is stored, and it is the stored user |
| UserRepositories.UserRepository.FindByUsername | src/database/repositories/user_repository.py:155-175 | a user is found exactly when one holds the name, and it is that user |
| UserRepositories.UserRepository.FindAll | src/database/repositories/user_repository.py:177-191 | every stored user is listed and nothing else is |
| UserRepositories.UserRepository.Delete | src/database/repositories/user_repository.py:193-206 | the result is true exactly when the id was stored, and that row is gone |
| UserManagers.InputRefusal | src/rollback_agent/auth/user_manager.py:23-27 | the input checks pass exactly for a non-empty name and a password of at least four characters; the "required" message is given exactly when either is empty |
| UserManagers.FourCharactersSuffice | src/rollback_agent/auth/user_manager.py:26-27 | a four-character password passes this check although the account layer's password rule refuses it |
| UserManagers.RowUser | src/rollback_agent/auth/user_manager.py:63-72 | `from_db_row` of a stored row succeeds and gives the row's id, name and hash |
| UserManagers.DisplayName | src/rollback_agent/auth/user_manager.py:119 | a non-empty session name is shown as it is; otherwise "Session " followed by the first 40 characters of the session id |
| UserManagers.SessionDict | src/rollback_agent/auth/user_manager.py:117-124 | a listed session has exactly the six keys, its id, its display name and `is_active` true exactly for a non-zero flag |
| UserManagers.RollbackDict | src/rollback_agent/auth/user_manager.py:147-152 | a pending rollback is listed with exactly its four columns |
| UserManagers.UserSessionsSpec | src/rollback_agent/auth/user_manager.py:107-113 | the listing holds exactly the user's sessions, each once, in descending order of last activity |
| UserManagers.PendingRollbacksSpec | src/rollback_agent/auth/user_manager.py:137-143 | the listing holds exactly the user's uncompleted rollbacks, each once, newest first |
| UserManagers.UserManager.FindUser | src/rollback_agent/auth/user_manager.py:34 | a row is found exactly when one holds the name, and it holds that name |
| UserManagers.UserManager.Register | src/rollback_agent/auth/user_manager.py:16-50 | registration succeeds exactly when the input checks pass and the name is free; a refusal reports the first failing check and changes nothing; a success inserts exactly one row with the hashed password under the next id |
| UserManagers.UserManager.Login | src/rollback_agent/auth/user_manager.py:52-99 | login succeeds exactly when the name exists and the password's hash matches; the stored row's last login is then set and the returned record's last login is the current time; a failure changes nothing |
| UserManagers.UserManager.GetUserSessions | src/rollback_agent/auth/user_manager.py:101-129 | one dictionary per selected session row, in the query's order |
| UserManagers.UserManager.GetPendingRollbacks | src/rollback_agent/auth/user_manager.py:131-157 | one dictionary per selected rollback row, in the query's order |
| Values.StrListRoundTrip | src/sessions/external_session.py:84-103 | a list of strings stored as a value reads back as the same list |
| Values.DictListRoundTrip | src/sessions/internal_session.py:102 | a list of message dictionaries stored as a value reads back as the same list |
| Values.OptIsoRoundTrip | src/sessions/external_session.py:81-109 | `isoformat() if d else None` read back through `fromisoformat(v) if v else None` gives the original optional time |
| Values.RStrip | src/agents/agent_service.py:52 | `rstrip()` keeps a prefix of the text, drops only whitespace, and leaves no trailing whitespace |
| Values.LStrip | src/auth/validators.py:63 | `lstrip()` keeps a suffix of the text, drops only whitespace, and leaves no leading whitespace |
| Values.RStripChar | src/agents/agent_service.py:52 | `rstrip("/")` keeps a prefix of the text, drops only that character, and leaves none at the end |
| Values.StripUnpadded | src/auth/validators.py:63 | a non-empty text with no whitespace at either end is its own `strip()` |
| Values.StripNoEdgeSpace | src/auth/validators.py:63 | `strip()` leaves no whitespace at either end |
| Values.ConcatAppend | src/agents/rollback_agent.py:368-373 | the text of two lists run together is the text of each, one after the other |
| Values.ConcatInPlace | src/agents/rollback_agent.py:368-373 | each element's text sits between the texts of the elements before and after it |
| Values.ConcatLoop | src/agents/rollback_agent.py:368-373 | the `result +=` loop builds the texts of all elements, in order |
| Values.DropUnderscores | src/agents/rollback_agent.py:396 | dropping the grouping underscores leaves only digits, and leaves a digit string unchanged |
| Values.DigitsRead | src/agents/rollback_agent.py:396 | `int()` reads a plain digit string as its value |
| Values.NaturalDigits | src/agents/rollback_agent.py:396 | the text of a natural number is a non-empty digit string that denotes it |
| Values.DigitsGrouped | src/agents/rollback_agent.py:396 | a plain digit string is correctly grouped and has no underscore to drop |
| Values.NaturalParses | src/agents/rollback_agent.py:396 | `int(str(n)) == n` for a natural number |
| Values.NegativeParses | src/agents/rollback_agent.py:396 | `int(str(n)) == n` for a negative number |
| Values.SignedParses | src/agents/rollback_agent.py:396 | a minus sign before digits that read as m parses to -m |
| Values.ParseIntRoundTrip | src/agents/rollback_agent.py:396 | `int(str(n)) == n` for every integer, so an id given as text resolves like the id itself |

## Left out

- AgentServices.DefaultConfig: omits the `"temperature": 0.7` entry (src/agents/agent_service.py:42), because floating point is not modelled; and its base URL is cleaned by the corrected `AgentServices.SanitizeBaseUrl`, where src/agents/agent_service.py:39 calls the sanitiser as written (`AgentServices.SanitizeAsWritten`). The two differ only on a URL with whitespace before a trailing '/' ("a /": "https://a " as written, "https://a" corrected); see Findings.
- AgentServices.EffectiveConfig: a per-call base URL is cleaned by the corrected `AgentServices.SanitizeBaseUrl`, where src/agents/agent_service.py:84 calls it as written; they differ only as described for `DefaultConfig`.
- AgentServices.AgentService.constructor: the initial configuration is built by `DefaultConfig`, so it carries the corrected base URL described above.
- AgentServices.AgentService.CreateNewAgent, AgentServices.AgentService.ResumeAgent, AgentServices.AgentService.ResumeKnown, AgentServices.AgentService.RollbackToCheckpoint: the configuration they return comes from `EffectiveConfig`, so it carries the corrected base URL described above.
- Checkpoints.FromDict, AuthUsers.FromDict, InternalSessions.FromDict, ExternalSessions.FromDict, LegacyCheckpoints.FromDict, LegacyUsers.FromDbRow: a field of the wrong Python type gives `Err` ("ill-typed field"), where Python would store the value unchecked; well-typed input decodes as in the source.
- Checkpoints.FromInternalSession: requires a session that has an id; every caller checks this before the call.
- Validators.ValidateRegistrationData: checks the username with the corrected `Validators.ValidateUsername`, where src/auth/validators.py:112 calls the rule as written (`Validators.ValidateUsernameAsWritten`); the two differ only on a name that ends in a newline ("abc\n" is accepted as written and refused here); see Findings.
- AuthServices.AuthService.Register: validates through `Validators.ValidateRegistrationData`, so it refuses a username ending in a newline that the source registers.
- Values.LowerChar, Values.UpperChar, Values.Lower, Values.Capitalize: fold the ASCII letters only, where Python's `lower()` and `capitalize()` fold every cased Unicode letter; Unicode case tables are not modelled.
- RollbackAgents.NameMatches, RollbackAgents.FirstNamed, RollbackAgents.FirstNamedSpec, RollbackAgents.FindByName, RollbackAgents.ResolveIn, RollbackAgents.RollbackAgent.Resolve, RollbackAgents.RollbackAgent.RollbackToCheckpointTool: the case-insensitive name lookup (src/agents/rollback_agent.py:404-409) ignores case for ASCII letters only ("ÉTAPE" does not find "étape" here), through `Values.Lower`.
- RollbackManagers.RoleOf: capitalises through `Values.Capitalize`, so only ASCII letters change case.
- Values.ReprString, Values.ReprStringList: escape only the quote and the backslash, where Python's `repr` also escapes newlines, tabs, carriage returns and other non-printable characters; strings holding those are not rendered as Python does.
- Instructions.ContextLines, Instructions.ComposeInstructions, Instructions.ComposeShape, Instructions.ContextShape: the "Available checkpoints" line (src/rollback_agent/utils/instructions.py:48) renders names through `Values.ReprStringList`, with the escaping limit just stated.
- Values.ParseInt: reads ASCII digits only, where Python's `int()` also reads other Unicode decimal digits ("٤٢" is 42 in Python and refused here); whitespace, sign and underscores are as in Python, and the round-trip lemmas are about the strings `str()` produces, which are ASCII.
- RollbackAgents.TargetId: parses through `Values.ParseInt`, with the digit limit just stated.
- ExternalSessionRepository.ContainingRow, ExternalSessionRepository.ContainingRowSpec: the source first filters rows with `LIKE '%"<agno>"%'` on the JSON text (src/database/repositories/external_session_repository.py:219-220), in which `json.dumps` escapes quotes, backslashes and non-ASCII characters, so it cannot find an Agno id holding those; the model compares the ids themselves and finds it.
- The legacy agent's language model, its tools' storage and the environment lookup of `OPENAI_BASE_URL` or `BASE_URL` (src/rollback_agent/agent.py) are not modelled. Its nested `_sanitize_base_url` (src/rollback_agent/agent.py:81-89) is the same code as the service's `_sanitize_base_url` as written, and is modelled by `AgentServices.SanitizeAsWritten`.
- The `session_name` and `updated_at` columns of the external sessions table are not modelled, because every query reads the session back from the `data` blob.
- `list_internal_sessions`, `list_checkpoints` and `get_conversation_summary` of the agent service (src/agents/agent_service.py:253-290) only forward to the repositories; the repositories' queries are modelled.
- `_extract_response_content`, `_has_tool_calls`, the deprecated `_used_checkpoint_tools`, the `get_conversation_history` and `get_session_state` getters and `get_messages_for_session` of the rollback agent work on the language model's response objects, which are an input here.
- The repositories' read operations are class functions; their meaning is stated by the `*Spec` lemmas next to them rather than by their own `ensures`.
- The user interface and command-line entry points, the language-model client and the network are not modelled.
- SQLite itself (connections, schema creation, JSON encoding of the blobs) is replaced by maps. `session_manager.py` is not part of this model.
- `ON DELETE CASCADE` is never in force, because foreign keys are never switched on; deletes do not cascade, and the external session create never fails on a missing user.
- Atomicity, concurrency and transactions are not modelled; each method is one indivisible step.
- SHA-256 password hashing and datetime formatting are parameters; `serialization.py` only re-exports the time utilities.
- `rollback_tools_from_track_index` is called by the agent service (src/agents/agent_service.py:194-202) but defined nowhere in the repository; that branch is not modelled.
- Python's shallow copies (state dictionaries shared between a checkpoint and a session) are not modelled: values are copied.
- The import-time timestamp of a tool record and the debug output of the registry (rollback_portocal/registry.py:75) are not modelled.
- The scripts that drive a live model are not modelled.
- The docstring of `delete_user` says an administrator cannot delete another administrator; the code does not check this, and the model follows the code (`AuthServices.AdminsMayDeleteAdmins`).

## Findings

| source | as written | input that shows it | evidently intended | confidence | as-written member | corrected member |
|---|---|---|---|---|---|---|
| src/agents/agent_service.py:52-57 | `strip()` then `rstrip("/")` can leave whitespace that was before the slash, so the result is not a fixed point | `"a /"` gives `"https://a "`, which sanitises again to `"https://a"` | sanitising a sanitised URL changes nothing | not executed | AgentServices.AsWrittenNotIdempotent | AgentServices.SanitizeIdempotent |
| src/auth/validators.py:38 | `re.match` with a pattern ending in `$` also matches before a final newline | `"abc\n"` is accepted as a username | only letters, digits and underscores are accepted | not executed | Validators.TrailingNewlineAccepted | Validators.UsernameRule |
