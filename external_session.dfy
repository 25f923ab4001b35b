/** A user-owned conversation project: the list of its internal (Agno)
    session ids and which of them is current (src/sessions/external_session.py). */
module ExternalSessions {
  import opened Wrappers
  import opened Values

  /** The fields of an `ExternalSession`, as a value; this is what a row of
      the external sessions table holds. */
  datatype ExternalSessionData = ExternalSessionData(
    id: Option<int>,
    userId: int,
    sessionName: string,
    createdAt: Option<Datetime>,
    updatedAt: Option<Datetime>,
    isActive: bool,
    internalSessionIds: seq<string>,
    currentInternalSessionId: Option<string>)

  /** The dataclass defaults: active, no internal sessions, none current. */
  const Default := ExternalSessionData(None, 0, "", None, None, true, [], None)

  predicate NoDuplicates(ids: seq<string>) {
    forall i, j :: 0 <= i < j < |ids| ==> ids[i] != ids[j]
  }

  /** What `add_internal_session` and `set_current_internal_session` keep:
      no id twice, and the current id is None or one of the list. */
  predicate WellFormed(d: ExternalSessionData) {
    NoDuplicates(d.internalSessionIds)
    && (d.currentInternalSessionId.Some? ==> d.currentInternalSessionId.value in d.internalSessionIds)
  }

  /** `add_internal_session`: a new id is appended and becomes current; an
      id already present changes nothing. */
  function AddedInternalSession(d: ExternalSessionData, agnoId: string): ExternalSessionData {
    if agnoId in d.internalSessionIds then d
    else d.(internalSessionIds := d.internalSessionIds + [agnoId],
            currentInternalSessionId := Some(agnoId))
  }

  /** `set_current_internal_session`: succeeds iff the id is listed. */
  function SelectedInternalSession(d: ExternalSessionData, agnoId: string): (bool, ExternalSessionData) {
    if agnoId in d.internalSessionIds then (true, d.(currentInternalSessionId := Some(agnoId)))
    else (false, d)
  }

  lemma AddNewAppendsAndSelects(d: ExternalSessionData, agnoId: string)
    requires agnoId !in d.internalSessionIds
    ensures AddedInternalSession(d, agnoId).internalSessionIds == d.internalSessionIds + [agnoId]
    ensures AddedInternalSession(d, agnoId).currentInternalSessionId == Some(agnoId)
  {
  }

  lemma AddPresentIsNoOp(d: ExternalSessionData, agnoId: string)
    requires agnoId in d.internalSessionIds
    ensures AddedInternalSession(d, agnoId) == d
  {
  }

  lemma AddKeepsWellFormed(d: ExternalSessionData, agnoId: string)
    requires WellFormed(d)
    ensures WellFormed(AddedInternalSession(d, agnoId))
    ensures agnoId in AddedInternalSession(d, agnoId).internalSessionIds
  {
    var e := AddedInternalSession(d, agnoId);
    if agnoId !in d.internalSessionIds {
      var ids := e.internalSessionIds;
      forall i, j | 0 <= i < j < |ids| ensures ids[i] != ids[j] {
        if j == |ids| - 1 {
          assert ids[i] in d.internalSessionIds;
        }
      }
    }
  }

  lemma SetCurrentSucceedsIffListed(d: ExternalSessionData, agnoId: string)
    ensures SelectedInternalSession(d, agnoId).0 <==> agnoId in d.internalSessionIds
    ensures SelectedInternalSession(d, agnoId).0 ==> SelectedInternalSession(d, agnoId).1.currentInternalSessionId == Some(agnoId)
    ensures !SelectedInternalSession(d, agnoId).0 ==> SelectedInternalSession(d, agnoId).1 == d
    ensures SelectedInternalSession(d, agnoId).1.internalSessionIds == d.internalSessionIds
    ensures WellFormed(d) ==> WellFormed(SelectedInternalSession(d, agnoId).1)
  {
  }

  function ToDict(d: ExternalSessionData, tf: TimeFormat): Dict {
    map[
      "id" := OptIntValue(d.id),
      "user_id" := VInt(d.userId),
      "session_name" := VStr(d.sessionName),
      "created_at" := OptIsoValue(d.createdAt, tf),
      "updated_at" := OptIsoValue(d.updatedAt, tf),
      "is_active" := VBool(d.isActive),
      "internal_session_ids" := StrListValue(d.internalSessionIds),
      "current_internal_session_id" := OptStrValue(d.currentInternalSessionId)
    ]
  }

  /** `from_dict`: each missing key takes the dataclass default; a value of
      the wrong type is rejected. */
  function FromDict(data: Dict, tf: TimeFormat): (r: Result<ExternalSessionData, string>)
    ensures data == map[] ==> r == Ok(Default)
    ensures r.Ok? && "id" !in data ==> r.value.id == None
    ensures r.Ok? && "user_id" !in data ==> r.value.userId == 0
    ensures r.Ok? && "is_active" !in data ==> r.value.isActive
    ensures r.Ok? && "internal_session_ids" !in data ==> r.value.internalSessionIds == []
    ensures r.Ok? && "current_internal_session_id" !in data ==> r.value.currentInternalSessionId == None
  {
    var id :- AsOptInt(Get(data, "id", VNone));
    var userId :- AsInt(Get(data, "user_id", VInt(0)));
    var sessionName :- AsStr(Get(data, "session_name", VStr("")));
    var isActive :- AsBool(Get(data, "is_active", VBool(true)));
    var ids :- AsStrList(Get(data, "internal_session_ids", VList([])));
    var current :- AsOptStr(Get(data, "current_internal_session_id", VNone));
    var createdAt :- AsOptIso(Get(data, "created_at", VNone), tf);
    var updatedAt :- AsOptIso(Get(data, "updated_at", VNone), tf);
    Ok(ExternalSessionData(id, userId, sessionName, createdAt, updatedAt, isActive, ids, current))
  }

  lemma RoundTrip(d: ExternalSessionData, tf: TimeFormat)
    requires IsoRoundTrips(tf)
    ensures FromDict(ToDict(d, tf), tf) == Ok(d)
  {
    LeadingFields(d, tf);
    TrailingFields(d, tf);
    StrListRoundTrip(d.internalSessionIds);
    OptIsoRoundTrip(d.createdAt, tf);
    OptIsoRoundTrip(d.updatedAt, tf);
  }

  /** What `from_dict` reads back from the first four keys of `to_dict()`. */
  lemma LeadingFields(d: ExternalSessionData, tf: TimeFormat)
    ensures var m := ToDict(d, tf);
            && Get(m, "id", VNone) == OptIntValue(d.id)
            && Get(m, "user_id", VInt(0)) == VInt(d.userId)
            && Get(m, "session_name", VStr("")) == VStr(d.sessionName)
            && Get(m, "created_at", VNone) == OptIsoValue(d.createdAt, tf)
  {
  }

  /** What `from_dict` reads back from the last four keys of `to_dict()`. */
  lemma TrailingFields(d: ExternalSessionData, tf: TimeFormat)
    ensures var m := ToDict(d, tf);
            && Get(m, "updated_at", VNone) == OptIsoValue(d.updatedAt, tf)
            && Get(m, "is_active", VBool(true)) == VBool(d.isActive)
            && Get(m, "internal_session_ids", VList([])) == StrListValue(d.internalSessionIds)
            && Get(m, "current_internal_session_id", VNone) == OptStrValue(d.currentInternalSessionId)
  {
  }

  /** The live session object. */
  class ExternalSession {
    var id: Option<int>
    var userId: int
    var sessionName: string
    var createdAt: Option<Datetime>
    var updatedAt: Option<Datetime>
    var isActive: bool
    var internalSessionIds: seq<string>
    var currentInternalSessionId: Option<string>

    function Data(): ExternalSessionData
      reads this
    {
      ExternalSessionData(id, userId, sessionName, createdAt, updatedAt, isActive,
                          internalSessionIds, currentInternalSessionId)
    }

    constructor (d: ExternalSessionData)
      ensures Data() == d
    {
      id := d.id;
      userId := d.userId;
      sessionName := d.sessionName;
      createdAt := d.createdAt;
      updatedAt := d.updatedAt;
      isActive := d.isActive;
      internalSessionIds := d.internalSessionIds;
      currentInternalSessionId := d.currentInternalSessionId;
    }

    method AddInternalSession(agnoId: string)
      modifies this
      ensures Data() == AddedInternalSession(old(Data()), agnoId)
    {
      if agnoId !in internalSessionIds {
        internalSessionIds := internalSessionIds + [agnoId];
        currentInternalSessionId := Some(agnoId);
      }
    }

    method SetCurrentInternalSession(agnoId: string) returns (ok: bool)
      modifies this
      ensures (ok, Data()) == SelectedInternalSession(old(Data()), agnoId)
    {
      if agnoId in internalSessionIds {
        currentInternalSessionId := Some(agnoId);
        return true;
      }
      return false;
    }
  }
}
