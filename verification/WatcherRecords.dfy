/** Watcher records: the validators, the strict parser of stored records and what `register` and
    `terminal` write. */
module WatcherRecords {
  import opened Common
  import opened Text

  const MAX_IDENTITY_LENGTH := 512
  const MAX_SAFE_INTEGER := 0x1F_FFFF_FFFF_FFFF

  datatype Registration = Registration(
    watcherId: string, logicalConversationKey: string, conversationId: string, providerId: string, browserId: string,
    tabId: string, operationId: string, targetBindingDigest: string,
    baselineAssistantTurnIds: seq<string>, baselineAssistantTurnCount: int, baselineSnapshotDigest: string)

  datatype Completion = Completion(assistantTurnId: string, assistantTurnCount: int)

  datatype WatchState = Pending | Completed | Cancelled

  datatype Record = Record(
    registration: Registration, state: WatchState, registeredAt: string, updatedAt: string, completion: Option<Completion>)

  // ---------- validators ----------

  predicate IsSafeInteger(n: int) {
    -MAX_SAFE_INTEGER <= n <= MAX_SAFE_INTEGER
  }

  predicate ValidIdentity(s: string) {
    !IsBlank(s) && |s| <= MAX_IDENTITY_LENGTH
  }

  predicate ValidRegistration(r: Registration) {
    && ValidIdentity(r.watcherId) && ValidIdentity(r.logicalConversationKey) && ValidIdentity(r.conversationId)
    && ValidIdentity(r.providerId) && ValidIdentity(r.browserId) && ValidIdentity(r.tabId)
    && ValidIdentity(r.operationId) && ValidIdentity(r.targetBindingDigest) && ValidIdentity(r.baselineSnapshotDigest)
    && IsSafeInteger(r.baselineAssistantTurnCount) && r.baselineAssistantTurnCount >= 0
    && |r.baselineAssistantTurnIds| == r.baselineAssistantTurnCount
    && forall i | 0 <= i < |r.baselineAssistantTurnIds| :: ValidIdentity(r.baselineAssistantTurnIds[i])
  }

  predicate ValidCompletion(c: Completion) {
    !IsBlank(c.assistantTurnId) && IsSafeInteger(c.assistantTurnCount) && c.assistantTurnCount >= 1
  }

  /** A record is well formed when its parts are and it has a completion exactly when completed. */
  predicate ValidRecord(r: Record) {
    && ValidRegistration(r.registration)
    && (r.completion.Some? <==> r.state.Completed?)
    && (r.completion.Some? ==> ValidCompletion(r.completion.value))
  }

  // ---------- stored JSON ----------

  /** The property names that occur in records; any other name is `OtherKey`. */
  datatype Key =
    | WatcherId | LogicalConversationKey | ConversationId | ProviderId | BrowserId | TabId | OperationId
    | TargetBindingDigest | BaselineAssistantTurnIds | BaselineAssistantTurnCount | BaselineSnapshotDigest
    | StateKey | RegisteredAt | UpdatedAt | CompletionKey
    | AssistantTurnId | AssistantTurnCount | OtherKey(name: string)

  datatype Json =
    | JNull | JBool(b: bool) | JInteger(n: int) | JFraction(r: real) | JString(s: string)
    | JArray(items: seq<Json>) | JObject(fields: map<Key, Json>)

  const ALLOWED_KEYS := {
    WatcherId, LogicalConversationKey, ConversationId, ProviderId, BrowserId, TabId, OperationId, TargetBindingDigest,
    BaselineAssistantTurnIds, BaselineAssistantTurnCount, BaselineSnapshotDigest, StateKey, RegisteredAt, UpdatedAt, CompletionKey
  }

  function StringItems(ids: seq<string>): seq<Json> {
    seq(|ids|, i requires 0 <= i < |ids| => JString(ids[i]))
  }

  function StateName(s: WatchState): string {
    match s case Pending => "pending" case Completed => "completed" case Cancelled => "cancelled"
  }

  /** What `JSON.stringify` stores: an undefined completion leaves no property. */
  function Encode(r: Record): Json {
    var g := r.registration;
    var fields := map[
      WatcherId := JString(g.watcherId),
      LogicalConversationKey := JString(g.logicalConversationKey),
      ConversationId := JString(g.conversationId),
      ProviderId := JString(g.providerId),
      BrowserId := JString(g.browserId),
      TabId := JString(g.tabId),
      OperationId := JString(g.operationId),
      TargetBindingDigest := JString(g.targetBindingDigest),
      BaselineAssistantTurnIds := JArray(StringItems(g.baselineAssistantTurnIds)),
      BaselineAssistantTurnCount := JInteger(g.baselineAssistantTurnCount),
      BaselineSnapshotDigest := JString(g.baselineSnapshotDigest),
      StateKey := JString(StateName(r.state)),
      RegisteredAt := JString(r.registeredAt),
      UpdatedAt := JString(r.updatedAt)];
    match r.completion
    case None => JObject(fields)
    case Some(c) =>
      JObject(fields[CompletionKey := JObject(map[AssistantTurnId := JString(c.assistantTurnId), AssistantTurnCount := JInteger(c.assistantTurnCount)])])
  }

  // ---------- the parser ----------

  function ReadString(fields: map<Key, Json>, k: Key): Option<string> {
    if k in fields && fields[k].JString? then Some(fields[k].s) else None
  }

  function ReadInteger(fields: map<Key, Json>, k: Key): Option<int> {
    if k in fields && fields[k].JInteger? then Some(fields[k].n) else None
  }

  function ReadStrings(items: seq<Json>): Option<seq<string>> {
    if forall i | 0 <= i < |items| :: items[i].JString? then
      Some(seq(|items|, i requires 0 <= i < |items| => if items[i].JString? then items[i].s else ""))
    else None
  }

  function ReadState(fields: map<Key, Json>): Option<WatchState> {
    match ReadString(fields, StateKey)
    case None => None
    case Some(s) =>
      if s == "pending" then Some(Pending) else if s == "completed" then Some(Completed)
      else if s == "cancelled" then Some(Cancelled) else None
  }

  /** The registration part, if every field is present with its type and `validateRegistration` passes. */
  function ReadRegistration(fields: map<Key, Json>): Option<Registration> {
    var ids := if BaselineAssistantTurnIds in fields && fields[BaselineAssistantTurnIds].JArray?
               then ReadStrings(fields[BaselineAssistantTurnIds].items) else None;
    var count := ReadInteger(fields, BaselineAssistantTurnCount);
    var a, b, c := ReadString(fields, WatcherId), ReadString(fields, LogicalConversationKey), ReadString(fields, ConversationId);
    var d, e, f := ReadString(fields, ProviderId), ReadString(fields, BrowserId), ReadString(fields, TabId);
    var g, h, i := ReadString(fields, OperationId), ReadString(fields, TargetBindingDigest), ReadString(fields, BaselineSnapshotDigest);
    if ids.None? || count.None? || a.None? || b.None? || c.None? || d.None? || e.None? || f.None? || g.None? || h.None? || i.None? then None
    else
      var r := Registration(a.value, b.value, c.value, d.value, e.value, f.value, g.value, h.value, ids.value, count.value, i.value);
      if ValidRegistration(r) then Some(r) else None
  }

  function ReadCompletion(v: Json): Option<Completion> {
    if !v.JObject? then None
    else
      var id, count := ReadString(v.fields, AssistantTurnId), ReadInteger(v.fields, AssistantTurnCount);
      if id.None? || count.None? || !ValidCompletion(Completion(id.value, count.value)) then None
      else Some(Completion(id.value, count.value))
  }

  /** `parseRecord`; `None` stands for its TypeError. */
  function Parse(v: Json): Option<Record> {
    if !v.JObject? || !(v.fields.Keys <= ALLOWED_KEYS) then None
    else
      var state, registration := ReadState(v.fields), ReadRegistration(v.fields);
      var registeredAt, updatedAt := ReadString(v.fields, RegisteredAt), ReadString(v.fields, UpdatedAt);
      if state.None? || registration.None? || registeredAt.None? || updatedAt.None? then None
      else if !state.value.Completed? then
        if CompletionKey in v.fields then None
        else Some(Record(registration.value, state.value, registeredAt.value, updatedAt.value, None))
      else if CompletionKey !in v.fields then None
      else
        match ReadCompletion(v.fields[CompletionKey])
        case None => None
        case Some(c) => Some(Record(registration.value, Completed, registeredAt.value, updatedAt.value, Some(c)))
  }

  // ---------- round trip ----------

  lemma StringsRoundTrip(ids: seq<string>)
    ensures ReadStrings(StringItems(ids)) == Some(ids)
  {
    var items := StringItems(ids);
    assert forall i | 0 <= i < |items| :: items[i] == JString(ids[i]);
    assert ReadStrings(items).value == ids;
  }

  lemma EncodedNames(r: Record)
    ensures var f, g := Encode(r).fields, r.registration;
      && ReadString(f, WatcherId) == Some(g.watcherId)
      && ReadString(f, LogicalConversationKey) == Some(g.logicalConversationKey)
      && ReadString(f, ConversationId) == Some(g.conversationId)
      && ReadString(f, ProviderId) == Some(g.providerId)
      && ReadString(f, BrowserId) == Some(g.browserId)
      && ReadString(f, TabId) == Some(g.tabId)
  {
  }

  lemma EncodedRest(r: Record)
    ensures var f, g := Encode(r).fields, r.registration;
      && ReadString(f, OperationId) == Some(g.operationId)
      && ReadString(f, TargetBindingDigest) == Some(g.targetBindingDigest)
      && ReadString(f, BaselineSnapshotDigest) == Some(g.baselineSnapshotDigest)
      && ReadInteger(f, BaselineAssistantTurnCount) == Some(g.baselineAssistantTurnCount)
      && BaselineAssistantTurnIds in f && f[BaselineAssistantTurnIds] == JArray(StringItems(g.baselineAssistantTurnIds))
  {
  }

  lemma RegistrationRoundTrip(r: Record)
    requires ValidRegistration(r.registration)
    ensures ReadRegistration(Encode(r).fields) == Some(r.registration)
  {
    hide ValidRegistration, ReadStrings, StringItems, StateName, Encode;
    StringsRoundTrip(r.registration.baselineAssistantTurnIds);
    EncodedNames(r);
    EncodedRest(r);
  }

  lemma StateRoundTrip(r: Record)
    ensures ReadState(Encode(r).fields) == Some(r.state)
  {
    hide StringItems;
    assert "pending"[0] != "completed"[0] && "completed"[1] != "cancelled"[1] && "pending"[0] != "cancelled"[0];
  }

  /** A record is stored in a form the parser returns unchanged exactly when it is well formed. */
  lemma ParseOfEncode(r: Record)
    ensures Parse(Encode(r)) == Some(r) <==> ValidRecord(r)
  {
    if ValidRecord(r) {
      hide ValidRegistration, ReadRegistration, StringItems;
      RegistrationRoundTrip(r);
      StateRoundTrip(r);
    } else if Parse(Encode(r)) == Some(r) {
      ParsedIsValid(Encode(r));
    }
  }

  /** Conversely, whatever the parser accepts is well formed: it has a completion exactly when it
      is completed, and its baseline count is the length of its list of ids. */
  lemma ParsedIsValid(v: Json)
    requires Parse(v).Some?
    ensures ValidRecord(Parse(v).value)
    ensures var g := Parse(v).value.registration; |g.baselineAssistantTurnIds| == g.baselineAssistantTurnCount
  {
  }
}
