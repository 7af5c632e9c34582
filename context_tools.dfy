/**
 * The context examples: an instruction provider that reads the user's tier,
 * a before-model callback that counts model calls in session state, tools
 * that read and write state (an API-key check, a user ID handed from one tool
 * to the next, a user-scoped preference) and a pair of tools that pass a
 * document reference through the artifact store.
 */
module ContextTools {
  import opened Wrappers
  import opened Values
  import opened Genai
  import opened ArtifactStore

  // ---------------------------------------------------------------------
  // myInstructionProvider
  // ---------------------------------------------------------------------

  const TierKey := "user_tier"
  const DefaultTier := "standard"
  const InstructionHead := "Process the request for a "
  const InstructionTail := " user."

  /** The tier the instruction names: the stored value as %v prints it, "standard" when absent. */
  function Tier(kv: State): string {
    if TierKey in kv then Show(kv[TierKey]) else DefaultTier
  }

  /** myInstructionProvider: reads state only and never fails. */
  function InstructionFor(kv: State): (r: Result<string>)
    ensures r.Ok?
  {
    Ok(InstructionHead + Tier(kv) + InstructionTail)
  }

  /** The instruction names the tier and nothing else varies: cutting off the fixed text gives the tier back. */
  lemma InstructionNamesTier(kv: State)
    ensures var s := InstructionFor(kv).value;
            && |s| == |InstructionHead| + |Tier(kv)| + |InstructionTail|
            && s[..|InstructionHead|] == InstructionHead
            && s[|InstructionHead|..|s| - |InstructionTail|] == Tier(kv)
    ensures TierKey !in kv ==> Tier(kv) == DefaultTier
    ensures TierKey in kv && kv[TierKey].Str? ==> Tier(kv) == kv[TierKey].s
  {
    var s := InstructionFor(kv).value;
    assert s == InstructionHead + Tier(kv) + InstructionTail;
    assert s[|InstructionHead|..|s| - |InstructionTail|] == Tier(kv);
  }

  /** Sessions whose tiers print differently get different instructions. */
  lemma InstructionsTellTiersApart(a: State, b: State)
    requires Tier(a) != Tier(b)
    ensures InstructionFor(a) != InstructionFor(b)
  {
    InstructionNamesTier(a);
    InstructionNamesTier(b);
  }

  // ---------------------------------------------------------------------
  // myBeforeModelCb
  // ---------------------------------------------------------------------

  const CallsKey := "model_calls"

  /**
   * The count the callback stores: one more than the stored int, 1 when
   * nothing is stored; any other stored value fails Go's type assertion.
   */
  function NextCount(kv: State): Outcome<int> {
    if CallsKey !in kv then Done(1)
    else if kv[CallsKey].Int? then Done(kv[CallsKey].i + 1)
    else Crash
  }

  /** The state after one counted call whose write succeeds. */
  function Counted(kv: State): State {
    if NextCount(kv).Done? then kv[CallsKey := Int(NextCount(kv).value)] else kv
  }

  /** The state after k counted calls. */
  function AfterCalls(kv: State, k: nat): State {
    if k == 0 then kv else Counted(AfterCalls(kv, k - 1))
  }

  /** k model calls add exactly k to the stored count (counting from 0) and touch no other key. */
  lemma {:induction false} CallsCounted(kv: State, k: nat)
    requires CallsKey !in kv || kv[CallsKey].Int?
    ensures var base := if CallsKey in kv then kv[CallsKey].i else 0;
            k > 0 ==> CallsKey in AfterCalls(kv, k) && AfterCalls(kv, k)[CallsKey] == Int(base + k)
    ensures AfterCalls(kv, k) - {CallsKey} == kv - {CallsKey}
  {
    if k > 0 {
      CallsCounted(kv, k - 1);
      var before := AfterCalls(kv, k - 1);
      assert before - {CallsKey} == kv - {CallsKey};
      assert AfterCalls(kv, k) == before[CallsKey := Int(NextCount(before).value)];
      assert AfterCalls(kv, k) - {CallsKey} == before - {CallsKey};
    }
  }

  /** myBeforeModelCb: counts the call and lets the model call proceed; a refused write is returned as the error. */
  method CountModelCall(st: StateStore) returns (out: Outcome<Reply<LLMResponse>>)
    modifies st
    ensures NextCount(old(st.kv)).Crash? ==> out == Crash && st.kv == old(st.kv)
    ensures NextCount(old(st.kv)).Done? ==>
              && out == Done(if st.rejection.Some? then Failed(st.rejection.value) else Proceed)
              && st.kv == (if st.rejection.None? then Counted(old(st.kv)) else old(st.kv))
  {
    var stored := st.Get(CallsKey);
    var count := 0;
    if stored.Some? {
      if !stored.value.Int? {
        return Crash;
      }
      count := stored.value.i;
    }
    var err := st.Set(CallsKey, Int(count + 1));
    if err.Some? {
      return Done(Failed(err.value));
    }
    return Done(Proceed);
  }

  // ---------------------------------------------------------------------
  // searchExternalAPI
  // ---------------------------------------------------------------------

  const ApiKeyKey := "api_key"
  const AuthRequired := "Auth Required"
  const FetchedHead := "Data for "
  const FetchedTail := " fetched."

  datatype SearchResult = SearchResult(result: string, status: string)

  /** An API key is stored and is not the empty string (a non-string value counts as a key). */
  predicate HasApiKey(kv: State) {
    ApiKeyKey in kv && kv[ApiKeyKey] != Str("")
  }

  /** searchExternalAPI */
  function SearchExternal(kv: State, query: string): SearchResult {
    if !HasApiKey(kv) then SearchResult("", AuthRequired)
    else SearchResult(FetchedHead + query + FetchedTail, "")
  }

  /** Without a usable key the tool asks for authorisation and fetches nothing; with one it fetches for the query. */
  lemma SearchNeedsKey(kv: State, query: string)
    ensures SearchExternal(kv, query).status == AuthRequired <==> !HasApiKey(kv)
    ensures SearchExternal(kv, query).result != "" <==> HasApiKey(kv)
    ensures HasApiKey(kv) ==>
              var r := SearchExternal(kv, query).result;
              |r| == |FetchedHead| + |query| + |FetchedTail| && r[|FetchedHead|..|r| - |FetchedTail|] == query
  {
    if HasApiKey(kv) {
      var r := SearchExternal(kv, query).result;
      assert r[|FetchedHead|..|r| - |FetchedTail|] == query;
    }
  }

  // ---------------------------------------------------------------------
  // getUserProfile and getUserOrders
  // ---------------------------------------------------------------------

  const CurrentUserKey := "temp:current_user_id"
  const GeneratedUser := "random_user_456"
  const UserIdMissing := "User ID not found in state"
  const KnownOrders := ["order123", "order456"]

  datatype ProfileResult = ProfileResult(profileStatus: string, error: string)
  datatype OrdersResult = OrdersResult(orders: seq<string>, error: string)

  /** getUserProfile: hands a user ID to later tools through temporary state. */
  method GetUserProfile(st: StateStore) returns (r: ProfileResult)
    modifies st
    ensures st.rejection.None? ==> r == ProfileResult("ID generated", "") && st.kv == old(st.kv)[CurrentUserKey := Str(GeneratedUser)]
    ensures st.rejection.Some? ==> r == ProfileResult("", "Failed to set user ID in state") && st.kv == old(st.kv)
  {
    var err := st.Set(CurrentUserKey, Str(GeneratedUser));
    if err.Some? {
      return ProfileResult("", "Failed to set user ID in state");
    }
    return ProfileResult("ID generated", "");
  }

  /** getUserOrders */
  function GetUserOrders(kv: State): OrdersResult {
    if CurrentUserKey !in kv then OrdersResult([], UserIdMissing) else OrdersResult(KnownOrders, "")
  }

  /** Orders come back exactly when a user ID was handed over; otherwise the error says it is missing. */
  lemma OrdersNeedUser(kv: State)
    ensures GetUserOrders(kv).orders != [] <==> CurrentUserKey in kv
    ensures GetUserOrders(kv).error == "" <==> CurrentUserKey in kv
    ensures CurrentUserKey !in kv ==> GetUserOrders(kv).error == UserIdMissing
  {
  }

  /** After getUserProfile's write, getUserOrders finds the user; the key is a temporary one. */
  lemma ProfileThenOrders(kv: State)
    ensures GetUserOrders(kv[CurrentUserKey := Str(GeneratedUser)]) == OrdersResult(KnownOrders, "")
    ensures IsTempKey(CurrentUserKey)
  {
  }

  // ---------------------------------------------------------------------
  // checkInitialIntent
  // ---------------------------------------------------------------------

  const NoInput := "N/A"
  const NonTextInput := "Non-text input"

  /** What the callback answers and the user input it reports. */
  datatype Intent = Intent(reply: Reply<Content>, reported: string)

  /** checkInitialIntent: reports the user's opening text and never changes the agent's output. */
  function CheckInitialIntent(userContent: Option<Content>): (r: Intent)
    ensures r.reply == Proceed
    ensures r.reported != ""
  {
    var reported :=
      if userContent.None? || |userContent.value.parts| == 0 then NoInput
      else if userContent.value.parts[0].text != "" then userContent.value.parts[0].text
      else NonTextInput;
    Intent(Proceed, reported)
  }

  /** The reported input: "N/A" without user parts, else the first part's text, else "Non-text input". */
  lemma IntentReported(uc: Option<Content>)
    ensures uc.None? || uc.value.parts == [] ==> CheckInitialIntent(uc).reported == NoInput
    ensures uc.Some? && uc.value.parts != [] && uc.value.parts[0].text != "" ==>
              CheckInitialIntent(uc).reported == uc.value.parts[0].text
    ensures uc.Some? && uc.value.parts != [] && uc.value.parts[0].text == "" ==>
              CheckInitialIntent(uc).reported == NonTextInput
  {
  }

  // ---------------------------------------------------------------------
  // setUserPreference
  // ---------------------------------------------------------------------

  /** The user-scoped key a preference is stored under. */
  function PreferenceKey(preference: string): (k: string)
    ensures HasKeyPrefix(k, UserPrefix) && !IsTempKey(k)
  {
    assert (UserPrefix + preference)[0] == 'u';
    UserPrefix + preference
  }

  /** Different preferences are kept under different keys. */
  lemma PreferenceKeysDistinct(p: string, q: string)
    requires p != q
    ensures PreferenceKey(p) != PreferenceKey(q)
  {
    assert PreferenceKey(p)[|UserPrefix|..] == p;
    assert PreferenceKey(q)[|UserPrefix|..] == q;
  }

  /** setUserPreference: stores the value under the user-scoped key; a refused write is returned as the error. */
  method SetUserPreference(st: StateStore, preference: string, value: string) returns (r: Result<map<string, string>>)
    modifies st
    ensures st.rejection.Some? ==> r == Err(st.rejection.value) && st.kv == old(st.kv)
    ensures st.rejection.None? ==>
              r == Ok(map["status" := "Preference updated"]) && st.kv == old(st.kv)[PreferenceKey(preference) := Str(value)]
  {
    var err := st.Set(PreferenceKey(preference), Str(value));
    if err.Some? {
      return Err(err.value);
    }
    return Ok(map["status" := "Preference updated"]);
  }

  // ---------------------------------------------------------------------
  // saveDocRefToolFunc and summarizeDocumentTool
  // ---------------------------------------------------------------------

  const DocNameKey := "temp:doc_artifact_name"
  const DocRefFile := "document_to_summarize.txt"
  const NoDocName := "No document artifact name found in state"
  const NoTextPath := "Could not load artifact or artifact has no text path."
  const SummaryHead := "Summary of content from "

  datatype SaveRefResult = SaveRefResult(status: string, error: string)
  datatype Summary = Summary(summary: string, error: string)

  /** saveDocRefToolFunc: saves the path as a text artifact, then records the artifact's name in temporary state. */
  method SaveDocRef(st: StateStore, store: Store, path: string) returns (r: SaveRefResult)
    requires store.Valid()
    modifies st, store
    ensures store.Valid()
    ensures store.failSave.Some? ==>
              r == SaveRefResult("", store.failSave.value) && store.data == old(store.data) && st.kv == old(st.kv)
    ensures store.failSave.None? ==>
              && store.data == Stored(old(store.data), DocRefFile, Some(TextPart(path)))
              && st.kv == (if st.rejection.None? then old(st.kv)[DocNameKey := Str(DocRefFile)] else old(st.kv))
              && r == (if st.rejection.None? then SaveRefResult("Reference saved", "") else SaveRefResult("", st.rejection.value))
  {
    var saved := store.Save(DocRefFile, Some(TextPart(path)));
    if saved.Err? {
      return SaveRefResult("", saved.error);
    }
    var err := st.Set(DocNameKey, Str(DocRefFile));
    if err.Some? {
      return SaveRefResult("", err.value);
    }
    return SaveRefResult("Reference saved", "");
  }

  /** The text path a loaded version carries; a version saved without a part has none. */
  function PathOf(part: Option<Part>): string {
    if part.Some? then part.value.text else ""
  }

  /**
   * summarizeDocumentTool: a missing artifact name, a failed load and an
   * empty path are errors, checked in that order; a stored name that is not
   * a string fails Go's type assertion.
   */
  function SummarizeDocument(kv: State, store: Store): Outcome<Summary>
    requires store.Valid()
    reads store
  {
    if DocNameKey !in kv then Done(Summary("", NoDocName))
    else if !kv[DocNameKey].Str? then Crash
    else
      var loaded := store.Load(kv[DocNameKey].s);
      if loaded.Err? then Done(Summary("", loaded.error))
      else if PathOf(loaded.value) == "" then Done(Summary("", NoTextPath))
      else Done(Summary(SummaryHead + PathOf(loaded.value), ""))
  }

  /** Every outcome that does not crash is either a summary or an error, never both, when load errors have text. */
  lemma SummaryOrError(kv: State, store: Store)
    requires store.Valid() && store.failLoad != Some("")
    ensures SummarizeDocument(kv, store).Done? ==>
              var s := SummarizeDocument(kv, store).value;
              (s.summary == "") != (s.error == "")
  {
    if DocNameKey in kv && kv[DocNameKey].Str? {
      var loaded := store.Load(kv[DocNameKey].s);
      if loaded.Err? && store.failLoad.None? {
        assert loaded.error == "artifact " + kv[DocNameKey].s + " not found";
      }
    }
  }

  /**
   * Saving a reference and then summarising reads the reference back: the
   * summary names the saved path, or reports that the path is empty.
   */
  lemma SavedReferenceSummarized(before: Artifacts, kv: State, store: Store, path: string)
    requires WellFormed(before) && store.Valid() && store.failLoad.None?
    requires store.data == Stored(before, DocRefFile, Some(TextPart(path)))
    requires DocNameKey in kv && kv[DocNameKey] == Str(DocRefFile)
    ensures path != "" ==> SummarizeDocument(kv, store) == Done(Summary(SummaryHead + path, ""))
    ensures path == "" ==> SummarizeDocument(kv, store) == Done(Summary("", NoTextPath))
  {
    LoadAfterSave(before, DocRefFile, Some(TextPart(path)));
  }
}
