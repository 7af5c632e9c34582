/**
 * The user-preference tool: it keeps all of a user's preferences in one
 * map under the user-scoped key `user:preferences` and sets one entry per
 * call.
 */
module UserPreference {
  import opened Values

  const PrefsKey := "user:preferences"

  datatype UpdateResult = UpdateResult(status: string, updatedPreference: string)

  /** The stored preferences; a missing key or a value that is not a map starts an empty map. */
  function Prefs(kv: State): map<string, Value> {
    if PrefsKey in kv && kv[PrefsKey].Dict? then kv[PrefsKey].entries else map[]
  }

  /** The state once the tool's write is accepted. */
  function Updated(kv: State, preference: string, value: string): State {
    kv[PrefsKey := Dict(Prefs(kv)[preference := Str(value)])]
  }

  /** updateUserPreference */
  method UpdateUserPreference(st: StateStore, preference: string, value: string) returns (r: UpdateResult)
    modifies st
    ensures st.rejection.Some? ==> r == UpdateResult("error", "") && st.kv == old(st.kv)
    ensures st.rejection.None? ==> r == UpdateResult("success", preference) && st.kv == Updated(old(st.kv), preference, value)
  {
    var stored := st.Get(PrefsKey);
    var prefs: map<string, Value> := map[];
    if stored.Some? && stored.value.Dict? {
      prefs := stored.value.entries;
    }
    prefs := prefs[preference := Str(value)];
    var err := st.Set(PrefsKey, Dict(prefs));
    if err.Some? {
      return UpdateResult("error", "");
    }
    return UpdateResult("success", preference);
  }

  /**
   * The update sets the one entry and keeps every other preference, and no
   * other state key changes.
   */
  lemma OnlyThatPreference(kv: State, preference: string, value: string)
    ensures var after := Prefs(Updated(kv, preference, value));
            && after.Keys == Prefs(kv).Keys + {preference}
            && after[preference] == Str(value)
            && (forall p :: p in Prefs(kv) && p != preference ==> after[p] == Prefs(kv)[p])
    ensures Updated(kv, preference, value) - {PrefsKey} == kv - {PrefsKey}
  {
  }

  /** Setting the same preference to the same value twice is the same as setting it once. */
  lemma UpdateIdempotent(kv: State, preference: string, value: string)
    ensures Updated(Updated(kv, preference, value), preference, value) == Updated(kv, preference, value)
  {
    var once := Updated(kv, preference, value);
    var m := Prefs(kv)[preference := Str(value)];
    assert Prefs(once) == m;
    assert m[preference := Str(value)] == m;
  }

  /** The later of two updates of the same preference wins; updates of different preferences commute. */
  lemma LaterUpdateWins(kv: State, p: string, q: string, v: string, w: string)
    ensures Prefs(Updated(Updated(kv, p, v), p, w)) == Prefs(Updated(kv, p, w))
    ensures p != q ==> Updated(Updated(kv, p, v), q, w) == Updated(Updated(kv, q, w), p, v)
  {
    assert Prefs(Updated(kv, p, v)) == Prefs(kv)[p := Str(v)];
    assert Prefs(Updated(kv, q, w)) == Prefs(kv)[q := Str(w)];
    if p != q {
      assert Prefs(kv)[p := Str(v)][q := Str(w)] == Prefs(kv)[q := Str(w)][p := Str(v)];
    }
  }

  /** The preferences live in user scope, so they are persisted with the session. */
  lemma PreferencesUserScoped()
    ensures HasKeyPrefix(PrefsKey, UserPrefix) && !IsTempKey(PrefsKey)
  {
    assert PrefsKey[0] != TempPrefix[0];
  }
}
