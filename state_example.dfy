/**
 * The session-state example: a manual state update carried by an event's
 * state delta (a login counter, a task status, a timestamp and a temporary
 * flag), and a tool that counts user actions through its context.
 */
module StateExample {
  import opened Wrappers
  import opened Values
  import opened Genai
  import opened Sessions

  const TaskStatusKey := "task_status"
  const LoginCountKey := "user:login_count"
  const LastLoginKey := "user:last_login_ts"
  const ValidationKey := "temp:validation_needed"
  const ActionCountKey := "user_action_count"
  const LastStatusKey := "temp:last_operation_status"

  /** The state the example's session is created with. */
  const InitialState: State := map[LoginCountKey := Int(0), TaskStatusKey := Str("idle")]

  /** A key that differs from the `temp:` prefix at some position is not temporary. */
  lemma NotTempAt(key: string, i: nat)
    requires i < |TempPrefix| && i < |key| && key[i] != TempPrefix[i]
    ensures !IsTempKey(key)
  {
  }

  /** A failed call's error text, for the fatal log line. */
  function Cause(err: Option<string>): string {
    if err.Some? then err.value else ""
  }

  function FailureOf<T>(r: Result<T>): string {
    if r.Err? then r.error else ""
  }

  function Lookup(kv: State, key: string): Option<Value> {
    if key in kv then Some(kv[key]) else None
  }

  /**
   * The next value of a counter: one more than the stored int; 1 when
   * nothing is stored or the stored value is not an int.
   */
  function Bumped(v: Option<Value>): int {
    if v.Some? && v.value.Int? then v.value.i + 1 else 1
  }

  /** The state with one counter bumped. */
  function Bump(kv: State, key: string): State {
    kv[key := Int(Bumped(Lookup(kv, key)))]
  }

  function BumpedTimes(kv: State, key: string, k: nat): State {
    if k == 0 then kv else Bump(BumpedTimes(kv, key, k - 1), key)
  }

  /**
   * k bumps add k to a stored int and count from 0 over anything else,
   * and leave every other key as it was.
   */
  lemma {:induction false} BumpsCount(kv: State, key: string, k: nat)
    ensures var base := if key in kv && kv[key].Int? then kv[key].i else 0;
            k > 0 ==> key in BumpedTimes(kv, key, k) && BumpedTimes(kv, key, k)[key] == Int(base + k)
    ensures BumpedTimes(kv, key, k) - {key} == kv - {key}
  {
    if k > 0 {
      BumpsCount(kv, key, k - 1);
      var before := BumpedTimes(kv, key, k - 1);
      assert BumpedTimes(kv, key, k) - {key} == before - {key};
    }
  }

  // ---------------------------------------------------------------------
  // manualStateUpdateExample
  // ---------------------------------------------------------------------

  /** The state delta of the login update; `now` is the Unix time the example reads from the clock. */
  function LoginDelta(kv: State, now: int): State {
    map[TaskStatusKey := Str("active"),
        LoginCountKey := Int(Bumped(Lookup(kv, LoginCountKey))),
        LastLoginKey := Int(now),
        ValidationKey := Bool(true)]
  }

  /** The event that carries the delta. */
  function LoginEvent(kv: State, now: int): Event {
    Event("system", LLMResponse(None, false), Actions(false, "", false, LoginDelta(kv, now)), [])
  }

  /** The session state after the update. */
  function AfterLogin(kv: State, now: int): State {
    kv + Persisted(LoginDelta(kv, now))
  }

  /**
   * After the update the status, the counter and the timestamp read back as
   * written, and the temporary flag was not persisted.
   */
  lemma LoginUpdateReadsBack(kv: State, now: int)
    ensures var s := AfterLogin(kv, now);
            && TaskStatusKey in s && s[TaskStatusKey] == Str("active")
            && LoginCountKey in s && s[LoginCountKey] == Int(Bumped(Lookup(kv, LoginCountKey)))
            && LastLoginKey in s && s[LastLoginKey] == Int(now)
            && (ValidationKey in s <==> ValidationKey in kv)
  {
    var d := LoginDelta(kv, now);
    assert d[LoginCountKey] == Int(Bumped(Lookup(kv, LoginCountKey)));
    AppendedStateFacts(kv, d);
    NotTempAt(TaskStatusKey, 1);
    NotTempAt(LoginCountKey, 0);
    NotTempAt(LastLoginKey, 0);
    assert IsTempKey(ValidationKey);
  }

  /** From the example's initial state, the first login counts 1 and the flag is not readable. */
  lemma FirstLogin(now: int)
    ensures var s := AfterLogin(InitialState, now);
            && s[LoginCountKey] == Int(1) && s[TaskStatusKey] == Str("active") && ValidationKey !in s
  {
    LoginUpdateReadsBack(InitialState, now);
  }

  /** What the example reads back after the update. */
  datatype Observed = Observed(taskStatus: Option<Value>, loginCount: Option<Value>, lastLogin: Option<Value>, tempFound: bool)

  /** manualStateUpdateExample: read the session, append the login event, read the session again. */
  method ManualStateUpdate(svc: SessionService, key: SessionKey, now: int) returns (r: Result<Observed>)
    modifies svc
    ensures key !in old(svc.sessions) ==> r.Err? && svc.sessions == old(svc.sessions)
    ensures key in old(svc.sessions) ==>
              var before := old(svc.sessions)[key].state;
              var after := AfterLogin(before, now);
              && key in svc.sessions && svc.sessions[key].state == after
              && r == Ok(Observed(Lookup(after, TaskStatusKey), Lookup(after, LoginCountKey), Lookup(after, LastLoginKey), ValidationKey in after))
  {
    var s := svc.Get(key);
    if s.Err? {
      return Err("Failed to get session: " + s.error);
    }
    var before := s.value.state;
    var err := svc.AppendEvent(key, LoginEvent(before, now));
    if err.Some? {
      return Err("Failed to append event: " + Cause(err));
    }
    var updated := svc.Get(key);
    if updated.Err? {
      return Err("Failed to get session: " + FailureOf(updated));
    }
    var after := updated.value.state;
    return Ok(Observed(Lookup(after, TaskStatusKey), Lookup(after, LoginCountKey), Lookup(after, LastLoginKey), ValidationKey in after));
  }

  // ---------------------------------------------------------------------
  // contextStateUpdateExample's tool
  // ---------------------------------------------------------------------

  /** update_action_count: bumps the action counter and records the operation status. */
  method UpdateActionCount(st: StateStore)
    modifies st
    ensures st.kv == if st.rejection.None?
                     then Bump(old(st.kv), ActionCountKey)[LastStatusKey := Str("success from tool")]
                     else old(st.kv)
  {
    var stored := st.Get(ActionCountKey);
    var next := Bumped(stored);
    var err1 := st.Set(ActionCountKey, Int(next));
    var err2 := st.Set(LastStatusKey, Str("success from tool"));
  }

  /** The tool's status note is temporary: persisting the tool's writes keeps the count and drops the note. */
  lemma ActionNoteNotPersisted(kv: State)
    ensures var writes := Bump(kv, ActionCountKey)[LastStatusKey := Str("success from tool")];
            && LastStatusKey !in Persisted(writes)
            && ActionCountKey in Persisted(writes) && Persisted(writes)[ActionCountKey] == Int(Bumped(Lookup(kv, ActionCountKey)))
  {
    var writes := Bump(kv, ActionCountKey)[LastStatusKey := Str("success from tool")];
    assert IsTempKey(LastStatusKey);
    NotTempAt(ActionCountKey, 0);
    assert writes[ActionCountKey] == Int(Bumped(Lookup(kv, ActionCountKey)));
  }
}
