/**
 * The session service the examples run against, stated as the behaviour they
 * rely on rather than as its implementation: sessions are keyed by
 * application, user and session ID; a new session starts with the state it
 * was given and no events; appending an event records it and applies its
 * state delta, except for `temp:` keys, which are not persisted.
 */
module Sessions {
  import opened Wrappers
  import opened Values
  import opened Genai
  import Text

  datatype SessionKey = SessionKey(app: string, user: string, id: string)

  datatype SessionData = SessionData(state: State, events: seq<Event>)

  /** The part of a state delta that is persisted: everything but the `temp:` keys. */
  function Persisted(delta: State): (r: State)
    ensures forall k :: k in r <==> k in delta && !IsTempKey(k)
    ensures forall k :: k in r ==> r[k] == delta[k]
  {
    map k | k in delta && !IsTempKey(k) :: delta[k]
  }

  /** The ID the service picks for the n-th session created without one. */
  function GeneratedID(n: nat): (id: string)
    ensures |id| > 0
  {
    "session-" + Text.Itoa(n)
  }

  /** Generated IDs never repeat. */
  lemma GeneratedIDsDistinct(a: nat, b: nat)
    requires a != b
    ensures GeneratedID(a) != GeneratedID(b)
  {
    if GeneratedID(a) == GeneratedID(b) {
      assert GeneratedID(a)[8..] == Text.Itoa(a);
      assert GeneratedID(b)[8..] == Text.Itoa(b);
      Text.ItoaInjective(a, b);
    }
  }

  class SessionService {
    var sessions: map<SessionKey, SessionData>
    /** How many sessions were created without an explicit ID. */
    var generated: nat

    constructor ()
      ensures sessions == map[] && generated == 0
    {
      sessions := map[];
      generated := 0;
    }

    /**
     * Create: a new session under the requested application and user, with
     * the given state and no events. An empty ID asks the service for one;
     * an ID already in use is an error.
     */
    method Create(app: string, user: string, id: string, state: State) returns (r: Result<SessionKey>)
      modifies this
      ensures r.Ok? ==> && r.value.app == app && r.value.user == user
                        && (id != "" ==> r.value.id == id)
                        && r.value !in old(sessions)
                        && sessions == old(sessions)[r.value := SessionData(state, [])]
      ensures id != "" && SessionKey(app, user, id) in old(sessions) ==> r.Err? && sessions == old(sessions)
      ensures id != "" && SessionKey(app, user, id) !in old(sessions) ==> r.Ok?
      ensures id == "" ==> generated == old(generated) + 1
      ensures id == "" ==> (r.Ok? <==> SessionKey(app, user, GeneratedID(old(generated))) !in old(sessions))
      ensures id == "" && r.Ok? ==> r.value.id == GeneratedID(old(generated))
      ensures r.Err? ==> sessions == old(sessions)
      ensures id != "" ==> generated == old(generated)
    {
      var sid := id;
      if id == "" {
        sid := GeneratedID(generated);
        generated := generated + 1;
      }
      var key := SessionKey(app, user, sid);
      if key in sessions {
        return Err("session " + sid + " already exists");
      }
      sessions := sessions[key := SessionData(state, [])];
      return Ok(key);
    }

    /** Get: the stored session, or an error for an unknown key. */
    function Get(key: SessionKey): (r: Result<SessionData>)
      reads this
      ensures r.Ok? <==> key in sessions
      ensures r.Ok? ==> r.value == sessions[key]
    {
      if key in sessions then Ok(sessions[key]) else Err("session not found")
    }

    /** AppendEvent: records the event and applies the persisted part of its state delta. */
    method AppendEvent(key: SessionKey, ev: Event) returns (err: Option<string>)
      modifies this
      ensures err.None? <==> key in old(sessions)
      ensures err.None? ==> sessions == old(sessions)[key := SessionData(
                old(sessions)[key].state + Persisted(ev.actions.stateDelta), old(sessions)[key].events + [ev])]
      ensures err.Some? ==> sessions == old(sessions)
      ensures generated == old(generated)
    {
      if key !in sessions {
        return Some("session not found");
      }
      var s := sessions[key];
      sessions := sessions[key := SessionData(s.state + Persisted(ev.actions.stateDelta), s.events + [ev])];
      return None;
    }

    /** Delete: removes the session; deleting an unknown key changes nothing. */
    method Delete(key: SessionKey) returns (err: Option<string>)
      modifies this
      ensures err.None?
      ensures sessions == old(sessions) - {key}
      ensures generated == old(generated)
    {
      sessions := sessions - {key};
      return None;
    }
  }

  /** After an append, the persisted keys of the delta read back as written and no `temp:` key changes. */
  lemma AppendedStateFacts(before: State, delta: State)
    ensures var after := before + Persisted(delta);
            && (forall k :: k in delta && !IsTempKey(k) ==> k in after && after[k] == delta[k])
            && (forall k :: IsTempKey(k) ==> (k in after <==> k in before))
            && (forall k :: k !in delta ==> (k in after <==> k in before))
  {
  }

  /** What the session-management example observes about the session it creates. */
  datatype Observation = Observation(app: string, user: string, initialValue: Option<Value>, eventCount: nat)

  /**
   * The session-management example: create a session with an initial state,
   * read its properties, and delete it by its own triple. A failure to build
   * the Vertex AI service is only logged.
   */
  method ManagementExample(svc: SessionService, vertexErr: Option<string>)
    returns (logged: seq<string>, obs: Result<Observation>, deleteErr: Option<string>)
    modifies svc
    ensures vertexErr.Some? ==> logged == [vertexErr.value]
    ensures vertexErr.None? ==> logged == []
    ensures obs.Ok? ==> obs.value == Observation("my_go_app", "example_go_user", Some(Str("initial_value")), 0)
    ensures obs.Ok? ==> deleteErr.None?
    ensures obs.Ok? <==> SessionKey("my_go_app", "example_go_user", GeneratedID(old(svc.generated))) !in old(svc.sessions)
    ensures obs.Ok? ==> svc.sessions == old(svc.sessions)
  {
    logged := if vertexErr.Some? then [vertexErr.value] else [];
    var created := svc.Create("my_go_app", "example_go_user", "", map["initial_key" := Str("initial_value")]);
    if created.Err? {
      return logged, Err(created.error), None;
    }
    var key := created.value;
    var session := svc.Get(key);
    var data := session.value;
    var value := if "initial_key" in data.state then Some(data.state["initial_key"]) else None;
    obs := Ok(Observation(key.app, key.user, value, |data.events|));
    deleteErr := svc.Delete(key);
  }
}
