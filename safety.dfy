/**
 * The safety guardrails example: an in-tool guardrail that checks a query
 * against a table allow-list and a SELECT-only rule kept in session state,
 * and a before-model callback that blocks database calls made for another
 * user. The session state is the example's in-memory mock, whose writes
 * always succeed.
 */
module Safety {
  import opened Wrappers
  import opened Values
  import opened Genai
  import Text

  const PolicyKey := "query_tool_policy"
  const SessionUserKey := "session_user_id"

  // ---------------------------------------------------------------------
  // Policy setup
  // ---------------------------------------------------------------------

  /** The policy the example installs: SELECT only, over mytable1 and mytable2. */
  const ExamplePolicy := Dict(map["select_only" := Bool(true), "tables" := StrList(["mytable1", "mytable2"])])

  /** conceptualSetup: stores the policy and the session's user. */
  method ConceptualSetup(s: StateStore)
    requires s.rejection.None?
    modifies s
    ensures s.kv == old(s.kv)[PolicyKey := ExamplePolicy][SessionUserKey := Str("user123")]
  {
    var e1 := s.Set(PolicyKey, ExamplePolicy);
    var e2 := s.Set(SessionUserKey, Str("user123"));
  }

  // ---------------------------------------------------------------------
  // The in-tool guardrail
  // ---------------------------------------------------------------------

  /** explainQuery: the tables a query touches, recognised by name; the first match wins. */
  function ExplainQuery(q: string): (r: seq<string>)
    ensures |r| <= 1
  {
    if Text.Contains(Text.ToLower(q), "mytable1") then ["mytable1"]
    else if Text.Contains(Text.ToLower(q), "unauthorized_table") then ["unauthorized_table"]
    else []
  }

  /** Table recognition ignores case. */
  lemma ExplainIgnoresCase(q: string)
    ensures ExplainQuery(Text.ToUpper(q)) == ExplainQuery(q)
    ensures ExplainQuery(Text.ToLower(q)) == ExplainQuery(q)
  {
    Text.LowerOfUpper(q);
    Text.LowerIdempotent(q);
  }

  /** Every element of `a` occurs in `b`. */
  predicate SubsetOf(a: seq<string>, b: seq<string>) {
    forall i :: 0 <= i < |a| ==> a[i] in b
  }

  /** isSubset: collect `b` into a set, then look up every element of `a`. */
  method IsSubset(a: seq<string>, b: seq<string>) returns (ok: bool)
    ensures ok <==> SubsetOf(a, b)
  {
    var present: set<string> := {};
    var i := 0;
    while i < |b|
      invariant 0 <= i <= |b|
      invariant forall x :: x in present <==> x in b[..i]
    {
      assert b[..i + 1] == b[..i] + [b[i]];
      present := present + {b[i]};
      i := i + 1;
    }
    assert b[..i] == b;
    var j := 0;
    while j < |a|
      invariant 0 <= j <= |a|
      invariant forall k :: 0 <= k < j ==> a[k] in b
    {
      if a[j] !in present {
        return false;
      }
      j := j + 1;
    }
    return true;
  }

  /** queryResult; empty results and an empty error stand for omitted fields. */
  datatype QueryResult = QueryResult(status: string, results: seq<string>, error: string)

  const PolicyMissing := "Internal error: query_tool_policy not found in state."
  const SelectOnlyError := "Policy restricts queries to SELECT statements only."
  const TablesError := "Query targets unauthorized tables. Allowed: "

  function Rejected(error: string): QueryResult {
    QueryResult("error", [], error)
  }

  /** The policy as the tool reads it: a value that is not a map reads as an empty policy. */
  function PolicyOf(v: Value): map<string, Value> {
    if v.Dict? then v.entries else map[]
  }

  /** The allowed tables as the error message lists them. */
  function Allowed(tables: seq<string>): (r: string)
    ensures r != ""
  {
    if Text.Join(tables, ", ") == "" then "(None defined)" else Text.Join(tables, ", ")
  }

  /** The table rule: applies only when the policy lists its tables as strings. */
  predicate TablesViolated(policy: map<string, Value>, q: string) {
    "tables" in policy && policy["tables"].StrList? && !SubsetOf(ExplainQuery(q), policy["tables"].items)
  }

  /** The SELECT-only rule: applies only when the policy sets it to true. */
  predicate SelectViolated(policy: map<string, Value>, q: string) {
    "select_only" in policy && policy["select_only"] == Bool(true)
    && !Text.HasPrefix(Text.ToUpper(Text.TrimSpace(q)), "SELECT")
  }

  /** The tool's answer for a query, given the session state. */
  function QuerySpec(kv: State, q: string): QueryResult {
    if PolicyKey !in kv then Rejected(PolicyMissing)
    else
      var policy := PolicyOf(kv[PolicyKey]);
      if TablesViolated(policy, q) then Rejected(TablesError + Allowed(policy["tables"].items))
      else if SelectViolated(policy, q) then Rejected(SelectOnlyError)
      else QueryResult("success", ["result1", "result2"], "")
  }

  /**
   * A query succeeds exactly when a policy is stored and neither rule is
   * violated; the table rule is reported in preference to the SELECT rule.
   */
  lemma QueryPolicyEnforced(kv: State, q: string)
    ensures var r := QuerySpec(kv, q);
            && (r.status == "success" <==>
                  PolicyKey in kv && !TablesViolated(PolicyOf(kv[PolicyKey]), q) && !SelectViolated(PolicyOf(kv[PolicyKey]), q))
            && (r.status == "success" ==> r.results == ["result1", "result2"] && r.error == "")
            && (PolicyKey in kv && TablesViolated(PolicyOf(kv[PolicyKey]), q) ==>
                  r.error == TablesError + Allowed(PolicyOf(kv[PolicyKey])["tables"].items))
            && (PolicyKey in kv && !TablesViolated(PolicyOf(kv[PolicyKey]), q) && SelectViolated(PolicyOf(kv[PolicyKey]), q) ==>
                  r.error == SelectOnlyError)
  {
  }

  /** With no tables defined the message says so. */
  lemma NoTablesDefined()
    ensures Allowed([]) == "(None defined)"
  {
  }

  /** A query that touches no known table passes the table rule whatever tables are allowed. */
  lemma UnknownTablesPass(policy: map<string, Value>, q: string)
    requires ExplainQuery(q) == []
    ensures !TablesViolated(policy, q)
  {
  }

  /** A query that spells a lower-case table name somewhere mentions that table. */
  lemma MentionsTable(q: string, at: nat, table: string)
    requires at + |table| <= |q| && q[at..at + |table|] == table && Text.ToLower(table) == table
    ensures Text.Contains(Text.ToLower(q), table)
  {
    var lq := Text.ToLower(q);
    Text.ContainsIffOccurs(lq, table);
    forall k | 0 <= k < |table|
      ensures lq[at..at + |table|][k] == table[k]
    {
      assert q[at + k] == table[k];
    }
    assert Text.OccursAt(lq, table, at);
  }

  /** A query without some letter of a table name, in either case, does not mention that table. */
  lemma LacksTable(q: string, table: string, k: nat, c: char)
    requires k < |table| && table[k] == c && 'a' <= c <= 'z'
    requires c !in q && Text.UpperChar(c) !in q
    ensures !Text.Contains(Text.ToLower(q), table)
  {
    Text.ContainsIffOccurs(Text.ToLower(q), table);
  }

  const ValidQuery := "SELECT * FROM mytable1"
  const UnauthorizedQuery := "SELECT * FROM unauthorized_table"
  const DeleteQuery := "DELETE FROM mytable1"

  /** The example's valid query: SELECT over an allowed table. */
  lemma ValidQueryRuns(kv: State)
    requires PolicyKey in kv && kv[PolicyKey] == ExamplePolicy
    ensures QuerySpec(kv, ValidQuery).status == "success"
  {
    assert ValidQuery[14..22] == "mytable1";
    MentionsTable(ValidQuery, 14, "mytable1");
    Text.TrimSpaceNoop(ValidQuery);
    assert Text.ToUpper(ValidQuery)[..6] == "SELECT";
  }

  /** Under the example policy a query touching any other table is refused, naming the allowed tables. */
  lemma OtherTableRefused(kv: State, q: string, table: string)
    requires PolicyKey in kv && kv[PolicyKey] == ExamplePolicy
    requires ExplainQuery(q) == [table] && table != "mytable1" && table != "mytable2"
    ensures QuerySpec(kv, q).error == TablesError + "mytable1, mytable2"
  {
    assert [table][0] !in ["mytable1", "mytable2"];
    assert Text.Join(["mytable1", "mytable2"], ", ") == "mytable1" + ", " + "mytable2";
  }

  /** The example's query over a table outside the allow-list is refused, naming the allowed tables. */
  lemma UnauthorizedTableRefused(kv: State)
    requires PolicyKey in kv && kv[PolicyKey] == ExamplePolicy
    ensures QuerySpec(kv, UnauthorizedQuery).error == TablesError + "mytable1, mytable2"
  {
    UnauthorizedTableSeen();
    assert |"unauthorized_table"| == 18;
    OtherTableRefused(kv, UnauthorizedQuery, "unauthorized_table");
  }

  lemma UnauthorizedTableSeen()
    ensures ExplainQuery(UnauthorizedQuery) == ["unauthorized_table"]
  {
    UnauthorizedLacksMyTable1();
    UnauthorizedMentioned();
  }

  lemma UnauthorizedLacksMyTable1()
    ensures !Text.Contains(Text.ToLower(UnauthorizedQuery), "mytable1")
  {
    UnauthorizedSpellsNoY();
    LacksTable(UnauthorizedQuery, "mytable1", 1, 'y');
  }

  lemma UnauthorizedSpellsNoY()
    ensures 'y' !in UnauthorizedQuery && 'Y' !in UnauthorizedQuery
  {
  }

  lemma UnauthorizedMentioned()
    ensures Text.Contains(Text.ToLower(UnauthorizedQuery), "unauthorized_table")
  {
    assert UnauthorizedQuery[14..32] == "unauthorized_table";
    MentionsTable(UnauthorizedQuery, 14, "unauthorized_table");
  }

  /** The example's DELETE over an allowed table is refused by the SELECT-only rule. */
  lemma DeleteRefused(kv: State)
    requires PolicyKey in kv && kv[PolicyKey] == ExamplePolicy
    ensures QuerySpec(kv, DeleteQuery).error == SelectOnlyError
  {
    assert DeleteQuery[12..20] == "mytable1";
    MentionsTable(DeleteQuery, 12, "mytable1");
    Text.TrimSpaceNoop(DeleteQuery);
    assert Text.ToUpper(DeleteQuery)[0] == 'D';
  }

  /** query: the in-tool guardrail. */
  method Query(s: StateStore, q: string, userIDParam: string) returns (r: QueryResult)
    ensures r == QuerySpec(s.kv, q)
  {
    var policyVal := s.Get(PolicyKey);
    if policyVal.None? {
      return Rejected(PolicyMissing);
    }
    var policy := PolicyOf(policyVal.value);
    var actual := ExplainQuery(q);
    if "tables" in policy && policy["tables"].StrList? {
      var tables := policy["tables"].items;
      var ok := IsSubset(actual, tables);
      if !ok {
        var allowed := Text.Join(tables, ", ");
        if allowed == "" {
          allowed := "(None defined)";
        }
        return Rejected(TablesError + allowed);
      }
    }
    if "select_only" in policy && policy["select_only"] == Bool(true) {
      if !Text.HasPrefix(Text.ToUpper(Text.TrimSpace(q)), "SELECT") {
        return Rejected(SelectOnlyError);
      }
    }
    return QueryResult("success", ["result1", "result2"], "");
  }

  // ---------------------------------------------------------------------
  // The callback guardrail
  // ---------------------------------------------------------------------

  const GuardedTool := "database_query"
  const MissingUserError := "internal error: session_user_id not found in state"
  const MismatchMessage := "Tool call blocked by security callback: User ID mismatch."

  /** The user a call claims to act for: its user_id_param when that is a string, else "". */
  function ClaimedUser(fc: FunctionCall): string {
    if "user_id_param" in fc.args && fc.args["user_id_param"].Str? then fc.args["user_id_param"].s else ""
  }

  /** The guarded calls among some parts, in order. */
  function GuardedCalls(parts: seq<Part>): seq<FunctionCall> {
    if parts == [] then []
    else
      var p := parts[0];
      (if p.functionCall.Some? && p.functionCall.value.name == GuardedTool then [p.functionCall.value] else [])
      + GuardedCalls(parts[1..])
  }

  /** The guarded calls of a request, message by message. */
  function RequestCalls(contents: seq<Content>): seq<FunctionCall> {
    if contents == [] then [] else GuardedCalls(contents[0].parts) + RequestCalls(contents[1..])
  }

  /** The response that replaces the model call when a call is blocked. */
  const Blocked := LLMResponse(Some(TextContent(RoleModel, MismatchMessage)), false)

  /** Checks the calls in order: the first one decides unless it passes. */
  function Check(kv: State, calls: seq<FunctionCall>): Reply<LLMResponse> {
    if calls == [] then Proceed
    else if SessionUserKey !in kv then Failed(MissingUserError)
    else if kv[SessionUserKey] != Str(ClaimedUser(calls[0])) then Replace(Blocked)
    else Check(kv, calls[1..])
  }

  /**
   * Calls are allowed exactly when there are none, or the session has a user
   * and every call claims that user; a missing user is an error as soon as
   * there is a call; otherwise the request is blocked.
   */
  lemma {:induction false} CheckCharacterized(kv: State, calls: seq<FunctionCall>)
    ensures Check(kv, calls) == Proceed <==>
              calls == [] || (SessionUserKey in kv && forall i :: 0 <= i < |calls| ==> kv[SessionUserKey] == Str(ClaimedUser(calls[i])))
    ensures Check(kv, calls).Failed? <==> calls != [] && SessionUserKey !in kv
    ensures Check(kv, calls) == Replace(Blocked) <==>
              SessionUserKey in kv && exists i :: 0 <= i < |calls| && kv[SessionUserKey] != Str(ClaimedUser(calls[i]))
  {
    if calls != [] && SessionUserKey in kv && kv[SessionUserKey] == Str(ClaimedUser(calls[0])) {
      CheckCharacterized(kv, calls[1..]);
      if exists i :: 0 <= i < |calls[1..]| && kv[SessionUserKey] != Str(ClaimedUser(calls[1..][i])) {
        var i :| 0 <= i < |calls[1..]| && kv[SessionUserKey] != Str(ClaimedUser(calls[1..][i]));
        assert kv[SessionUserKey] != Str(ClaimedUser(calls[i + 1]));
      }
      if exists i :: 0 <= i < |calls| && kv[SessionUserKey] != Str(ClaimedUser(calls[i])) {
        var i :| 0 <= i < |calls| && kv[SessionUserKey] != Str(ClaimedUser(calls[i]));
        assert calls[1..][i - 1] == calls[i];
      }
    }
  }

  /** Checking a concatenation checks the second half only when the first is allowed. */
  lemma {:induction false} CheckConcat(kv: State, a: seq<FunctionCall>, b: seq<FunctionCall>)
    ensures Check(kv, a + b) == if Check(kv, a) == Proceed then Check(kv, b) else Check(kv, a)
  {
    if a == [] {
      assert a + b == b;
    } else {
      assert (a + b)[0] == a[0];
      assert (a + b)[1..] == a[1..] + b;
      CheckConcat(kv, a[1..], b);
    }
  }

  /** validateToolParams: inspects every database_query call of the request, message by message, part by part. */
  method ValidateToolParams(s: StateStore, contents: seq<Content>) returns (r: Reply<LLMResponse>)
    ensures r == Check(s.kv, RequestCalls(contents))
  {
    var i := 0;
    while i < |contents|
      invariant 0 <= i <= |contents|
      invariant Check(s.kv, RequestCalls(contents)) == Check(s.kv, RequestCalls(contents[i..]))
    {
      var parts := contents[i].parts;
      ghost var rest := RequestCalls(contents[i + 1..]);
      assert contents[i..][1..] == contents[i + 1..];
      var j := 0;
      while j < |parts|
        invariant 0 <= j <= |parts|
        invariant Check(s.kv, RequestCalls(contents)) == Check(s.kv, GuardedCalls(parts[j..]) + rest)
      {
        assert parts[j..][1..] == parts[j + 1..];
        var fc := parts[j].functionCall;
        if fc.Some? && fc.value.name == GuardedTool {
          CheckConcat(s.kv, [fc.value], GuardedCalls(parts[j + 1..]) + rest);
          assert GuardedCalls(parts[j..]) + rest == [fc.value] + (GuardedCalls(parts[j + 1..]) + rest);
          var expected := s.Get(SessionUserKey);
          if expected.None? {
            return Failed(MissingUserError);
          }
          if expected.value != Str(ClaimedUser(fc.value)) {
            return Replace(Blocked);
          }
          assert [fc.value][1..] == [];
        } else {
          assert GuardedCalls(parts[j..]) == GuardedCalls(parts[j + 1..]);
        }
        j := j + 1;
      }
      assert parts[j..] == [];
      assert GuardedCalls(parts[j..]) + rest == rest;
      i := i + 1;
    }
    assert contents[i..] == [];
    return Proceed;
  }

  /** A request whose only guarded call claims another user than the session's is blocked. */
  lemma OtherUserBlocked(kv: State, who: string)
    requires SessionUserKey in kv && kv[SessionUserKey] == Str("user123") && who != "user123"
    ensures Check(kv, [FunctionCall("", GuardedTool, map["user_id_param" := Str(who)])]) == Replace(Blocked)
  {
  }
}
