/**
 * Values held in session state, tool arguments and tool results (Go's `any`),
 * and the string-keyed session state itself.
 */
module Values {
  import opened Wrappers
  import Text

  /**
   * A dynamically typed value. Floating-point numbers are kept as opaque
   * text tags and never computed with.
   */
  datatype Value =
    | Str(s: string)
    | Int(i: int)
    | Bool(b: bool)
    | Bytes(data: seq<bv8>)
    | StrList(items: seq<string>)
    | IntList(nums: seq<int>)
    | Dict(entries: map<string, Value>)
    | Float(text: string)

  type State = map<string, Value>

  const UserPrefix := "user:"
  const TempPrefix := "temp:"
  const AppPrefix := "app:"

  predicate HasKeyPrefix(key: string, prefix: string) {
    |prefix| <= |key| && key[..|prefix|] == prefix
  }

  /** Keys that live only for the current invocation. */
  predicate IsTempKey(key: string) { HasKeyPrefix(key, TempPrefix) }

  /**
   * How fmt's %v verb prints a value: strings as they are, numbers in
   * decimal, lists space-separated in brackets. A float prints as its tag.
   */
  function Show(v: Value): string {
    match v
    case Str(s) => s
    case Int(i) => Text.Itoa(i)
    case Bool(b) => if b then "true" else "false"
    case Bytes(data) => "[" + Text.Join(seq(|data|, k requires 0 <= k < |data| => Text.NatToString(data[k] as nat)), " ") + "]"
    case StrList(items) => "[" + Text.Join(items, " ") + "]"
    case IntList(nums) => "[" + Text.Join(seq(|nums|, k requires 0 <= k < |nums| => Text.Itoa(nums[k])), " ") + "]"
    case Dict(entries) => if entries == map[] then "map[]" else "map[...]"
    case Float(text) => text
  }

  /**
   * The state a tool or callback sees through its context. `rejection` is
   * what the session service answers to every write: None when writes
   * succeed, Some(error) when the service refuses them.
   */
  class StateStore {
    var kv: State
    const rejection: Option<string>

    constructor (initial: State, rejection: Option<string>)
      ensures kv == initial && this.rejection == rejection
    {
      kv := initial;
      this.rejection := rejection;
    }

    /** State().Get: the stored value, or None (Go's error) for a missing key. */
    function Get(key: string): (r: Option<Value>)
      reads this
      ensures r.Some? <==> key in kv
      ensures r.Some? ==> r.value == kv[key]
    {
      if key in kv then Some(kv[key]) else None
    }

    /** State().Set: stores the value unless the service refuses the write. */
    method Set(key: string, v: Value) returns (err: Option<string>)
      modifies this
      ensures err == rejection
      ensures kv == if rejection.None? then old(kv)[key := v] else old(kv)
    {
      err := rejection;
      if rejection.None? {
        kv := kv[key := v];
      }
    }
  }

  /** A Go `map[string]any` that a callback may update in place, such as tool arguments. */
  class ValueMap {
    var entries: map<string, Value>

    constructor (entries: map<string, Value>)
      ensures this.entries == entries
    {
      this.entries := entries;
    }
  }
}
