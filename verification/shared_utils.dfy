/**
  Preference persistence from `shared-utils.ts`: string-valued entries in a key-value store
  (the browser's `localStorage`, modelled as a map), every key namespaced with `lsdt-`.
 */
module Prefs {

  type Storage = map<string, string>

  const Prefix: string := "lsdt"

  /** The storage key for a preference key: the prefix, a dash, then the key. */
  function StorageKey(key: string): (k: string)
    ensures |k| == |key| + 5
    ensures k[..5] == "lsdt-" && k[5..] == key
  {
    Prefix + "-" + key
  }

  /** Distinct preference keys never share a storage entry. */
  lemma StorageKeyInjective(a: string, b: string)
    requires a != b
    ensures StorageKey(a) != StorageKey(b)
  {
    assert StorageKey(a)[5..] == a && StorageKey(b)[5..] == b;
  }

  /** How `String(value)` writes a boolean. */
  function BoolText(value: bool): string {
    if value then "true" else "false"
  }

  /** `getStoredBoolean`: the default when the entry is absent, otherwise whether the stored
      text is exactly `"true"` (the default plays no part then). */
  function GetStoredBoolean(st: Storage, key: string, default: bool): (r: bool)
    ensures StorageKey(key) !in st ==> r == default
    ensures StorageKey(key) in st ==> (r <==> st[StorageKey(key)] == "true")
  {
    var k := StorageKey(key);
    if k !in st then default else st[k] == "true"
  }

  function SetStoredBoolean(st: Storage, key: string, value: bool): (st': Storage)
    ensures st'.Keys == st.Keys + {StorageKey(key)}
    ensures forall k | k in st && k != StorageKey(key) :: st'[k] == st[k]
    ensures forall d: bool {:trigger GetStoredBoolean(st', key, d)} :: GetStoredBoolean(st', key, d) == value
  {
    st[StorageKey(key) := BoolText(value)]
  }

  /** `getStoredString`: JavaScript's `||` sends both an absent entry and an empty string to
      the default. */
  function GetStoredString(st: Storage, key: string, default: string): (r: string)
    ensures StorageKey(key) !in st ==> r == default
    ensures StorageKey(key) in st && st[StorageKey(key)] == "" ==> r == default
    ensures StorageKey(key) in st && st[StorageKey(key)] != "" ==> r == st[StorageKey(key)]
  {
    var k := StorageKey(key);
    if k in st && st[k] != "" then st[k] else default
  }

  function SetStoredString(st: Storage, key: string, value: string): (st': Storage)
    ensures st'.Keys == st.Keys + {StorageKey(key)}
    ensures StorageKey(key) in st' && st'[StorageKey(key)] == value
    ensures forall k | k in st && k != StorageKey(key) :: st'[k] == st[k]
  {
    st[StorageKey(key) := value]
  }

  /** Writing a string and reading it back gives the string, unless it is empty. */
  lemma StringRoundTrip(st: Storage, key: string, value: string, default: string)
    ensures GetStoredString(SetStoredString(st, key, value), key, default)
         == (if value == "" then default else value)
  {
  }

  /** Setting one preference leaves every other preference as it reads. */
  lemma SetBooleanFrame(st: Storage, key: string, value: bool, other: string, default: bool)
    requires other != key
    ensures GetStoredBoolean(SetStoredBoolean(st, key, value), other, default)
         == GetStoredBoolean(st, other, default)
  {
    StorageKeyInjective(key, other);
  }

  lemma SetStringFrame(st: Storage, key: string, value: string, other: string, default: string)
    requires other != key
    ensures GetStoredString(SetStoredString(st, key, value), other, default)
         == GetStoredString(st, other, default)
  {
    StorageKeyInjective(key, other);
  }
}

/**
  The cleanup registry from `shared-utils.ts`: thunks registered in order, all run by `run`
  in that order with each failure caught and logged, after which the registry is empty.
  A thunk is modelled as a value of type `T` together with an `exec` function that applies
  it to the caller's state `S` and says whether it threw (its effects up to the throw stay).
 */
module Cleanup {

  datatype Registry<T> = Registry(fns: seq<T>)

  /** What `run` observed of one thunk: it was invoked, and whether it threw (and so had its
      error logged). */
  datatype Report<T> = Report(task: T, threw: bool)

  function Empty<T>(): Registry<T> {
    Registry([])
  }

  function Add<T>(r: Registry<T>, f: T): (r': Registry<T>)
    ensures |r'.fns| == |r.fns| + 1
    ensures r'.fns[..|r.fns|] == r.fns && r'.fns[|r.fns|] == f
  {
    Registry(r.fns + [f])
  }

  /** The reference semantics of running `fns` from state `s`, in order, whatever each
      thunk's outcome. */
  function RunAll<S, T>(s: S, fns: seq<T>, exec: (S, T) -> (S, bool)): (S, seq<Report<T>>)
    decreases |fns|
  {
    if |fns| == 0 then (s, [])
    else
      var first := exec(s, fns[0]);
      var rest := RunAll(first.0, fns[1..], exec);
      (rest.0, [Report(fns[0], first.1)] + rest.1)
  }

  /** Every registered thunk is invoked exactly once, in registration order, even when an
      earlier one threw. */
  lemma {:induction false} RunAllInvokesEachInOrder<S, T>(s: S, fns: seq<T>, exec: (S, T) -> (S, bool))
    ensures |RunAll(s, fns, exec).1| == |fns|
    ensures forall i | 0 <= i < |fns| :: RunAll(s, fns, exec).1[i].task == fns[i]
    decreases |fns|
  {
    if |fns| > 0 {
      var (s1, threw) := exec(s, fns[0]);
      RunAllInvokesEachInOrder(s1, fns[1..], exec);
      var reports := RunAll(s, fns, exec).1;
      forall i | 0 <= i < |fns| ensures reports[i].task == fns[i] {
        if i > 0 {
          assert reports[i] == RunAll(s1, fns[1..], exec).1[i - 1];
        }
      }
    }
  }

  /** Running a prefix and then the next thunk is running the longer prefix. */
  lemma {:induction false} RunAllSplit<S, T>(s: S, fns: seq<T>, i: nat, exec: (S, T) -> (S, bool))
    requires i < |fns|
    ensures RunAll(s, fns[..i + 1], exec).0 == exec(RunAll(s, fns[..i], exec).0, fns[i]).0
    ensures RunAll(s, fns[..i + 1], exec).1
         == RunAll(s, fns[..i], exec).1 + [Report(fns[i], exec(RunAll(s, fns[..i], exec).0, fns[i]).1)]
    decreases i
  {
    var first := exec(s, fns[0]);
    assert fns[..i + 1][0] == fns[0];
    if i == 0 {
      assert |fns[..i]| == 0 && |fns[..i + 1][1..]| == 0;
      var rest := RunAll(first.0, fns[..i + 1][1..], exec);
      assert rest.0 == first.0 && rest.1 == [];
    } else {
      assert fns[..i][0] == fns[0];
      assert fns[..i][1..] == fns[1..][..i - 1];
      assert fns[..i + 1][1..] == fns[1..][..i];
      assert fns[1..][i - 1] == fns[i];
      RunAllSplit(first.0, fns[1..], i - 1, exec);
      var before := RunAll(first.0, fns[1..][..i - 1], exec);
      var after := RunAll(first.0, fns[1..][..i], exec);
      var step := exec(before.0, fns[i]);
      assert RunAll(s, fns[..i], exec).0 == before.0;
      assert RunAll(s, fns[..i], exec).1 == [Report(fns[0], first.1)] + before.1;
      assert after.0 == step.0 && after.1 == before.1 + [Report(fns[i], step.1)];
      assert RunAll(s, fns[..i + 1], exec).0 == after.0;
      assert RunAll(s, fns[..i + 1], exec).1 == [Report(fns[0], first.1)] + after.1;
    }
  }

  /** `run`: invoke each thunk with its failure isolated, then empty the registry. */
  method Run<S, T>(r: Registry<T>, s: S, exec: (S, T) -> (S, bool))
      returns (r': Registry<T>, s': S, reports: seq<Report<T>>)
    ensures r'.fns == []
    ensures (s', reports) == RunAll(s, r.fns, exec)
    ensures |reports| == |r.fns|
    ensures forall i | 0 <= i < |r.fns| :: reports[i].task == r.fns[i]
  {
    var fns := r.fns;
    s' := s;
    reports := [];
    var i := 0;
    while i < |fns|
      invariant 0 <= i <= |fns|
      invariant s' == RunAll(s, fns[..i], exec).0
      invariant reports == RunAll(s, fns[..i], exec).1
    {
      RunAllSplit(s, fns, i, exec);
      var (next, threw) := exec(s', fns[i]);
      s' := next;
      reports := reports + [Report(fns[i], threw)];
      i := i + 1;
    }
    assert fns[..i] == fns;
    RunAllInvokesEachInOrder(s, fns, exec);
    r' := Registry([]);
  }
}
