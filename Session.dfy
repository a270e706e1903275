/** The Streamlit session of the teacher scheduler: filling in the default values
    and reading a value with a fallback. `st.session_state` is a map from names to
    values that the functions update in place. */
module Session {
  import opened Json

  /** The defaults of `init_session_state`, in the order they are written. */
  const Defaults: seq<(string, Json)> := [
    ("current_schedule", JNull),
    ("schedule_history", JArray([])),
    ("multi_input", JObject([("document", JNull), ("text", JString("")), ("voice", JString(""))])),
    ("recording", JBool(false)),
    ("schedule_type", JString("weekly_timetable")),
    ("preferences", JObject([])),
    ("initialized", JBool(true))
  ]

  /** The session after writing each default whose key is missing, in order. */
  function Merged(state: map<string, Json>, defaults: seq<(string, Json)>): (r: map<string, Json>)
    ensures state.Keys <= r.Keys
    decreases |defaults|
  {
    if defaults == [] then state
    else
      var (key, value) := defaults[0];
      Merged(if key in state then state else state[key := value], defaults[1..])
  }

  /** After the merge the keys are those of the session and of the defaults. */
  lemma {:induction false} MergedKeys(state: map<string, Json>, defaults: seq<(string, Json)>, key: string)
    ensures key in Merged(state, defaults) <==> key in state || HasKey(defaults, key)
    decreases |defaults|
  {
    if defaults != [] {
      var (k, v) := defaults[0];
      var next := if k in state then state else state[k := v];
      MergedKeys(next, defaults[1..], key);
      if HasKey(defaults, key) && !HasKey(defaults[1..], key) {
        var i :| 0 <= i < |defaults| && defaults[i].0 == key;
        if i > 0 {
          assert defaults[1..][i - 1].0 == key;
        }
      }
      if HasKey(defaults[1..], key) {
        var i :| 0 <= i < |defaults[1..]| && defaults[1..][i].0 == key;
        assert defaults[i + 1].0 == key;
      }
    }
  }

  /** A key that was already in the session keeps its value. */
  lemma {:induction false} MergedKeepsExisting(state: map<string, Json>, defaults: seq<(string, Json)>, key: string)
    requires key in state
    ensures key in Merged(state, defaults) && Merged(state, defaults)[key] == state[key]
    decreases |defaults|
  {
    if defaults != [] {
      var (k, v) := defaults[0];
      var next := if k in state then state else state[k := v];
      MergedKeepsExisting(next, defaults[1..], key);
    }
  }

  /** A missing key that has a default gets the value of its first default entry. */
  lemma {:induction false} MergedFillsDefault(state: map<string, Json>, defaults: seq<(string, Json)>, key: string)
    requires key !in state && HasKey(defaults, key)
    ensures key in Merged(state, defaults) && Merged(state, defaults)[key] == Get(defaults, key)
    decreases |defaults|
  {
    var (k, v) := defaults[0];
    var next := if k in state then state else state[k := v];
    if k == key {
      MergedKeepsExisting(next, defaults[1..], key);
    } else {
      var i :| 0 <= i < |defaults| && defaults[i].0 == key;
      assert defaults[1..][i - 1].0 == key;
      MergedFillsDefault(next, defaults[1..], key);
    }
  }

  /** A key neither in the session nor among the defaults stays absent; so keys
      outside the defaults are never touched. */
  lemma MergedOtherKeysUntouched(state: map<string, Json>, defaults: seq<(string, Json)>, key: string)
    requires !HasKey(defaults, key)
    ensures key in Merged(state, defaults) <==> key in state
    ensures key in state ==> Merged(state, defaults)[key] == state[key]
  {
    MergedKeys(state, defaults, key);
    if key in state {
      MergedKeepsExisting(state, defaults, key);
    }
  }

  /** When every default key is already present the merge changes nothing. */
  lemma {:induction false} MergedNoop(state: map<string, Json>, defaults: seq<(string, Json)>)
    requires forall i :: 0 <= i < |defaults| ==> defaults[i].0 in state
    ensures Merged(state, defaults) == state
  {
    if defaults != [] {
      assert defaults[0].0 in state;
      assert forall i :: 0 <= i < |defaults[1..]| ==> defaults[1..][i].0 == defaults[i + 1].0;
      MergedNoop(state, defaults[1..]);
    }
  }

  /** Initialising twice is the same as initialising once. */
  lemma MergedIdempotent(state: map<string, Json>, defaults: seq<(string, Json)>)
    ensures Merged(Merged(state, defaults), defaults) == Merged(state, defaults)
  {
    forall i | 0 <= i < |defaults|
      ensures defaults[i].0 in Merged(state, defaults)
    {
      MergedKeys(state, defaults, defaults[i].0);
    }
    MergedNoop(Merged(state, defaults), defaults);
  }

  /** The default keys differ pairwise: by their first letter, except the two
      `schedule_` keys, which differ at their tenth. */
  lemma DefaultsDistinct()
    ensures DistinctKeys(Defaults)
  {
    forall i, j | 0 <= i < j < |Defaults|
      ensures Defaults[i].0 != Defaults[j].0
    {
      if Defaults[i].0[0] == Defaults[j].0[0] {
        assert i == 1 && j == 4;
        assert Defaults[i].0[9] != Defaults[j].0[9];
      }
    }
  }

  /** A session holding none of the default keys receives every default value. */
  lemma DefaultsFillAbsent(state: map<string, Json>)
    requires forall i :: 0 <= i < |Defaults| ==> Defaults[i].0 !in state
    ensures forall i :: 0 <= i < |Defaults| ==> (Defaults[i].0 in Merged(state, Defaults)
      && Merged(state, Defaults)[Defaults[i].0] == Defaults[i].1)
  {
    DefaultsDistinct();
    forall i | 0 <= i < |Defaults|
      ensures Defaults[i].0 in Merged(state, Defaults) && Merged(state, Defaults)[Defaults[i].0] == Defaults[i].1
    {
      assert HasKey(Defaults, Defaults[i].0);
      MergedFillsDefault(state, Defaults, Defaults[i].0);
      GetDistinct(Defaults, i);
    }
  }

  /** A fresh session holds exactly the defaults: `current_schedule` is None and
      `multi_input` has no document and empty text and voice. */
  lemma FreshSession(key: string)
    ensures key in Merged(map[], Defaults) <==> HasKey(Defaults, key)
    ensures forall i :: 0 <= i < |Defaults| ==> (Defaults[i].0 in Merged(map[], Defaults)
      && Merged(map[], Defaults)[Defaults[i].0] == Defaults[i].1)
    ensures "current_schedule" in Merged(map[], Defaults) && Merged(map[], Defaults)["current_schedule"] == JNull
    ensures "multi_input" in Merged(map[], Defaults)
      && Merged(map[], Defaults)["multi_input"] == JObject([("document", JNull), ("text", JString("")), ("voice", JString(""))])
  {
    MergedKeys(map[], Defaults, key);
    DefaultsFillAbsent(map[]);
    assert Defaults[0].0 == "current_schedule" && Defaults[2].0 == "multi_input";
  }

  class SessionState {
    var state: map<string, Json>

    constructor (initial: map<string, Json>)
      ensures state == initial
    {
      state := initial;
    }

    /** `init_session_state`: write each default whose key is missing. */
    method InitSessionState()
      modifies this
      ensures state == Merged(old(state), Defaults)
    {
      var i := 0;
      while i < |Defaults|
        invariant 0 <= i <= |Defaults|
        invariant Merged(state, Defaults[i..]) == Merged(old(state), Defaults)
      {
        var (key, value) := Defaults[i];
        assert Defaults[i..][1..] == Defaults[i + 1..];
        if key !in state {
          state := state[key := value];
        }
        i := i + 1;
      }
    }

    /** `safe_get`: initialise, then the stored value of the key, or the caller's
        default when the key is absent. */
    method SafeGet(key: string, default: Json) returns (v: Json)
      modifies this
      ensures state == Merged(old(state), Defaults)
      ensures key in state ==> v == state[key]
      ensures key !in state ==> v == default
    {
      InitSessionState();
      v := if key in state then state[key] else default;
    }
  }

  /** `safe_get` of a default key always gives the stored value, which is the one the
      session already had or else the default's, never the caller's default; a key that
      is neither stored nor a default gives the caller's default. */
  method SafeGetCases(initial: map<string, Json>, key: string, default: Json) returns (v: Json)
    ensures HasKey(Defaults, key) && key in initial ==> v == initial[key]
    ensures HasKey(Defaults, key) && key !in initial ==> v == Get(Defaults, key)
    ensures !HasKey(Defaults, key) && key !in initial ==> v == default
    ensures !HasKey(Defaults, key) && key in initial ==> v == initial[key]
  {
    var session := new SessionState(initial);
    v := session.SafeGet(key, default);
    MergedKeys(initial, Defaults, key);
    if key in initial {
      MergedKeepsExisting(initial, Defaults, key);
    } else if HasKey(Defaults, key) {
      MergedFillsDefault(initial, Defaults, key);
    }
  }
}
