/** user_state.py: per-user listening state in data/user_state.json, an object keyed by
    `str(user_id)` whose entries carry `genre`, `played` and `last_song_id`. */
module UserState {
  import opened Wrappers
  import opened Text
  import opened Storage

  /** A user id as callers pass it: a number or a text. */
  datatype UserId = IntId(n: int) | TextId(t: string)

  /** `str(user_id)` */
  function Key(u: UserId): string
  {
    match u
    case IntId(n) => IntToString(n)
    case TextId(t) => t
  }

  /** `_load_all()`: the stored object, or {} when the file is missing, unreadable or
      holds something else. */
  function AllStates(f: Stored<Json>): map<string, Json>
  {
    if f.Present? && f.value.JObject? then f.value.fields else map[]
  }

  /** `{"genre": None, "played": [], "last_song_id": None}` */
  const DefaultState: map<string, Json> := map["genre" := JNull, "played" := JList([]), "last_song_id" := JNull]

  /** The shape get_user_state promises: genre and last_song_id present, played a list. */
  predicate Normal(st: map<string, Json>)
  {
    "genre" in st && "played" in st && st["played"].JList? && "last_song_id" in st
  }

  /** The normalisation step: each missing field gets its default, and a `played` that is
      no list becomes []; every other field is kept. */
  function Normalise(st: map<string, Json>): (r: map<string, Json>)
    ensures Normal(r)
    ensures r.Keys == st.Keys + {"genre", "played", "last_song_id"}
    ensures forall k :: k in st && k != "played" ==> r[k] == st[k]
    ensures r["played"] == if "played" in st && st["played"].JList? then st["played"] else JList([])
    ensures "genre" !in st ==> r["genre"] == JNull
    ensures "last_song_id" !in st ==> r["last_song_id"] == JNull
  {
    var g := if "genre" in st then st else st["genre" := JNull];
    var p := if "played" in g && g["played"].JList? then g else g["played" := JList([])];
    if "last_song_id" in p then p else p["last_song_id" := JNull]
  }

  /** Normalising a normal state changes nothing, so normalising twice is normalising
      once; the default state is normal. */
  lemma NormaliseIdempotent(st: map<string, Json>)
    ensures Normal(st) ==> Normalise(st) == st
    ensures Normalise(Normalise(st)) == Normalise(st)
    ensures Normalise(DefaultState) == DefaultState
  {
    assert Normal(DefaultState);
  }

  /** The state get_user_state starts from: the stored object, or the default where the
      entry is missing or no object. */
  function Entry(f: Stored<Json>, key: string): map<string, Json>
  {
    var data := AllStates(f);
    if key in data && data[key].JObject? then data[key].fields else DefaultState
  }

  /** get_user_state(u)'s result. */
  function StateOf(f: Stored<Json>, u: UserId): map<string, Json>
  {
    Normalise(Entry(f, Key(u)))
  }

  /** The file after get_user_state(u): written only where the entry was missing or no
      object, and then as the loaded object (or {}) with the default under the key. */
  function AfterGet(f: Stored<Json>, u: UserId): Stored<Json>
  {
    var data := AllStates(f);
    var key := Key(u);
    if key in data && data[key].JObject? then f else Present(JObject(data[key := JObject(DefaultState)]))
  }

  /** The file after save_user_state(u, state) for an object `state`. */
  function Saved(f: Stored<Json>, u: UserId, state: map<string, Json>): Stored<Json>
  {
    Present(JObject(AllStates(f)[Key(u) := JObject(state)]))
  }

  /** get_user_state always returns the normal shape; what it returns for a stored entry
      is not written back, so a stored entry that is not normal stays as it is. */
  lemma GetUserStateSpec(f: Stored<Json>, u: UserId)
    ensures Normal(StateOf(f, u))
    ensures Key(u) in AllStates(f) && AllStates(f)[Key(u)].JObject? ==>
      AfterGet(f, u) == f && StateOf(f, u) == Normalise(AllStates(f)[Key(u)].fields)
    ensures !(Key(u) in AllStates(f) && AllStates(f)[Key(u)].JObject?) ==>
      StateOf(f, u) == DefaultState && AllStates(AfterGet(f, u))[Key(u)] == JObject(DefaultState)
  {
    NormaliseIdempotent(DefaultState);
  }

  /** A file that holds no object loses every entry once a user's state is written. */
  lemma UnreadableFileReplaced(f: Stored<Json>, u: UserId, state: map<string, Json>)
    requires !(f.Present? && f.value.JObject?)
    ensures AfterGet(f, u) == Present(JObject(map[Key(u) := JObject(DefaultState)]))
    ensures Saved(f, u, state) == Present(JObject(map[Key(u) := JObject(state)]))
  {
    assert AllStates(f) == map[];
  }

  /** Saving under one key leaves every other stored entry as it was, and reading that
      user's state back gives the saved state normalised. */
  lemma SaveScope(f: Stored<Json>, u: UserId, v: UserId, state: map<string, Json>)
    requires Key(v) != Key(u)
    ensures Key(v) in AllStates(f) ==> AllStates(Saved(f, u, state))[Key(v)] == AllStates(f)[Key(v)]
    ensures Key(v) !in AllStates(f) ==> Key(v) !in AllStates(Saved(f, u, state))
    ensures StateOf(Saved(f, u, state), u) == Normalise(state)
    ensures StateOf(Saved(f, u, state), v) == StateOf(f, v)
  {
  }

  /** Different numeric ids address different entries (the proof: `str` is injective on
      ints). The second clause, a number and its decimal text addressing the same entry,
      is `Key`'s definition, stated here for callers. */
  lemma KeysOfIds(a: int, b: int)
    ensures a != b ==> Key(IntId(a)) != Key(IntId(b))
    ensures Key(IntId(a)) == Key(TextId(IntToString(a)))
  {
    if Key(IntId(a)) == Key(IntId(b)) {
      IntToStringInjective(a, b);
    }
  }

  /** user_state.json */
  class UserStates {
    var file: Stored<Json>

    constructor(f: Stored<Json>)
      ensures file == f
    {
      file := f;
    }

    /** get_user_state(user_id) */
    method GetUserState(u: UserId) returns (st: map<string, Json>)
      modifies this
      ensures st == StateOf(old(file), u)
      ensures file == AfterGet(old(file), u)
    {
      var data := AllStates(file);
      var key := Key(u);
      var state: map<string, Json>;
      if key in data && data[key].JObject? {
        state := data[key].fields;
      } else {
        state := DefaultState;
        data := data[key := JObject(state)];
        file := Present(JObject(data));
      }
      if "genre" !in state {
        state := state["genre" := JNull];
      }
      if !("played" in state && state["played"].JList?) {
        state := state["played" := JList([])];
      }
      if "last_song_id" !in state {
        state := state["last_song_id" := JNull];
      }
      return state;
    }

    /** save_user_state(user_id, state): false where it raises ValueError because the
        state is no object, leaving the file alone. */
    method SaveUserState(u: UserId, state: Json) returns (ok: bool)
      modifies this
      ensures ok <==> state.JObject?
      ensures ok ==> file == Saved(old(file), u, state.fields)
      ensures !ok ==> file == old(file)
    {
      if !state.JObject? {
        return false;
      }
      var data := AllStates(file);
      file := Present(JObject(data[Key(u) := state]));
      return true;
    }

    /** reset_played(user_id): the user's state as get_user_state returns it, with an
        empty `played`, saved back. */
    method ResetPlayed(u: UserId)
      modifies this
      ensures file == Saved(AfterGet(old(file), u), u, StateOf(old(file), u)["played" := JList([])])
    {
      var s := GetUserState(u);
      s := s["played" := JList([])];
      var ok := SaveUserState(u, JObject(s));
    }
  }

  /** After reset_played the user's `played` is empty, their genre and last song are
      what get_user_state reported, and nobody else's entry changed. */
  lemma ResetPlayedSpec(f: Stored<Json>, u: UserId, v: UserId)
    requires Key(v) != Key(u)
    ensures var after := Saved(AfterGet(f, u), u, StateOf(f, u)["played" := JList([])]);
      && StateOf(after, u)["played"] == JList([])
      && StateOf(after, u)["genre"] == StateOf(f, u)["genre"]
      && StateOf(after, u)["last_song_id"] == StateOf(f, u)["last_song_id"]
      && StateOf(after, v) == StateOf(f, v)
  {
    var reset := StateOf(f, u)["played" := JList([])];
    assert Normal(reset);
    NormaliseIdempotent(reset);
    SaveScope(AfterGet(f, u), u, v, reset);
    assert Entry(AfterGet(f, u), Key(v)) == Entry(f, Key(v));
  }
}
