/** utilits.py: the catalog helpers over data/songs.json (random pick, substring search,
    metadata append with a fresh id, the `file_id:` codec) and the users.json / stats.json
    bookkeeping. The genre list and the genre filter are Catalog.Genres and
    Catalog.ByGenre. */
module Utilits {
  import opened Wrappers
  import opened Text
  import opened Catalog
  import opened Storage

  // ---------------------------------------------------------------------------
  // search_songs
  // ---------------------------------------------------------------------------

  /** `q = query.lower().strip()` */
  function SearchQuery(query: string): string
  {
    Strip(Lower(query))
  }

  /** A song matches when the query occurs in its lowered name, artist, genre or language;
      an absent field reads as "". */
  predicate SongMatches(s: Song, q: string)
  {
    || Contains(Lower(s.name.GetOr("")), q)
    || Contains(Lower(s.artist.GetOr("")), q)
    || Contains(Lower(s.genre.GetOr("")), q)
    || Contains(Lower(s.lang.GetOr("")), q)
  }

  /** The matching songs in catalog order. */
  function Search(songs: seq<Song>, q: string): (r: seq<Song>)
    ensures |r| <= |songs|
    ensures forall s :: s in r <==> s in songs && SongMatches(s, q)
    decreases |songs|
  {
    if songs == [] then []
    else
      var init := songs[..|songs| - 1];
      var last := songs[|songs| - 1];
      assert songs == init + [last];
      Search(init, q) + (if SongMatches(last, q) then [last] else [])
  }

  /** The search distributes over concatenation, so the results keep catalog order and
      multiplicity. */
  lemma {:induction false} SearchAppend(a: seq<Song>, b: seq<Song>, q: string)
    ensures Search(a + b, q) == Search(a, q) + Search(b, q)
    decreases |b|
  {
    if b == [] {
      assert a + b == a;
    } else {
      var init := b[..|b| - 1];
      var last := b[|b| - 1];
      assert b == init + [last];
      assert (a + b)[..|a + b| - 1] == a + init;
      assert (a + b)[|a + b| - 1] == last;
      SearchAppend(a, init, q);
    }
  }

  /** An empty query (or one of blanks only) matches every song. */
  lemma {:induction false} SearchEmptyQuery(songs: seq<Song>)
    ensures Search(songs, "") == songs
    decreases |songs|
  {
    if songs != [] {
      var init := songs[..|songs| - 1];
      ContainsEmpty(Lower(songs[|songs| - 1].name.GetOr("")));
      SearchEmptyQuery(init);
      assert songs == init + [songs[|songs| - 1]];
    }
  }

  // ---------------------------------------------------------------------------
  // add_song_metadata: the next id
  // ---------------------------------------------------------------------------

  /** `max(s.get("id", 0) for s in songs)` */
  function MaxStoredId(songs: seq<Song>): (m: int)
    requires songs != []
    ensures forall s :: s in songs ==> s.id.GetOr(0) <= m
    ensures exists s :: s in songs && s.id.GetOr(0) == m
    decreases |songs|
  {
    if |songs| == 1 then songs[0].id.GetOr(0)
    else
      var rest := MaxStoredId(songs[1..]);
      if songs[0].id.GetOr(0) >= rest then songs[0].id.GetOr(0) else rest
  }

  /** The id add_song_metadata gives the new song: 1 for an empty catalog, else one more
      than the largest stored id (an absent id counting as 0). */
  function NextSongId(songs: seq<Song>): int
  {
    if songs == [] then 1 else MaxStoredId(songs) + 1
  }

  /** The new id exceeds every stored id, and is the least number that does. */
  lemma NextSongIdFresh(songs: seq<Song>)
    ensures songs == [] ==> NextSongId(songs) == 1
    ensures forall s :: s in songs ==> s.id.GetOr(0) < NextSongId(songs)
    ensures songs != [] ==> exists s :: s in songs && s.id.GetOr(0) == NextSongId(songs) - 1
  {
    if songs != [] {
      var m := MaxStoredId(songs);
      assert exists s :: s in songs && s.id.GetOr(0) == m;
      var s :| s in songs && s.id.GetOr(0) == m;
      assert s.id.GetOr(0) == NextSongId(songs) - 1;
    }
  }

  // ---------------------------------------------------------------------------
  // extract_file_id_from_url
  // ---------------------------------------------------------------------------

  const FileIdPrefix: string := "file_id:"

  /** None for an absent or empty url; the text after a leading "file_id:"; otherwise the
      url itself, taken to be a bare file id. */
  function ExtractFileId(url: Option<string>): (r: Option<string>)
    ensures r.None? <==> url.None? || url.value == ""
    ensures r.Some? && FileIdPrefix <= url.value ==> r.value == url.value[|FileIdPrefix|..]
    ensures r.Some? && !(FileIdPrefix <= url.value) ==> r == url
  {
    if url.None? || url.value == "" then None
    else if FileIdPrefix <= url.value then AfterFirst(url.value, FileIdPrefix)
    else url
  }

  /** The stored form "file_id:" + x decodes back to x. */
  lemma ExtractRoundTrip(x: string)
    ensures ExtractFileId(Some(FileIdPrefix + x)) == Some(x)
  {
    assert FileIdPrefix <= FileIdPrefix + x;
    assert (FileIdPrefix + x)[|FileIdPrefix|..] == x;
  }

  // ---------------------------------------------------------------------------
  // record_user
  // ---------------------------------------------------------------------------

  /** The dict handlers.py passes: the Telegram user's id, username and first name, and
      the message date. */
  datatype UserObject = UserObject(id: Option<int>, username: Option<string>, firstName: Option<string>, time: Option<int>)

  /** `{u.get("id") for u in users}` */
  function UserIds(users: seq<UserObject>): set<Option<int>>
  {
    set u | u in users :: u.id
  }

  /** The user list after record_user: `u` appended unless a stored user has its id. */
  function Recorded(users: seq<UserObject>, u: UserObject): (r: seq<UserObject>)
    ensures u.id in UserIds(r)
    ensures users <= r && |r| <= |users| + 1
    ensures forall v :: v in r ==> v in users || v == u
  {
    if u.id in UserIds(users) then users
    else
      assert u in users + [u];
      users + [u]
  }

  /** Recording a user twice is recording them once. */
  lemma RecordedIdempotent(users: seq<UserObject>, u: UserObject)
    ensures Recorded(Recorded(users, u), u) == Recorded(users, u)
  {
  }

  /** A user whose id is new is appended; a known id leaves the list as it was. */
  lemma RecordedIff(users: seq<UserObject>, u: UserObject)
    ensures Recorded(users, u) == users <==> u.id in UserIds(users)
  {
    if u.id !in UserIds(users) {
      assert |Recorded(users, u)| == |users| + 1;
    }
  }

  // ---------------------------------------------------------------------------
  // update_stats
  // ---------------------------------------------------------------------------

  /** A value of stats.json: a number or a text. */
  datatype StatValue = Count(n: int) | Label(s: string)

  /** update_stats(action): count one more action, remember it, stamp the first update
      time. `None` where `stats["total_actions"] += 1` raises because the stored value is
      no number. */
  function ActionStats(stats: map<string, StatValue>, action: string, now: int): (r: Option<map<string, StatValue>>)
    ensures r.None? <==> "total_actions" in stats && !stats["total_actions"].Count?
    ensures r.Some? ==> r.value.Keys == stats.Keys + {"total_actions", "last_action", "last_updated"}
    ensures r.Some? ==> r.value["total_actions"] == Count((if "total_actions" in stats then stats["total_actions"].n else 0) + 1)
    ensures r.Some? ==> r.value["last_action"] == Label(action)
    ensures r.Some? ==> r.value["last_updated"] == (if "last_updated" in stats then stats["last_updated"] else Count(now))
    ensures r.Some? ==> forall k :: k in stats && k !in {"total_actions", "last_action", "last_updated"} ==> r.value[k] == stats[k]
  {
    if "total_actions" in stats && !stats["total_actions"].Count? then None
    else
      var total := if "total_actions" in stats then stats["total_actions"].n else 0;
      var counted := stats["total_actions" := Count(total + 1)]["last_action" := Label(action)];
      Some(if "last_updated" in stats then counted else counted["last_updated" := Count(now)])
  }

  /** Two updates count two actions, keep the second action's name and the first
      timestamp. */
  lemma ActionStatsTwice(stats: map<string, StatValue>, a: string, b: string, t1: int, t2: int)
    requires ActionStats(stats, a, t1).Some?
    ensures var once := ActionStats(stats, a, t1).value;
      && ActionStats(once, b, t2).Some?
      && ActionStats(once, b, t2).value["total_actions"].n == once["total_actions"].n + 1
      && ActionStats(once, b, t2).value["last_action"] == Label(b)
      && ActionStats(once, b, t2).value["last_updated"] == once["last_updated"]
  {
  }

  // ---------------------------------------------------------------------------
  // The data files
  // ---------------------------------------------------------------------------

  /** songs.json, users.json and stats.json; every helper loads the file it needs afresh
      and saves it back whole. */
  class Library {
    var songsFile: Stored<seq<Song>>
    var usersFile: Stored<seq<UserObject>>
    var statsFile: Stored<map<string, StatValue>>

    constructor(songs: Stored<seq<Song>>, users: Stored<seq<UserObject>>, stats: Stored<map<string, StatValue>>)
      ensures songsFile == songs && usersFile == users && statsFile == stats
    {
      songsFile := songs;
      usersFile := users;
      statsFile := stats;
    }

    /** get_all_songs(): `load_json` gives [] for a missing or unreadable file. */
    function AllSongs(): seq<Song>
      reads this
    {
      LoadOr(songsFile, [])
    }

    function AllUsers(): seq<UserObject>
      reads this
    {
      LoadOr(usersFile, [])
    }

    /** `load_json(STATS_FILE) or {}` */
    function AllStats(): map<string, StatValue>
      reads this
    {
      LoadOr(statsFile, map[])
    }

    /** get_random_song(): None for an empty catalog, else some stored song. */
    method GetRandomSong() returns (r: Option<Song>)
      ensures r.None? <==> AllSongs() == []
      ensures r.Some? ==> r.value in AllSongs()
    {
      var songs := AllSongs();
      if songs == [] {
        return None;
      }
      assert songs[0] in songs;
      var s :| s in songs;
      return Some(s);
    }

    /** search_songs(query) */
    method SearchSongs(query: string) returns (results: seq<Song>)
      ensures results == Search(AllSongs(), SearchQuery(query))
    {
      var q := SearchQuery(query);
      var songs := AllSongs();
      results := [];
      var i := 0;
      while i < |songs|
        invariant 0 <= i <= |songs|
        invariant results == Search(songs[..i], q)
      {
        assert songs[..i + 1][..i] == songs[..i];
        if SongMatches(songs[i], q) {
          results := results + [songs[i]];
        }
        i := i + 1;
      }
      assert songs[..|songs|] == songs;
    }

    /** add_song_metadata(meta): a copy of `meta` with the next id is appended and
        returned; the caller's value is not touched. */
    method AddSongMetadata(meta: Song) returns (stored: Song)
      modifies this
      ensures stored == meta.(id := Some(NextSongId(old(AllSongs()))))
      ensures songsFile == Present(old(AllSongs()) + [stored])
      ensures usersFile == old(usersFile) && statsFile == old(statsFile)
    {
      var songs := AllSongs();
      stored := meta.(id := Some(NextSongId(songs)));
      songsFile := Present(songs + [stored]);
    }

    /** record_user(u): append `u` unless its id is stored; the file is written only when
        it grows. */
    method RecordUser(u: UserObject)
      modifies this
      ensures usersFile == if u.id in UserIds(old(AllUsers())) then old(usersFile) else Present(Recorded(old(AllUsers()), u))
      ensures songsFile == old(songsFile) && statsFile == old(statsFile)
    {
      var users := AllUsers();
      if u.id !in UserIds(users) {
        usersFile := Present(users + [u]);
      }
    }

    /** update_stats(action); `now` stands for `int(time.time())`. Returns false where the
        update raises, leaving the file as it was. */
    method UpdateStats(action: string, now: int) returns (ok: bool)
      modifies this
      ensures ok <==> ActionStats(old(AllStats()), action, now).Some?
      ensures statsFile == if ok then Present(ActionStats(old(AllStats()), action, now).value) else old(statsFile)
      ensures songsFile == old(songsFile) && usersFile == old(usersFile)
    {
      var updated := ActionStats(AllStats(), action, now);
      if updated.None? {
        return false;
      }
      statsFile := Present(updated.value);
      return true;
    }
  }
}
