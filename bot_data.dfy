/** The stored data of bot.py (bot.py:154-212, 319-327, 542-549, 763-824): songs.json as
    load_songs reads it, song lookup by id, and the playlists of playlists.json with the
    id allocation and the add-a-song update. */
module BotData {
  import opened Wrappers
  import opened Text
  import opened Catalog

  // ---------------------------------------------------------------------------
  // songs.json
  // ---------------------------------------------------------------------------

  /** One element of the stored song list: an object, or any other JSON value. */
  datatype Entry = Record(song: Song) | NotARecord

  /** What songs.json holds: a list, an object whose "songs" key is a list, or anything
      else (a missing or unreadable file, an object without "songs", a scalar). */
  datatype SongsFile = SongList(entries: seq<Entry>) | SongDict(songs: seq<Entry>) | OtherValue

  function Entries(f: SongsFile): seq<Entry>
  {
    match f
    case SongList(es) => es
    case SongDict(es) => es
    case OtherValue => []
  }

  /** `s.get("id") is not None and s.get("url")`: the entries load_songs keeps. */
  predicate Playable(s: Song)
  {
    s.id.Some? && s.url.Some? && s.url.value != ""
  }

  /** The objects of `es` that are playable, in stored order. */
  function KeepPlayable(es: seq<Entry>): (r: seq<Song>)
    ensures |r| <= |es|
    ensures forall s :: s in r <==> Record(s) in es && Playable(s)
  {
    if es == [] then []
    else
      (if es[0].Record? && Playable(es[0].song) then [es[0].song] else []) + KeepPlayable(es[1..])
  }

  /** load_songs() */
  function LoadSongs(f: SongsFile): (r: seq<Song>)
    ensures forall s :: s in r ==> Playable(s)
    ensures forall s :: s in r <==> Record(s) in Entries(f) && Playable(s)
    ensures f.OtherValue? ==> r == []
  {
    KeepPlayable(Entries(f))
  }

  /** The list save_songs writes: each song as an object. */
  function AsRecords(songs: seq<Song>): (r: seq<Entry>)
    ensures |r| == |songs|
    ensures forall i :: 0 <= i < |songs| ==> r[i] == Record(songs[i])
  {
    if songs == [] then [] else [Record(songs[0])] + AsRecords(songs[1..])
  }

  /** The filter looks at the head and then at the rest. */
  lemma KeepPlayableCons(e: Entry, es: seq<Entry>)
    ensures KeepPlayable([e] + es) == (if e.Record? && Playable(e.song) then [e.song] else []) + KeepPlayable(es)
  {
    assert ([e] + es)[0] == e && ([e] + es)[1..] == es;
  }

  /** Saving a list of playable songs and loading it again gives the same list back. */
  lemma {:induction false} SaveLoad(songs: seq<Song>)
    requires forall s :: s in songs ==> Playable(s)
    ensures LoadSongs(SongList(AsRecords(songs))) == songs
    decreases |songs|
  {
    if songs != [] {
      var rest := AsRecords(songs[1..]);
      assert Playable(songs[0]) by { assert songs[0] in songs; }
      assert forall s :: s in songs[1..] ==> Playable(s) by {
        forall s | s in songs[1..] ensures Playable(s) { assert s in songs; }
      }
      calc {
        LoadSongs(SongList(AsRecords(songs)));
        KeepPlayable([Record(songs[0])] + rest);
        { KeepPlayableCons(Record(songs[0]), rest); }
        [songs[0]] + KeepPlayable(rest);
        { SaveLoad(songs[1..]); }
        [songs[0]] + songs[1..];
        songs;
      }
    }
  }

  // ---------------------------------------------------------------------------
  // find_song
  // ---------------------------------------------------------------------------

  /** `find_song(song_id)`: the first loaded song whose id equals `id`; `int(None)` fails
      and is skipped, so an absent id finds nothing. */
  function FindSong(songs: seq<Song>, id: Option<int>): (r: Option<Song>)
    ensures r.Some? ==> r.value in songs && r.value.id == id && id.Some?
    ensures r.None? <==> id.None? || forall s :: s in songs ==> s.id != id
  {
    if songs == [] then None
    else if id.Some? && songs[0].id == id then Some(songs[0])
    else FindSong(songs[1..], id)
  }

  /** find_song returns the FIRST song with that id. */
  lemma {:induction false} FindSongFirst(songs: seq<Song>, id: int, i: nat)
    requires i < |songs| && songs[i].id == Some(id)
    requires forall j :: 0 <= j < i ==> songs[j].id != Some(id)
    ensures FindSong(songs, Some(id)) == Some(songs[i])
    decreases i
  {
    if i > 0 {
      FindSongFirst(songs[1..], id, i - 1);
    }
  }

  // ---------------------------------------------------------------------------
  // playlists.json
  // ---------------------------------------------------------------------------

  /** `{"id", "owner_id", "name", "public", "songs", "created_at"}` */
  datatype Playlist = Playlist(id: int, ownerId: int, name: string, isPublic: bool, songs: seq<int>, createdAt: string)

  /** The playlist `i` matches id `pid` and, when `owner` is given, that owner. */
  predicate Matches(p: Playlist, pid: int, owner: Option<int>)
  {
    p.id == pid && (owner.None? || p.ownerId == owner.value)
  }

  /** The index `next(...)` stops at: the first playlist with that id (and owner). */
  function FirstIndex(pls: seq<Playlist>, pid: int, owner: Option<int>): (r: Option<nat>)
    ensures r.Some? ==> r.value < |pls| && Matches(pls[r.value], pid, owner)
    ensures r.Some? ==> forall j :: 0 <= j < r.value ==> !Matches(pls[j], pid, owner)
    ensures r.None? ==> forall j :: 0 <= j < |pls| ==> !Matches(pls[j], pid, owner)
  {
    if pls == [] then None
    else if Matches(pls[0], pid, owner) then Some(0)
    else match FirstIndex(pls[1..], pid, owner)
         case None => None
         case Some(k) => Some(k + 1)
  }

  /** `max(int(p.get("id", 0)) for p in pls)` */
  function MaxId(pls: seq<Playlist>): (m: int)
    requires pls != []
    ensures forall p :: p in pls ==> p.id <= m
    ensures exists p :: p in pls && p.id == m
  {
    if |pls| == 1 then pls[0].id
    else
      var rest := MaxId(pls[1..]);
      assert forall p :: p in pls ==> p == pls[0] || p in pls[1..];
      if pls[0].id >= rest then pls[0].id else rest
  }

  /** `next_playlist_id()`: 1 for no playlists, else one more than the largest id. */
  function NextPlaylistId(pls: seq<Playlist>): (r: int)
    ensures forall p :: p in pls ==> p.id < r
    ensures pls == [] ==> r == 1
    ensures pls != [] ==> exists p :: p in pls && p.id == r - 1
  {
    if pls == [] then 1 else MaxId(pls) + 1
  }

  /** The playlist `handle_create_playlist_public` appends (with no songs) and its
      `from_add` variant (seeded with the song being added). */
  function NewPlaylist(pls: seq<Playlist>, owner: int, name: string, isPublic: bool, seed: seq<int>, now: string): (r: seq<Playlist>)
    ensures |r| == |pls| + 1 && r[..|pls|] == pls
    ensures r[|pls|] == Playlist(NextPlaylistId(pls), owner, name, isPublic, seed, now)
  {
    pls + [Playlist(NextPlaylistId(pls), owner, name, isPublic, seed, now)]
  }

  /** The new playlist's id is fresh: looking it up finds exactly the new playlist. */
  lemma NewPlaylistFound(pls: seq<Playlist>, owner: int, name: string, isPublic: bool, seed: seq<int>, now: string)
    ensures FirstIndex(NewPlaylist(pls, owner, name, isPublic, seed, now), NextPlaylistId(pls), None) == Some(|pls|)
    ensures FirstIndex(NewPlaylist(pls, owner, name, isPublic, seed, now), NextPlaylistId(pls), Some(owner)) == Some(|pls|)
  {
    var r := NewPlaylist(pls, owner, name, isPublic, seed, now);
    var pid := NextPlaylistId(pls);
    assert forall j :: 0 <= j < |pls| ==> r[j] in pls && r[j].id < pid;
    FirstIndexAt(r, pid, None, |pls|);
    FirstIndexAt(r, pid, Some(owner), |pls|);
  }

  /** The first match is the one FirstIndex reports. */
  lemma {:induction false} FirstIndexAt(pls: seq<Playlist>, pid: int, owner: Option<int>, i: nat)
    requires i < |pls| && Matches(pls[i], pid, owner)
    requires forall j :: 0 <= j < i ==> !Matches(pls[j], pid, owner)
    ensures FirstIndex(pls, pid, owner) == Some(i)
    decreases i
  {
    if i > 0 {
      FirstIndexAt(pls[1..], pid, owner, i - 1);
    }
  }

  /** `[p for p in pls if p.get("owner_id") == owner]` */
  function OwnedBy(pls: seq<Playlist>, owner: int): (r: seq<Playlist>)
    ensures forall p :: p in r <==> p in pls && p.ownerId == owner
  {
    if pls == [] then [] else (if pls[0].ownerId == owner then [pls[0]] else []) + OwnedBy(pls[1..], owner)
  }

  /** `[p for p in pls if p.get("public")]` */
  function PublicOnes(pls: seq<Playlist>): (r: seq<Playlist>)
    ensures forall p :: p in r <==> p in pls && p.isPublic
  {
    if pls == [] then [] else (if pls[0].isPublic then [pls[0]] else []) + PublicOnes(pls[1..])
  }

  /** `{str(p.get("id")): p.get("id") for p in pls}` */
  function Choices(pls: seq<Playlist>): (r: map<string, int>)
    ensures forall k :: k in r <==> exists p :: p in pls && IntToString(p.id) == k
    ensures forall k :: k in r ==> IntToString(r[k]) == k
  {
    if pls == [] then map[]
    else
      var last := pls[|pls| - 1];
      var rest := Choices(pls[..|pls| - 1]);
      assert forall p :: p in pls <==> p == last || p in pls[..|pls| - 1];
      rest[IntToString(last.id) := last.id]
  }

  /** A listed key stands for a listed playlist's id and is that id written out, so the
      lookup returns the id of a playlist that was on screen. */
  lemma ChoicesLookup(pls: seq<Playlist>, key: string)
    requires key in Choices(pls)
    ensures exists p :: p in pls && p.id == Choices(pls)[key]
    ensures ParseInt(key) == Some(Choices(pls)[key])
  {
    var p :| p in pls && IntToString(p.id) == key;
    IntToStringInjective(p.id, Choices(pls)[key]);
    IntRoundTrip(p.id);
  }

  // ---------------------------------------------------------------------------
  // adding a song to a playlist (bot.py:763-784)
  // ---------------------------------------------------------------------------

  datatype AddOutcome =
    | Crashed                      // int(pid) raised ValueError
    | NotFound                     // no playlist of this user has that id
    | NoSong                       // no song id remembered
    | AlreadyThere                 // the song is in the playlist already
    | Added(pls: seq<Playlist>)    // the updated playlists, to be saved

  /** The "ID:<id> <name>" branch of handle_add_to_playlist_choose. `pidText` is the text
      after removing "ID:"; `int(pidText)` is only evaluated once a playlist is compared,
      so with no playlists at all a malformed id is "not found" rather than an error. */
  function AddToPlaylist(pls: seq<Playlist>, pidText: string, owner: int, sid: Option<int>): (r: AddOutcome)
    ensures r.Crashed? <==> pls != [] && ParseInt(pidText).None?
    ensures r.Added? ==> exists i :: (0 <= i < |pls| && pls[i].ownerId == owner && Some(pls[i].id) == ParseInt(pidText)
                                      && sid.Some? && sid.value !in pls[i].songs
                                      && r.pls == pls[i := pls[i].(songs := pls[i].songs + [sid.value])])
    ensures r.AlreadyThere? ==> exists i :: (0 <= i < |pls| && pls[i].ownerId == owner && Some(pls[i].id) == ParseInt(pidText)
                                             && sid.Some? && sid.value in pls[i].songs)
  {
    if pls == [] then NotFound
    else match ParseInt(pidText)
      case None => Crashed
      case Some(pid) =>
        match FirstIndex(pls, pid, Some(owner))
        case None => NotFound
        case Some(i) =>
          match sid
          case None => NoSong
          case Some(s) =>
            if s in pls[i].songs then AlreadyThere
            else Added(pls[i := pls[i].(songs := pls[i].songs + [s])])
  }

  /** Once `int(pid)` parses, the first own playlist with that id is the one updated, as
      `next(...)` picks it: no remembered song, the song already there, or the song appended
      to that playlist alone. */
  lemma AddToPlaylistFirstMatch(pls: seq<Playlist>, pidText: string, owner: int, sid: Option<int>, pid: int, i: nat)
    requires ParseInt(pidText) == Some(pid)
    requires i < |pls| && Matches(pls[i], pid, Some(owner))
    requires forall j :: 0 <= j < i ==> !Matches(pls[j], pid, Some(owner))
    ensures sid.None? ==> AddToPlaylist(pls, pidText, owner, sid) == NoSong
    ensures sid.Some? && sid.value in pls[i].songs ==> AddToPlaylist(pls, pidText, owner, sid) == AlreadyThere
    ensures sid.Some? && sid.value !in pls[i].songs ==>
      AddToPlaylist(pls, pidText, owner, sid) == Added(pls[i := pls[i].(songs := pls[i].songs + [sid.value])])
  {
    FirstIndexAt(pls, pid, Some(owner), i);
  }

  /** Without playlists, or when no playlist of the user has the parsed id, the answer is
      "not found" and nothing is saved. */
  lemma AddToPlaylistNotFound(pls: seq<Playlist>, pidText: string, owner: int, sid: Option<int>)
    requires pls == [] || (ParseInt(pidText).Some? &&
                           forall j :: 0 <= j < |pls| ==> !Matches(pls[j], ParseInt(pidText).value, Some(owner)))
    ensures AddToPlaylist(pls, pidText, owner, sid) == NotFound
  {
  }

  /** Adding the same song to the same playlist a second time changes nothing: it is
      reported as already there. */
  lemma AddToPlaylistIdempotent(pls: seq<Playlist>, pidText: string, owner: int, sid: Option<int>)
    requires AddToPlaylist(pls, pidText, owner, sid).Added?
    ensures AddToPlaylist(AddToPlaylist(pls, pidText, owner, sid).pls, pidText, owner, sid) == AlreadyThere
  {
    var pid := ParseInt(pidText).value;
    var i := FirstIndex(pls, pid, Some(owner)).value;
    var r := AddToPlaylist(pls, pidText, owner, sid).pls;
    assert forall j :: 0 <= j < |r| ==> (Matches(r[j], pid, Some(owner)) <==> Matches(pls[j], pid, Some(owner)));
    FirstIndexAt(r, pid, Some(owner), i);
    assert sid.value in r[i].songs;
  }
}
