/** bot.py's message handlers over its mutable state: the in-memory `user_state` and
    `last_bot_messages` dictionaries, the three JSON files the handlers read and rewrite,
    the stats counters, and the messages sent, in order. */
module Bot {
  import opened Wrappers
  import opened Text
  import opened Counters
  import opened Users
  import opened Catalog
  import opened BotData
  import opened BotLogic

  /** ADMIN_ID, the only user allowed /tell and /stats. */
  const AdminId := 7898886950

  /** stats.json as ensure_file creates it. */
  const InitialStats: map<string, int> := map["registered_users" := 0, "songs_played" := 0,
    "messages_handled" := 0, "playlists_created" := 0, "playlists_played" := 0, "songs_added" := 0]

  /** One Telegram call, in the order the bot makes them. `Say` carries the LOCALES key of
      the text, or a short name for a fixed text. */
  datatype Event =
    | Say(chat: int, key: string)
    | ShowGenres(chat: int, genres: seq<string>)
    | ShowResults(chat: int, hits: seq<Hit>)
    | ShowPlaylists(chat: int, pls: seq<Playlist>)
    | SendAudio(chat: int, ref: string)
    | Delete(chat: int, messageId: int)
    | Announce(chat: int, text: string)
    | Delivered(chat: int, count: nat)
    | ArchiveAudio(fileId: string)
    | Report(chat: int, users: nat, songs: nat, playlists: nat, stats: map<string, int>)

  /** Whether the handler returned, or an exception (KeyError, ValueError) ended it;
      telebot logs the exception and whatever was changed before it stays changed. */
  datatype Outcome = Handled | Raised

  /** A text message: chat, sender id, sender username, text. */
  datatype Message = Message(chat: int, userId: int, username: Option<string>, text: string)

  /** What Telegram and the clock answer while one update is handled: whether an audio
      reference is accepted, the ids of the audio and controls messages sent, whether a
      broadcast reaches a chat, the archive post (channel id, message id) or its failure,
      and the current time. */
  datatype World = World(
    accepts: string -> bool,
    audioMessageId: int,
    controlsMessageId: int,
    reachable: int -> bool,
    archived: Option<(int, int)>,
    now: string)

  // ---------------------------------------------------------------------------
  // Specification functions of the helpers
  // ---------------------------------------------------------------------------

  function Get(sessions: map<int, Session>, chat: int): Option<Session>
  {
    if chat in sessions then Some(sessions[chat]) else None
  }

  /** `user_state[chat]["lang"]`, or None where that raises KeyError. */
  function LangOf(sessions: map<int, Session>, chat: int): Option<string>
  {
    if chat in sessions then sessions[chat].lang else None
  }

  /** Every session has the keys its step's handler reads. */
  predicate AllOk(sessions: map<int, Session>)
  {
    forall c :: c in sessions ==> SessionOk(sessions[c])
  }

  /** Storing a well-formed session keeps them all well-formed; so does dropping one. */
  lemma AllOkStore(sessions: map<int, Session>, chat: int, st: Session)
    requires AllOk(sessions) && SessionOk(st)
    ensures AllOk(sessions[chat := st]) && AllOk(sessions - {chat})
  {
  }

  function LastIds(last: map<int, seq<int>>, chat: int): seq<int>
  {
    if chat in last then last[chat] else []
  }

  /** The deletions clear_last_bot_messages makes. */
  function Deletes(chat: int, ids: seq<int>): (r: seq<Event>)
    ensures |r| == |ids|
    ensures forall i :: 0 <= i < |ids| ==> r[i] == Delete(chat, ids[i])
  {
    seq(|ids|, i requires 0 <= i < |ids| => Delete(chat, ids[i]))
  }

  /** The reference send_song_with_controls gets an audio out with: the url without
      "file_id:", or else what follows the first "file_id:"; None when both fail. */
  function AudioRef(url: string, accepts: string -> bool): (r: Option<string>)
    ensures r.Some? ==> accepts(r.value)
    ensures r.None? ==> !accepts(RemoveAll(url, "file_id:"))
    ensures r.Some? && !accepts(RemoveAll(url, "file_id:")) ==> AfterFirst(url, "file_id:") == r
  {
    var first := RemoveAll(url, "file_id:");
    if accepts(first) then Some(first)
    else match AfterFirst(url, "file_id:")
         case None => None
         case Some(fid) => if accepts(fid) then Some(fid) else None
  }

  /** A stored "file_id:<id>" url is sent as the bare id. */
  lemma AudioRefOfFileId(fid: string, accepts: string -> bool)
    requires !Contains(fid, "file_id:")
    requires accepts(fid)
    ensures AudioRef("file_id:" + fid, accepts) == Some(fid)
  {
    assert "file_id:" <= "file_id:" + fid;
    assert ("file_id:" + fid)[8..] == fid;
    RemoveAllAbsent(fid, "file_id:");
  }

  /** The messages sent after the deletions: the audio and the controls, or the failure
      notice. The controls text needs LOCALES[lang]. */
  function PlayEvents(chat: int, ref: Option<string>, lang: string): seq<Event>
  {
    match ref
    case None => [Say(chat, "audio_failed")]
    case Some(r) => [SendAudio(chat, r)] + (if HasLocale(lang) then [Say(chat, "player_controls_info")] else [])
  }

  /** The session remembers the song once its audio went out; a chat without a session
      gets one holding only the song. */
  function PlayRemember(sessions: map<int, Session>, chat: int, song: Song, ref: Option<string>): map<int, Session>
  {
    if ref.Some? then sessions[chat := (if chat in sessions then sessions[chat] else Empty).(lastSong := Some(song))]
    else sessions
  }

  /** Remembering the song a session already holds changes nothing, so a handler that
      stores the song before sending it keeps exactly what it stored. */
  lemma RememberKnown(sessions: map<int, Session>, chat: int, song: Song, ref: Option<string>)
    requires chat in sessions && sessions[chat].lastSong == Some(song)
    ensures PlayRemember(sessions, chat, song, ref) == sessions
  {
    if ref.Some? {
      assert sessions[chat].(lastSong := Some(song)) == sessions[chat];
    }
  }

  /** The second of two stores under one key is the one that stays. */
  lemma StoreTwice<K, V>(m: map<K, V>, k: K, a: V, b: V)
    ensures m[k := a][k := b] == m[k := b]
  {
  }

  /** Dropping a key forgets what was stored under it. */
  lemma StoreThenDrop<K, V>(m: map<K, V>, k: K, a: V)
    ensures m[k := a] - {k} == m - {k}
  {
  }

  /** The audio went out, then LOCALES[lang] raised. */
  predicate PlayRaised(ref: Option<string>, lang: string)
  {
    ref.Some? && !HasLocale(lang)
  }

  function PlayStats(stats: map<string, int>, ref: Option<string>): map<string, int>
  {
    if ref.Some? then Increment(stats, "songs_played", 1) else stats
  }

  /** last_bot_messages afterwards: the two new message ids, or nothing. */
  function PlayLast(last: map<int, seq<int>>, chat: int, ref: Option<string>, lang: string, w: World): map<int, seq<int>>
  {
    last[chat := if ref.Some? && HasLocale(lang) then [w.audioMessageId, w.controlsMessageId] else []]
  }

  /** The audio play_playlist sends for the playlist's song ids: each id found in the
      catalog whose url, without "file_id:", is accepted. */
  function PlaylistAudio(chat: int, ids: seq<int>, songs: seq<Song>, accepts: string -> bool): (r: seq<Event>)
    ensures |r| <= |ids|
    ensures forall e :: e in r ==> e.SendAudio? && e.chat == chat && accepts(e.ref)
  {
    if ids == [] then []
    else
      PlaylistAudio(chat, ids[..|ids| - 1], songs, accepts)
      + match FindSong(songs, Some(ids[|ids| - 1]))
        case None => []
        case Some(s) =>
          var ref := RemoveAll(s.url.GetOr(""), "file_id:");
          if accepts(ref) then [SendAudio(chat, ref)] else []
  }

  /** Ids not in the catalog send nothing: a playlist of unknown songs plays nothing. */
  lemma {:induction false} PlaylistAudioUnknown(chat: int, ids: seq<int>, songs: seq<Song>, accepts: string -> bool)
    requires forall i :: 0 <= i < |ids| ==> FindSong(songs, Some(ids[i])).None?
    ensures PlaylistAudio(chat, ids, songs, accepts) == []
    decreases |ids|
  {
    if ids != [] {
      PlaylistAudioUnknown(chat, ids[..|ids| - 1], songs, accepts);
    }
  }

  /** The /tell messages: one per registered user that can be reached. */
  function Announcements(users: seq<UserRecord>, msg: string, reachable: int -> bool): (r: seq<Event>)
    ensures |r| <= |users|
    ensures forall e :: e in r ==> e.Announce? && e.text == msg && reachable(e.chat)
    ensures forall u :: u in users && reachable(u.id) ==> Announce(u.id, msg) in r
  {
    if users == [] then []
    else
      var rest := Announcements(users[1..], msg, reachable);
      assert forall u :: u in users ==> u == users[0] || u in users[1..];
      (if reachable(users[0].id) then [Announce(users[0].id, msg)] else []) + rest
  }

  // ---------------------------------------------------------------------------
  // Loops that only compute
  // ---------------------------------------------------------------------------

  /** The loop of clear_last_bot_messages: delete every remembered message. */
  method DeleteAll(chat: int, ids: seq<int>) returns (events: seq<Event>)
    ensures events == Deletes(chat, ids)
  {
    events := [];
    for i := 0 to |ids|
      invariant events == Deletes(chat, ids[..i])
    {
      events := events + [Delete(chat, ids[i])];
    }
    assert ids[..|ids|] == ids;
  }

  /** The loop of play_playlist: look up each id and send the audio, counting what went
      out. */
  method SendPlaylistSongs(chat: int, ids: seq<int>, songs: seq<Song>, accepts: string -> bool)
    returns (events: seq<Event>, sent: nat)
    ensures events == PlaylistAudio(chat, ids, songs, accepts)
    ensures sent == |events| && sent <= |ids|
  {
    events := [];
    sent := 0;
    for i := 0 to |ids|
      invariant events == PlaylistAudio(chat, ids[..i], songs, accepts)
      invariant sent == |events|
    {
      assert ids[..i + 1][..i] == ids[..i];
      var s := FindSong(songs, Some(ids[i]));
      if s.Some? {
        var ref := RemoveAll(s.value.url.GetOr(""), "file_id:");
        if accepts(ref) {
          events := events + [SendAudio(chat, ref)];
          sent := sent + 1;
        }
      }
    }
    assert ids[..|ids|] == ids;
  }

  /** The broadcast loop of /tell: one message per reachable user, counting deliveries. */
  method Broadcast(users: seq<UserRecord>, msg: string, reachable: int -> bool)
    returns (events: seq<Event>, sent: nat)
    ensures events == Announcements(users, msg, reachable)
    ensures sent == |events| && sent <= |users|
  {
    events := [];
    sent := 0;
    var i := |users|;
    while i > 0
      invariant 0 <= i <= |users|
      invariant events == Announcements(users[i..], msg, reachable)
      invariant sent == |events|
      decreases i
    {
      i := i - 1;
      assert users[i..][1..] == users[i + 1..];
      if reachable(users[i].id) {
        events := [Announce(users[i].id, msg)] + events;
        sent := sent + 1;
      }
    }
  }

  // ---------------------------------------------------------------------------
  // The bot
  // ---------------------------------------------------------------------------

  /** The bot's state at one moment: what a handler's effect is stated against. */
  datatype State = State(
    sessions: map<int, Session>,
    lastBotMessages: map<int, seq<int>>,
    songsFile: SongsFile,
    playlists: seq<Playlist>,
    users: seq<UserRecord>,
    stats: map<string, int>,
    outbox: seq<Event>)
  {
    function Files(): (SongsFile, seq<Playlist>, seq<UserRecord>)
    {
      (songsFile, playlists, users)
    }
  }

  class MusicBot {
    var sessions: map<int, Session>
    var lastBotMessages: map<int, seq<int>>
    var songsFile: SongsFile
    var playlists: seq<Playlist>
    var users: seq<UserRecord>
    var stats: map<string, int>
    var outbox: seq<Event>

    /** Every session has the keys its step's handler reads. */
    predicate Valid()
      reads this
    {
      AllOk(sessions)
    }

    /** The stored files. */
    function Files(): (SongsFile, seq<Playlist>, seq<UserRecord>)
      reads this
    {
      (songsFile, playlists, users)
    }

    function Snapshot(): State
      reads this
    {
      State(sessions, lastBotMessages, songsFile, playlists, users, stats, outbox)
    }

    /** Start-up: no sessions, the files ensure_file creates. */
    constructor ()
      ensures Valid()
      ensures sessions == map[] && lastBotMessages == map[]
      ensures songsFile == SongList([]) && playlists == [] && users == []
      ensures stats == InitialStats && outbox == []
    {
      sessions := map[];
      lastBotMessages := map[];
      songsFile := SongList([]);
      playlists := [];
      users := [];
      stats := InitialStats;
      outbox := [];
    }

    /** add_user_record: append the sender unless known; count the registration. */
    method AddUserRecord(id: int, username: Option<string>, now: string)
      modifies this
      ensures users == AddUser(old(users), id, username, "аноним", now).0
      ensures stats == if AddUser(old(users), id, username, "аноним", now).1
                       then Increment(old(stats), "registered_users", 1) else old(stats)
      ensures sessions == old(sessions) && lastBotMessages == old(lastBotMessages) && outbox == old(outbox)
      ensures songsFile == old(songsFile) && playlists == old(playlists)
    {
      var (us, added) := AddUser(users, id, username, "аноним", now);
      if added {
        users := us;
        stats := Increment(stats, "registered_users", 1);
      }
    }

    /** clear_last_bot_messages */
    method ClearLastMessages(chat: int)
      modifies this
      ensures outbox == old(outbox) + Deletes(chat, LastIds(old(lastBotMessages), chat))
      ensures lastBotMessages == old(lastBotMessages)[chat := []]
      ensures sessions == old(sessions) && stats == old(stats) && Files() == old(Files())
    {
      var events := DeleteAll(chat, LastIds(lastBotMessages, chat));
      outbox := outbox + events;
      lastBotMessages := lastBotMessages[chat := []];
    }

    /** send_song_with_controls: replace the previous audio and controls by the new pair,
        remember the song, count the play. */
    method SendSongWithControls(chat: int, song: Song, lang: string, w: World) returns (o: Outcome)
      requires Valid() && song.url.Some?
      modifies this
      ensures Valid() && Files() == old(Files())
      ensures var ref := AudioRef(song.url.value, w.accepts);
        && outbox == old(outbox) + Deletes(chat, LastIds(old(lastBotMessages), chat)) + PlayEvents(chat, ref, lang)
        && lastBotMessages == PlayLast(old(lastBotMessages), chat, ref, lang, w)
        && stats == PlayStats(old(stats), ref)
        && sessions == PlayRemember(old(sessions), chat, song, ref)
        && (o == Raised <==> PlayRaised(ref, lang))
    {
      var ref := AudioRef(song.url.value, w.accepts);
      var deletions := DeleteAll(chat, LastIds(lastBotMessages, chat));
      outbox := outbox + deletions + PlayEvents(chat, ref, lang);
      lastBotMessages := PlayLast(lastBotMessages, chat, ref, lang, w);
      stats := PlayStats(stats, ref);
      sessions := PlayRemember(sessions, chat, song, ref);
      o := if PlayRaised(ref, lang) then Raised else Handled;
      if ref.Some? {
        AllOkStore(old(sessions), chat, (if chat in old(sessions) then old(sessions)[chat] else Empty).(lastSong := Some(song)));
      }
    }

    /** What HandleStart leaves behind, given the state before it. */
    ghost predicate AfterStart(s0: State, m: Message, w: World, o: Outcome)
      requires AllOk(s0.sessions)
      reads this
    {
      (o == Handled)
      && (sessions == s0.sessions[m.chat := Fresh(ChooseLang, "ru")])
      && (users == AddUser(s0.users, m.userId, m.username, "аноним", w.now).0)
      && (var s := if AddUser(s0.users, m.userId, m.username, "аноним", w.now).1
                       then Increment(s0.stats, "registered_users", 1) else s0.stats;
              stats == Increment(s, "messages_handled", 1))
      && (outbox == s0.outbox + [Say(m.chat, "choose_lang")])
      && (lastBotMessages == s0.lastBotMessages && songsFile == s0.songsFile && playlists == s0.playlists)
    }

    /** /start: register the sender, ask for the language afresh. */
    method HandleStart(m: Message, w: World) returns (o: Outcome)
      requires Valid()
      modifies this
      ensures Valid() && AfterStart(old(Snapshot()), m, w, o)
    {
      AddUserRecord(m.userId, m.username, w.now);
      AllOkStore(sessions, m.chat, Fresh(ChooseLang, "ru"));
      sessions := sessions[m.chat := Fresh(ChooseLang, "ru")];
      outbox := outbox + [Say(m.chat, "choose_lang")];
      stats := Increment(stats, "messages_handled", 1);
      return Handled;
    }

    /** What HandleChooseLang leaves behind, given the state before it. */
    ghost predicate AfterChooseLang(s0: State, m: Message, o: Outcome)
      requires AllOk(s0.sessions)
      reads this
    {
      (o == Handled && Files() == s0.Files())
      && (sessions == s0.sessions[m.chat := Fresh(Menu, ChooseLanguage(m.text))])
      && (outbox == s0.outbox + [Say(m.chat, "welcome")])
      && (stats == Increment(s0.stats, "messages_handled", 1))
      && (lastBotMessages == s0.lastBotMessages)
    }

    /** The language step: set the language, go to the main menu. */
    method HandleChooseLang(m: Message) returns (o: Outcome)
      requires Valid()
      modifies this
      ensures Valid() && AfterChooseLang(old(Snapshot()), m, o)
    {
      AllOkStore(sessions, m.chat, Fresh(Menu, ChooseLanguage(m.text)));
      sessions := sessions[m.chat := Fresh(Menu, ChooseLanguage(m.text))];
      outbox := outbox + [Say(m.chat, "welcome")];
      stats := Increment(stats, "messages_handled", 1);
      return Handled;
    }

    /** What HandleRandom leaves behind, given the state before it. */
    ghost predicate AfterRandom(s0: State, m: Message, w: World, o: Outcome, pick: Option<Song>)
      requires AllOk(s0.sessions)
      reads this
    {
      (Files() == s0.Files())
      && (LangOf(s0.sessions, m.chat).None? ==>
        o == Raised && pick.None? && sessions == s0.sessions && outbox == s0.outbox
        && stats == s0.stats && lastBotMessages == s0.lastBotMessages)
      && (LangOf(s0.sessions, m.chat).Some? && LoadSongs(songsFile) == [] ==>
        var lang := LangOf(s0.sessions, m.chat).value;
        && pick.None? && sessions == s0.sessions && stats == s0.stats && lastBotMessages == s0.lastBotMessages
        && (o == Raised <==> !HasLocale(lang))
        && outbox == (if HasLocale(lang) then s0.outbox + [Say(m.chat, "no_songs")] else s0.outbox))
      && (LangOf(s0.sessions, m.chat).Some? && LoadSongs(songsFile) != [] ==>
        var lang := LangOf(s0.sessions, m.chat).value;
        && pick.Some? && pick.value in LoadSongs(songsFile)
        && sessions == s0.sessions[m.chat := s0.sessions[m.chat].(mode := Some(RandomMode), lastSong := pick)]
        && var ref := AudioRef(pick.value.url.value, w.accepts);
        && outbox == s0.outbox + Deletes(m.chat, LastIds(s0.lastBotMessages, m.chat)) + PlayEvents(m.chat, ref, lang)
        && lastBotMessages == PlayLast(s0.lastBotMessages, m.chat, ref, lang, w)
        && (o == Raised <==> PlayRaised(ref, lang))
        && stats == if o == Raised then PlayStats(s0.stats, ref) else Increment(PlayStats(s0.stats, ref), "messages_handled", 1))
    }

    /** The random button: play a random song of the whole catalog. */
    method HandleRandom(m: Message, w: World) returns (o: Outcome, pick: Option<Song>)
      requires Valid()
      modifies this
      ensures Valid() && AfterRandom(old(Snapshot()), m, w, o, pick)
    {
      pick := None;
      var chat := m.chat;
      if LangOf(sessions, chat).None? {
        return Raised, None;
      }
      var lang := LangOf(sessions, chat).value;
      var songs := LoadSongs(songsFile);
      if songs == [] {
        if !HasLocale(lang) {
          return Raised, None;
        }
        outbox := outbox + [Say(chat, "no_songs")];
        return Handled, None;
      }
      assert songs[0] in songs;
      var song :| song in songs;
      AllOkStore(sessions, chat, sessions[chat].(mode := Some(RandomMode), lastSong := Some(song)));
      sessions := sessions[chat := sessions[chat].(mode := Some(RandomMode), lastSong := Some(song))];
      RememberKnown(sessions, chat, song, AudioRef(song.url.value, w.accepts));
      pick := Some(song);
      o := SendSongWithControls(chat, song, lang, w);
      if o == Raised {
        return;
      }
      stats := Increment(stats, "messages_handled", 1);
    }

    /** What HandleGenres leaves behind, given the state before it. */
    ghost predicate AfterGenres(s0: State, m: Message, o: Outcome)
      requires AllOk(s0.sessions)
      reads this
    {
      (Files() == s0.Files() && lastBotMessages == s0.lastBotMessages)
      && (var lang := LangOf(s0.sessions, m.chat);
              var genres := Genres(LoadSongs(songsFile));
        && (o == Raised <==> lang.None? || !HasLocale(lang.value))
        && (o == Raised ==> sessions == s0.sessions && outbox == s0.outbox && stats == s0.stats)
        && (o == Handled && genres == [] ==>
              sessions == s0.sessions && outbox == s0.outbox + [Say(m.chat, "no_songs")] && stats == s0.stats)
        && (o == Handled && genres != [] ==>
              sessions == s0.sessions[m.chat := s0.sessions[m.chat].(step := Some(ChooseGenre))]
              && outbox == s0.outbox + [ShowGenres(m.chat, genres)]
              && stats == Increment(s0.stats, "messages_handled", 1)))
    }

    /** The genres button: offer the sorted genres. */
    method HandleGenres(m: Message) returns (o: Outcome)
      requires Valid()
      modifies this
      ensures Valid() && AfterGenres(old(Snapshot()), m, o)
    {
      var chat := m.chat;
      if LangOf(sessions, chat).None? || !HasLocale(LangOf(sessions, chat).value) {
        return Raised;
      }
      var genres := Genres(LoadSongs(songsFile));
      if genres == [] {
        outbox := outbox + [Say(chat, "no_songs")];
        return Handled;
      }
      AllOkStore(sessions, chat, sessions[chat].(step := Some(ChooseGenre)));
      sessions := sessions[chat := sessions[chat].(step := Some(ChooseGenre))];
      outbox := outbox + [ShowGenres(chat, genres)];
      stats := Increment(stats, "messages_handled", 1);
      return Handled;
    }

    /** What HandleChooseGenre leaves behind, given the state before it. */
    ghost predicate AfterChooseGenre(s0: State, m: Message, w: World, o: Outcome, pick: Option<Song>)
      requires AllOk(s0.sessions)
      reads this
    {
      (Files() == s0.Files())
      && (var lang := LangOf(s0.sessions, m.chat);
        && (o == Raised <==> lang.None? || !HasLocale(lang.value))
        && (o == Raised ==> pick.None? && sessions == s0.sessions && outbox == s0.outbox
                            && stats == s0.stats && lastBotMessages == s0.lastBotMessages))
      && (o == Handled && m.text == BackToMenu(LangOf(s0.sessions, m.chat).value) ==>
        pick.None? && sessions == s0.sessions[m.chat := s0.sessions[m.chat].(step := Some(Menu))]
        && outbox == s0.outbox + [Say(m.chat, "main_menu")] && stats == s0.stats && lastBotMessages == s0.lastBotMessages)
      && (o == Handled && m.text != BackToMenu(LangOf(s0.sessions, m.chat).value) && ByGenre(LoadSongs(songsFile), m.text) == [] ==>
        pick.None? && sessions == s0.sessions && outbox == s0.outbox + [Say(m.chat, "no_songs")]
        && stats == s0.stats && lastBotMessages == s0.lastBotMessages)
      && (o == Handled && m.text != BackToMenu(LangOf(s0.sessions, m.chat).value) && ByGenre(LoadSongs(songsFile), m.text) != [] ==>
        && pick.Some? && pick.value in LoadSongs(songsFile) && InGenre(pick.value, m.text)
        && sessions == s0.sessions[m.chat := s0.sessions[m.chat].(mode := Some(GenreMode), genre := Some(m.text),
                                                                      lastSong := pick, step := Some(GenreLoop))]
        && var ref := AudioRef(pick.value.url.value, w.accepts);
        && outbox == s0.outbox + Deletes(m.chat, LastIds(s0.lastBotMessages, m.chat))
                     + PlayEvents(m.chat, ref, LangOf(s0.sessions, m.chat).value) + [Say(m.chat, "more_or_menu")]
        && lastBotMessages == PlayLast(s0.lastBotMessages, m.chat, ref, LangOf(s0.sessions, m.chat).value, w)
        && stats == Increment(PlayStats(s0.stats, ref), "messages_handled", 1))
    }

    /** The genre step: back to the menu, or play a random song of the typed genre and
        enter the genre loop. */
    method HandleChooseGenre(m: Message, w: World) returns (o: Outcome, pick: Option<Song>)
      requires Valid()
      modifies this
      ensures Valid() && AfterChooseGenre(old(Snapshot()), m, w, o, pick)
    {
      pick := None;
      var chat := m.chat;
      if LangOf(sessions, chat).None? || !HasLocale(LangOf(sessions, chat).value) {
        return Raised, None;
      }
      var lang := LangOf(sessions, chat).value;
      if m.text == BackToMenu(lang) {
        AllOkStore(sessions, chat, sessions[chat].(step := Some(Menu)));
        sessions := sessions[chat := sessions[chat].(step := Some(Menu))];
        outbox := outbox + [Say(chat, "main_menu")];
        return Handled, None;
      }
      var songs := ByGenre(LoadSongs(songsFile), m.text);
      if songs == [] {
        outbox := outbox + [Say(chat, "no_songs")];
        return Handled, None;
      }
      assert songs[0] in songs;
      var song :| song in songs;
      var st := sessions[chat].(mode := Some(GenreMode), genre := Some(m.text), lastSong := Some(song));
      AllOkStore(sessions, chat, st);
      sessions := sessions[chat := st];
      RememberKnown(sessions, chat, song, AudioRef(song.url.value, w.accepts));
      pick := Some(song);
      o := SendSongWithControls(chat, song, lang, w);
      AllOkStore(sessions, chat, st.(step := Some(GenreLoop)));
      sessions := sessions[chat := st.(step := Some(GenreLoop))];
      StoreTwice(old(sessions), chat, st, st.(step := Some(GenreLoop)));
      outbox := outbox + [Say(chat, "more_or_menu")];
      stats := Increment(stats, "messages_handled", 1);
      return Handled, pick;
    }

    /** What HandleGenreLoop leaves behind, given the state before it. */
    ghost predicate AfterGenreLoop(s0: State, m: Message, w: World, o: Outcome, pick: Option<Song>)
      requires AllOk(s0.sessions) && StepOf(Get(s0.sessions, m.chat)) == Some(GenreLoop)
      reads this
    {
      (Files() == s0.Files())
      && (var lang := LangOf(s0.sessions, m.chat);
        && (o == Raised <==> lang.None? || !HasLocale(lang.value))
        && (o == Raised ==> pick.None? && sessions == s0.sessions && outbox == s0.outbox
                            && stats == s0.stats && lastBotMessages == s0.lastBotMessages))
      && (o == Handled && Lower(m.text) == MenuWord(LangOf(s0.sessions, m.chat).value) ==>
        pick.None? && sessions == s0.sessions[m.chat := s0.sessions[m.chat].(step := Some(Menu))]
        && outbox == s0.outbox + [Say(m.chat, "main_menu")]
        && stats == Increment(s0.stats, "messages_handled", 1) && lastBotMessages == s0.lastBotMessages)
      && (o == Handled && Lower(m.text) == MoreWord(LangOf(s0.sessions, m.chat).value) ==>
        var genre := s0.sessions[m.chat].genre.value;
        && (ByGenre(LoadSongs(songsFile), genre) == [] ==>
              pick.None? && sessions == s0.sessions && outbox == s0.outbox && stats == s0.stats
              && lastBotMessages == s0.lastBotMessages)
        && (ByGenre(LoadSongs(songsFile), genre) != [] ==>
              && pick.Some? && pick.value in LoadSongs(songsFile) && InGenre(pick.value, genre)
              && sessions == s0.sessions[m.chat := s0.sessions[m.chat].(lastSong := pick)]
              && var ref := AudioRef(pick.value.url.value, w.accepts);
              && outbox == s0.outbox + Deletes(m.chat, LastIds(s0.lastBotMessages, m.chat))
                           + PlayEvents(m.chat, ref, LangOf(s0.sessions, m.chat).value)
              && lastBotMessages == PlayLast(s0.lastBotMessages, m.chat, ref, LangOf(s0.sessions, m.chat).value, w)
              && stats == PlayStats(s0.stats, ref)))
      && (o == Handled && Lower(m.text) != MenuWord(LangOf(s0.sessions, m.chat).value)
                           && Lower(m.text) != MoreWord(LangOf(s0.sessions, m.chat).value) ==>
        pick.None? && sessions == s0.sessions && outbox == s0.outbox + [Say(m.chat, "more_or_menu")]
        && stats == s0.stats && lastBotMessages == s0.lastBotMessages)
    }

    /** The genre loop: "меню"/"menu" (any case) back to the menu, "ещё"/"more" another
        song of the remembered genre, anything else a reminder. */
    method HandleGenreLoop(m: Message, w: World) returns (o: Outcome, pick: Option<Song>)
      requires Valid() && StepOf(Get(sessions, m.chat)) == Some(GenreLoop)
      modifies this
      ensures Valid() && AfterGenreLoop(old(Snapshot()), m, w, o, pick)
    {
      pick := None;
      var chat := m.chat;
      if LangOf(sessions, chat).None? || !HasLocale(LangOf(sessions, chat).value) {
        return Raised, None;
      }
      var lang := LangOf(sessions, chat).value;
      var txt := Lower(m.text);
      if txt == MenuWord(lang) {
        AllOkStore(sessions, chat, sessions[chat].(step := Some(Menu)));
        sessions := sessions[chat := sessions[chat].(step := Some(Menu))];
        outbox := outbox + [Say(chat, "main_menu")];
        stats := Increment(stats, "messages_handled", 1);
        return Handled, None;
      }
      if txt == MoreWord(lang) {
        var genre := sessions[chat].genre.value;
        var songs := ByGenre(LoadSongs(songsFile), genre);
        if songs != [] {
          assert songs[0] in songs;
          var song :| song in songs;
          AllOkStore(sessions, chat, sessions[chat].(lastSong := Some(song)));
          sessions := sessions[chat := sessions[chat].(lastSong := Some(song))];
          RememberKnown(sessions, chat, song, AudioRef(song.url.value, w.accepts));
          pick := Some(song);
          o := SendSongWithControls(chat, song, lang, w);
        }
        return Handled, pick;
      }
      outbox := outbox + [Say(chat, "more_or_menu")];
      return Handled, None;
    }

    /** What HandleSearchStart leaves behind, given the state before it. */
    ghost predicate AfterSearchStart(s0: State, m: Message, o: Outcome)
      requires AllOk(s0.sessions)
      reads this
    {
      (Files() == s0.Files() && lastBotMessages == s0.lastBotMessages)
      && (var lang := LangOf(s0.sessions, m.chat);
        && (o == Raised <==> lang.None? || !HasLocale(lang.value))
        && (lang.None? ==> sessions == s0.sessions)
        && (lang.Some? ==> sessions == s0.sessions[m.chat := s0.sessions[m.chat].(step := Some(Search))])
        && (o == Raised ==> outbox == s0.outbox && stats == s0.stats)
        && (o == Handled ==> outbox == s0.outbox + [Say(m.chat, "ask_search")]
                             && stats == Increment(s0.stats, "messages_handled", 1)))
    }

    /** The search button: ask for a query. The step changes before LOCALES is read. */
    method HandleSearchStart(m: Message) returns (o: Outcome)
      requires Valid()
      modifies this
      ensures Valid() && AfterSearchStart(old(Snapshot()), m, o)
    {
      var chat := m.chat;
      if LangOf(sessions, chat).None? {
        return Raised;
      }
      var lang := LangOf(sessions, chat).value;
      AllOkStore(sessions, chat, sessions[chat].(step := Some(Search)));
      sessions := sessions[chat := sessions[chat].(step := Some(Search))];
      if !HasLocale(lang) {
        return Raised;
      }
      outbox := outbox + [Say(chat, "ask_search")];
      stats := Increment(stats, "messages_handled", 1);
      return Handled;
    }

    /** What HandleSearchQuery leaves behind, given the state before it. */
    ghost predicate AfterSearchQuery(s0: State, m: Message, o: Outcome)
      requires AllOk(s0.sessions)
      reads this
    {
      (Files() == s0.Files() && lastBotMessages == s0.lastBotMessages && stats == s0.stats)
      && (LangOf(s0.sessions, m.chat).None? ==> o == Raised && sessions == s0.sessions && outbox == s0.outbox)
      && (LangOf(s0.sessions, m.chat).Some? ==>
        var lang := LangOf(s0.sessions, m.chat).value;
        var q := Lower(Strip(m.text));
        var hits := SearchHits(FoundSongs(LoadSongs(songsFile), q), FoundPlaylists(playlists, q, m.userId));
        if q == [] then
          o == Handled && sessions == s0.sessions && outbox == s0.outbox + [Say(m.chat, "ask_query")]
        else if !HasLocale(lang) then
          o == Raised && sessions == s0.sessions && outbox == s0.outbox
        else if hits == [] then
          && o == Handled && sessions == s0.sessions[m.chat := s0.sessions[m.chat].(step := Some(Menu))]
          && outbox == s0.outbox + [Say(m.chat, "no_results")] + [Say(m.chat, "main_menu")]
        else
          && o == Handled
          && sessions == s0.sessions[m.chat := s0.sessions[m.chat].(step := Some(SearchChoose), searchMap := Some(Numbered(hits)))]
          && outbox == s0.outbox + [ShowResults(m.chat, hits)])
    }

    /** The search step: find songs by name or artist and visible playlists by name,
        number them, and wait for a number. */
    method HandleSearchQuery(m: Message) returns (o: Outcome)
      requires Valid()
      modifies this
      ensures Valid() && AfterSearchQuery(old(Snapshot()), m, o)
    {
      var chat := m.chat;
      if LangOf(sessions, chat).None? {
        return Raised;
      }
      var lang := LangOf(sessions, chat).value;
      var q := Lower(Strip(m.text));
      if q == [] {
        outbox := outbox + [Say(chat, "ask_query")];
        return Handled;
      }
      var fs := FoundSongs(LoadSongs(songsFile), q);
      var fp := FoundPlaylists(playlists, q, m.userId);
      var mapping, hits := NumberResults(fs, fp);
      if !HasLocale(lang) {
        return Raised;
      }
      ShowSearchHits(chat, hits, mapping);
      return Handled;
    }

    /** The end of handle_search_query: no hits go back to the menu, otherwise the
        numbered hits are shown and remembered for search_choose. */
    method ShowSearchHits(chat: int, hits: seq<Hit>, mapping: map<string, Hit>)
      requires Valid() && chat in sessions && mapping == Numbered(hits)
      modifies this
      ensures Valid() && Files() == old(Files()) && lastBotMessages == old(lastBotMessages) && stats == old(stats)
      ensures hits == [] ==>
        && sessions == old(sessions)[chat := old(sessions)[chat].(step := Some(Menu))]
        && outbox == old(outbox) + [Say(chat, "no_results")] + [Say(chat, "main_menu")]
      ensures hits != [] ==>
        && sessions == old(sessions)[chat := old(sessions)[chat].(step := Some(SearchChoose), searchMap := Some(Numbered(hits)))]
        && outbox == old(outbox) + [ShowResults(chat, hits)]
    {
      if hits == [] {
        outbox := outbox + [Say(chat, "no_results")];
        AllOkStore(sessions, chat, sessions[chat].(step := Some(Menu)));
        sessions := sessions[chat := sessions[chat].(step := Some(Menu))];
        outbox := outbox + [Say(chat, "main_menu")];
        return;
      }
      outbox := outbox + [ShowResults(chat, hits)];
      AllOkStore(sessions, chat, sessions[chat].(step := Some(SearchChoose), searchMap := Some(mapping)));
      sessions := sessions[chat := sessions[chat].(step := Some(SearchChoose), searchMap := Some(mapping))];
    }

    /** play_playlist: replace the previous messages by every playable song of the
        playlist, count the plays. */
    method PlayPlaylist(chat: int, pl: Playlist, lang: string, w: World) returns (o: Outcome, sent: nat)
      requires Valid()
      modifies this
      ensures Valid() && Files() == old(Files()) && sessions == old(sessions)
      ensures lastBotMessages == old(lastBotMessages)[chat := []]
      ensures var cleared := old(outbox) + Deletes(chat, LastIds(old(lastBotMessages), chat));
        && (o == Raised <==> !HasLocale(lang))
        && (o == Raised ==> sent == 0 && outbox == cleared && stats == old(stats))
        && (o == Handled && pl.songs == [] ==> sent == 0 && outbox == cleared + [Say(chat, "playlist_empty")] && stats == old(stats))
        && (o == Handled && pl.songs != [] ==>
              var audio := PlaylistAudio(chat, pl.songs, LoadSongs(songsFile), w.accepts);
              && sent == |audio|
              && outbox == cleared + [Say(chat, "playlist_playing")] + audio + [Say(chat, "main_menu")]
              && stats == Increment(Increment(old(stats), "songs_played", sent), "playlists_played", 1))
    {
      ClearLastMessages(chat);
      if !HasLocale(lang) {
        return Raised, 0;
      }
      if pl.songs == [] {
        outbox := outbox + [Say(chat, "playlist_empty")];
        return Handled, 0;
      }
      outbox := outbox + [Say(chat, "playlist_playing")];
      var audio;
      audio, sent := SendPlaylistSongs(chat, pl.songs, LoadSongs(songsFile), w.accepts);
      outbox := outbox + audio;
      stats := Increment(stats, "songs_played", sent);
      stats := Increment(stats, "playlists_played", 1);
      outbox := outbox + [Say(chat, "main_menu")];
      return Handled, sent;
    }

    /** What HandleSearchChoose leaves behind, given the state before it. */
    ghost predicate AfterSearchChoose(s0: State, m: Message, w: World, o: Outcome)
      requires AllOk(s0.sessions)
      reads this
    {
      (Files() == s0.Files())
      && (var lang := LangOf(s0.sessions, m.chat);
        && ((lang.None? || !HasLocale(lang.value)) ==>
              o == Raised && sessions == s0.sessions && outbox == s0.outbox
              && stats == s0.stats && lastBotMessages == s0.lastBotMessages))
      && (LangOf(s0.sessions, m.chat).Some? && HasLocale(LangOf(s0.sessions, m.chat).value) ==>
        var lang := LangOf(s0.sessions, m.chat).value;
        var st := s0.sessions[m.chat];
        var txt := Strip(m.text);
        var mapping := st.searchMap.GetOr(map[]);
        && o == Handled
        && (Lower(txt) == MenuWord(lang) ==>
              sessions == s0.sessions[m.chat := st.(step := Some(Menu))]
              && outbox == s0.outbox + [Say(m.chat, "main_menu")] && stats == s0.stats && lastBotMessages == s0.lastBotMessages)
        && (Lower(txt) != MenuWord(lang) && txt !in mapping ==>
              sessions == s0.sessions && outbox == s0.outbox + [Say(m.chat, "invalid_choice")]
              && stats == s0.stats && lastBotMessages == s0.lastBotMessages)
        && (Lower(txt) != MenuWord(lang) && txt in mapping && mapping[txt].SongHit? ==>
              match FindSong(LoadSongs(songsFile), mapping[txt].songId)
              case None =>
                sessions == s0.sessions && outbox == s0.outbox && stats == s0.stats && lastBotMessages == s0.lastBotMessages
              case Some(song) =>
                var ref := AudioRef(song.url.value, w.accepts);
                && sessions == s0.sessions[m.chat := st.(lastSong := Some(song), mode := Some(SearchMode), step := Some(Menu))]
                && outbox == s0.outbox + Deletes(m.chat, LastIds(s0.lastBotMessages, m.chat))
                             + PlayEvents(m.chat, ref, lang) + [Say(m.chat, "main_menu")]
                && lastBotMessages == PlayLast(s0.lastBotMessages, m.chat, ref, lang, w)
                && stats == PlayStats(s0.stats, ref))
        && (Lower(txt) != MenuWord(lang) && txt in mapping && mapping[txt].PlaylistHit? ==>
              match FirstIndex(playlists, mapping[txt].playlistId, None)
              case None =>
                sessions == s0.sessions && outbox == s0.outbox + [Say(m.chat, "invalid_choice")]
                && stats == s0.stats && lastBotMessages == s0.lastBotMessages
              case Some(i) =>
                sessions == s0.sessions[m.chat := st.(step := Some(Menu))]
                && lastBotMessages == s0.lastBotMessages[m.chat := []]
                && var audio := PlaylistAudio(m.chat, playlists[i].songs, LoadSongs(songsFile), w.accepts);
                && var cleared := s0.outbox + Deletes(m.chat, LastIds(s0.lastBotMessages, m.chat));
                && outbox == (if playlists[i].songs == [] then cleared + [Say(m.chat, "playlist_empty")]
                              else cleared + [Say(m.chat, "playlist_playing")] + audio + [Say(m.chat, "main_menu")])
                && stats == (if playlists[i].songs == [] then s0.stats
                             else Increment(Increment(s0.stats, "songs_played", |audio|), "playlists_played", 1))))
    }

    /** The search results step: "меню" back to the menu; a listed number plays that song
        or playlist and returns to the menu; anything else is an invalid choice. */
    method HandleSearchChoose(m: Message, w: World) returns (o: Outcome)
      requires Valid()
      modifies this
      ensures Valid() && AfterSearchChoose(old(Snapshot()), m, w, o)
    {
      var chat := m.chat;
      if LangOf(sessions, chat).None? || !HasLocale(LangOf(sessions, chat).value) {
        return Raised;
      }
      var lang := LangOf(sessions, chat).value;
      var txt := Strip(m.text);
      if Lower(txt) == MenuWord(lang) {
        AllOkStore(sessions, chat, sessions[chat].(step := Some(Menu)));
        sessions := sessions[chat := sessions[chat].(step := Some(Menu))];
        outbox := outbox + [Say(chat, "main_menu")];
        return Handled;
      }
      var mapping := sessions[chat].searchMap.GetOr(map[]);
      if txt !in mapping {
        outbox := outbox + [Say(chat, "invalid_choice")];
        return Handled;
      }
      match mapping[txt]
      case SongHit(id) =>
        var found := FindSong(LoadSongs(songsFile), id);
        if found.Some? {
          var song := found.value;
          var st := sessions[chat].(lastSong := Some(song), mode := Some(SearchMode));
          AllOkStore(sessions, chat, st);
          sessions := sessions[chat := st];
          RememberKnown(sessions, chat, song, AudioRef(song.url.value, w.accepts));
          var played := SendSongWithControls(chat, song, lang, w);
          AllOkStore(sessions, chat, st.(step := Some(Menu)));
          sessions := sessions[chat := st.(step := Some(Menu))];
          StoreTwice(old(sessions), chat, st, st.(step := Some(Menu)));
          outbox := outbox + [Say(chat, "main_menu")];
        }
        return Handled;
      case PlaylistHit(pid) =>
        var i := FirstIndex(playlists, pid, None);
        if i.None? {
          outbox := outbox + [Say(chat, "invalid_choice")];
          return Handled;
        }
        var played, sent := PlayPlaylist(chat, playlists[i.value], lang, w);
        AllOkStore(sessions, chat, sessions[chat].(step := Some(Menu)));
        sessions := sessions[chat := sessions[chat].(step := Some(Menu))];
        return Handled;
    }

    /** What HandlePlaylistsMenu leaves behind, given the state before it. */
    ghost predicate AfterPlaylistsMenu(s0: State, m: Message, o: Outcome)
      requires AllOk(s0.sessions)
      reads this
    {
      (Files() == s0.Files() && lastBotMessages == s0.lastBotMessages)
      && (var lang := LangOf(s0.sessions, m.chat);
        && (o == Raised <==> lang.None? || !HasLocale(lang.value))
        && (lang.None? ==> sessions == s0.sessions)
        && (lang.Some? ==> sessions == s0.sessions[m.chat := s0.sessions[m.chat].(step := Some(PlaylistsMenu))])
        && (o == Raised ==> outbox == s0.outbox && stats == s0.stats)
        && (o == Handled ==> outbox == s0.outbox + [Say(m.chat, "choose_playlist")]
                             && stats == Increment(s0.stats, "messages_handled", 1)))
    }

    /** The playlists button: show the playlists menu. The step changes before LOCALES is
        read. */
    method HandlePlaylistsMenu(m: Message) returns (o: Outcome)
      requires Valid()
      modifies this
      ensures Valid() && AfterPlaylistsMenu(old(Snapshot()), m, o)
    {
      var chat := m.chat;
      if LangOf(sessions, chat).None? {
        return Raised;
      }
      var lang := LangOf(sessions, chat).value;
      AllOkStore(sessions, chat, sessions[chat].(step := Some(PlaylistsMenu)));
      sessions := sessions[chat := sessions[chat].(step := Some(PlaylistsMenu))];
      if !HasLocale(lang) {
        return Raised;
      }
      outbox := outbox + [Say(chat, "choose_playlist")];
      stats := Increment(stats, "messages_handled", 1);
      return Handled;
    }

    /** What HandlePlaylistsAction leaves behind, given the state before it. */
    ghost predicate AfterPlaylistsAction(s0: State, m: Message, o: Outcome)
      requires AllOk(s0.sessions)
      reads this
    {
      (Files() == s0.Files() && lastBotMessages == s0.lastBotMessages && stats == s0.stats)
      && (var lang := LangOf(s0.sessions, m.chat);
        && ((lang.None? || !HasLocale(lang.value)) ==> o == Raised && sessions == s0.sessions && outbox == s0.outbox))
      && (LangOf(s0.sessions, m.chat).Some? && HasLocale(LangOf(s0.sessions, m.chat).value) ==>
        var lang := LangOf(s0.sessions, m.chat).value;
        var st := s0.sessions[m.chat];
        var own := OwnedBy(playlists, m.userId);
        var pub := PublicOnes(playlists);
        && o == Handled
        && (m.text == CreatePlaylistButton(lang) ==>
              sessions == s0.sessions[m.chat := st.(step := Some(CreatingPlaylistName))]
              && outbox == s0.outbox + [Say(m.chat, "prompt_playlist_name")])
        && (m.text == MyPlaylistsButton(lang) && own == [] ==>
              sessions == s0.sessions && outbox == s0.outbox + [Say(m.chat, "no_playlists")])
        && (m.text == MyPlaylistsButton(lang) && own != [] ==>
              sessions == s0.sessions[m.chat := st.(step := Some(ChoosePlaylistFromList), playlistList := Some(Choices(own)))]
              && outbox == s0.outbox + [ShowPlaylists(m.chat, own)])
        && (m.text == PublicPlaylistsButton(lang) && pub == [] ==>
              sessions == s0.sessions && outbox == s0.outbox + [Say(m.chat, "no_public_playlists")])
        && (m.text == PublicPlaylistsButton(lang) && pub != [] ==>
              sessions == s0.sessions[m.chat := st.(step := Some(ChoosePlaylistFromPublic), playlistList := Some(Choices(pub)))]
              && outbox == s0.outbox + [ShowPlaylists(m.chat, pub)])
        && (m.text == BackToMenu(lang) ==>
              sessions == s0.sessions[m.chat := st.(step := Some(Menu))]
              && outbox == s0.outbox + [Say(m.chat, "main_menu")])
        && (m.text !in {CreatePlaylistButton(lang), MyPlaylistsButton(lang), PublicPlaylistsButton(lang), BackToMenu(lang)} ==>
              sessions == s0.sessions && outbox == s0.outbox + [Say(m.chat, "unknown_command")]))
    }

    /** The playlists menu: create, list own, list public, or back. */
    method HandlePlaylistsAction(m: Message) returns (o: Outcome)
      requires Valid()
      modifies this
      ensures Valid() && AfterPlaylistsAction(old(Snapshot()), m, o)
    {
      var chat := m.chat;
      if LangOf(sessions, chat).None? || !HasLocale(LangOf(sessions, chat).value) {
        return Raised;
      }
      var lang := LangOf(sessions, chat).value;
      var st := sessions[chat];
      if m.text == CreatePlaylistButton(lang) {
        AllOkStore(sessions, chat, st.(step := Some(CreatingPlaylistName)));
        sessions := sessions[chat := st.(step := Some(CreatingPlaylistName))];
        outbox := outbox + [Say(chat, "prompt_playlist_name")];
        return Handled;
      }
      if m.text == MyPlaylistsButton(lang) {
        var own := OwnedBy(playlists, m.userId);
        if own == [] {
          outbox := outbox + [Say(chat, "no_playlists")];
          return Handled;
        }
        outbox := outbox + [ShowPlaylists(chat, own)];
        AllOkStore(sessions, chat, st.(step := Some(ChoosePlaylistFromList), playlistList := Some(Choices(own))));
        sessions := sessions[chat := st.(step := Some(ChoosePlaylistFromList), playlistList := Some(Choices(own)))];
        return Handled;
      }
      if m.text == PublicPlaylistsButton(lang) {
        var pub := PublicOnes(playlists);
        if pub == [] {
          outbox := outbox + [Say(chat, "no_public_playlists")];
          return Handled;
        }
        outbox := outbox + [ShowPlaylists(chat, pub)];
        AllOkStore(sessions, chat, st.(step := Some(ChoosePlaylistFromPublic), playlistList := Some(Choices(pub))));
        sessions := sessions[chat := st.(step := Some(ChoosePlaylistFromPublic), playlistList := Some(Choices(pub)))];
        return Handled;
      }
      if m.text == BackToMenu(lang) {
        AllOkStore(sessions, chat, st.(step := Some(Menu)));
        sessions := sessions[chat := st.(step := Some(Menu))];
        outbox := outbox + [Say(chat, "main_menu")];
        return Handled;
      }
      outbox := outbox + [Say(chat, "unknown_command")];
      return Handled;
    }

    /** What HandleChoosePlaylist leaves behind, given the state before it. */
    ghost predicate AfterChoosePlaylist(s0: State, m: Message, w: World, o: Outcome)
      requires AllOk(s0.sessions)
      reads this
    {
      (Files() == s0.Files())
      && (var lang := LangOf(s0.sessions, m.chat);
        && ((lang.None? || !HasLocale(lang.value)) ==>
              o == Raised && sessions == s0.sessions && outbox == s0.outbox
              && stats == s0.stats && lastBotMessages == s0.lastBotMessages))
      && (LangOf(s0.sessions, m.chat).Some? && HasLocale(LangOf(s0.sessions, m.chat).value) ==>
        var lang := LangOf(s0.sessions, m.chat).value;
        var st := s0.sessions[m.chat];
        var txt := Strip(m.text);
        var mapping := st.playlistList.GetOr(map[]);
        && o == Handled
        && (Lower(txt) == MenuWord(lang) ==>
              sessions == s0.sessions[m.chat := st.(step := Some(Menu))]
              && outbox == s0.outbox + [Say(m.chat, "main_menu")] && stats == s0.stats && lastBotMessages == s0.lastBotMessages)
        && (Lower(txt) != MenuWord(lang) && (txt !in mapping || mapping[txt] == 0) ==>
              sessions == s0.sessions && outbox == s0.outbox + [Say(m.chat, "invalid_id")]
              && stats == s0.stats && lastBotMessages == s0.lastBotMessages)
        && (Lower(txt) != MenuWord(lang) && txt in mapping && mapping[txt] != 0 ==>
              sessions == s0.sessions &&
              match FirstIndex(playlists, mapping[txt], None)
              case None =>
                outbox == s0.outbox + [Say(m.chat, "playlist_not_found")]
                && stats == s0.stats && lastBotMessages == s0.lastBotMessages
              case Some(i) =>
                && lastBotMessages == s0.lastBotMessages[m.chat := []]
                && var audio := PlaylistAudio(m.chat, playlists[i].songs, LoadSongs(songsFile), w.accepts);
                && var cleared := s0.outbox + Deletes(m.chat, LastIds(s0.lastBotMessages, m.chat));
                && outbox == (if playlists[i].songs == [] then cleared + [Say(m.chat, "playlist_empty")]
                              else cleared + [Say(m.chat, "playlist_playing")] + audio + [Say(m.chat, "main_menu")])
                && stats == (if playlists[i].songs == [] then Increment(s0.stats, "playlists_played", 1)
                             else Increment(Increment(Increment(s0.stats, "songs_played", |audio|), "playlists_played", 1), "playlists_played", 1))))
    }

    /** The listed-playlists step: "меню" back to the menu, a listed id plays that
        playlist (counted as played twice), anything else is refused. The step stays. */
    method HandleChoosePlaylist(m: Message, w: World) returns (o: Outcome)
      requires Valid()
      modifies this
      ensures Valid() && AfterChoosePlaylist(old(Snapshot()), m, w, o)
    {
      var chat := m.chat;
      if LangOf(sessions, chat).None? || !HasLocale(LangOf(sessions, chat).value) {
        return Raised;
      }
      var lang := LangOf(sessions, chat).value;
      var txt := Strip(m.text);
      if Lower(txt) == MenuWord(lang) {
        AllOkStore(sessions, chat, sessions[chat].(step := Some(Menu)));
        sessions := sessions[chat := sessions[chat].(step := Some(Menu))];
        outbox := outbox + [Say(chat, "main_menu")];
        return Handled;
      }
      var mapping := sessions[chat].playlistList.GetOr(map[]);
      if txt !in mapping || mapping[txt] == 0 {
        outbox := outbox + [Say(chat, "invalid_id")];
        return Handled;
      }
      var i := FirstIndex(playlists, mapping[txt], None);
      if i.None? {
        outbox := outbox + [Say(chat, "playlist_not_found")];
        return Handled;
      }
      var played, sent := PlayPlaylist(chat, playlists[i.value], lang, w);
      stats := Increment(stats, "playlists_played", 1);
      return Handled;
    }

    /** What HandlePlaylistName leaves behind, given the state before it. */
    ghost predicate AfterPlaylistName(s0: State, m: Message, fromAdd: bool, o: Outcome)
      requires AllOk(s0.sessions)
      reads this
    {
      (Files() == s0.Files() && lastBotMessages == s0.lastBotMessages && stats == s0.stats)
      && (var lang := LangOf(s0.sessions, m.chat);
        && (o == Raised <==> lang.None? || !HasLocale(lang.value))
        && (lang.None? ==> sessions == s0.sessions && outbox == s0.outbox))
      && (LangOf(s0.sessions, m.chat).Some? ==>
        var lang := LangOf(s0.sessions, m.chat).value;
        var name := Strip(m.text);
        var next := if fromAdd then CreatingPlaylistPublicFromAdd else CreatingPlaylistPublic;
        && (name == [] ==> sessions == s0.sessions
                           && outbox == (if HasLocale(lang) then s0.outbox + [Say(m.chat, "prompt_playlist_name")] else s0.outbox))
        && (name != [] ==> sessions == s0.sessions[m.chat := s0.sessions[m.chat].(newPlaylistName := Some(name), step := Some(next))]
                           && outbox == (if HasLocale(lang) then s0.outbox + [Say(m.chat, "prompt_playlist_public")] else s0.outbox)))
    }

    /** The playlist-name step (plain or from the add flow): a blank name asks again, any
        other is remembered stripped and the visibility question follows. */
    method HandlePlaylistName(m: Message, fromAdd: bool) returns (o: Outcome)
      requires Valid()
      modifies this
      ensures Valid() && AfterPlaylistName(old(Snapshot()), m, fromAdd, o)
    {
      var chat := m.chat;
      if LangOf(sessions, chat).None? {
        return Raised;
      }
      var lang := LangOf(sessions, chat).value;
      var name := Strip(m.text);
      if name == [] {
        if !HasLocale(lang) {
          return Raised;
        }
        outbox := outbox + [Say(chat, "prompt_playlist_name")];
        return Handled;
      }
      var next := if fromAdd then CreatingPlaylistPublicFromAdd else CreatingPlaylistPublic;
      AllOkStore(sessions, chat, sessions[chat].(newPlaylistName := Some(name), step := Some(next)));
      sessions := sessions[chat := sessions[chat].(newPlaylistName := Some(name), step := Some(next))];
      if !HasLocale(lang) {
        return Raised;
      }
      outbox := outbox + [Say(chat, "prompt_playlist_public")];
      return Handled;
    }

    /** What HandlePlaylistPublic leaves behind, given the state before it. */
    ghost predicate AfterPlaylistPublic(s0: State, m: Message, fromAdd: bool, w: World, o: Outcome)
      requires AllOk(s0.sessions) && StepOf(Get(s0.sessions, m.chat)) == Some(if fromAdd then CreatingPlaylistPublicFromAdd else CreatingPlaylistPublic)
      reads this
    {
      (lastBotMessages == s0.lastBotMessages && songsFile == s0.songsFile && users == s0.users)
      && (var lang := LangOf(s0.sessions, m.chat);
        && (o == Raised <==> lang.None? || !HasLocale(lang.value))
        && (lang.None? ==> sessions == s0.sessions && outbox == s0.outbox && playlists == s0.playlists && stats == s0.stats))
      && (LangOf(s0.sessions, m.chat).Some? ==>
        var lang := LangOf(s0.sessions, m.chat).value;
        var st := s0.sessions[m.chat];
        && playlists == NewPlaylist(s0.playlists, m.userId, st.newPlaylistName.value, IsPublicAnswer(m.text),
                                    if fromAdd then Seed(st.toAddSongId) else [], w.now)
        && stats == Increment(s0.stats, "playlists_created", 1)
        && sessions == s0.sessions[m.chat := st.(step := Some(Menu))]
        && outbox == (if HasLocale(lang) then s0.outbox + [Say(m.chat, "playlist_created")] else s0.outbox))
    }

    /** The visibility step (plain or from the add flow): create the playlist with the
        remembered name and the next id; from the add flow it starts with the remembered
        song. */
    method HandlePlaylistPublic(m: Message, fromAdd: bool, w: World) returns (o: Outcome)
      requires Valid()
      requires StepOf(Get(sessions, m.chat)) == Some(if fromAdd then CreatingPlaylistPublicFromAdd else CreatingPlaylistPublic)
      modifies this
      ensures Valid() && AfterPlaylistPublic(old(Snapshot()), m, fromAdd, w, o)
    {
      var chat := m.chat;
      if LangOf(sessions, chat).None? {
        return Raised;
      }
      var lang := LangOf(sessions, chat).value;
      var st := sessions[chat];
      var public := IsPublicAnswer(m.text);
      var seed := if fromAdd then Seed(st.toAddSongId) else [];
      playlists := NewPlaylist(playlists, m.userId, st.newPlaylistName.value, public, seed, w.now);
      stats := Increment(stats, "playlists_created", 1);
      AllOkStore(sessions, chat, st.(step := Some(Menu)));
      sessions := sessions[chat := st.(step := Some(Menu))];
      if !HasLocale(lang) {
        return Raised;
      }
      outbox := outbox + [Say(chat, "playlist_created")];
      return Handled;
    }

    /** What HandlePlayerControls leaves behind, given the state before it. */
    ghost predicate AfterPlayerControls(s0: State, m: Message, w: World, o: Outcome, pick: Option<Song>)
      requires AllOk(s0.sessions) && m.text in ControlTexts
      reads this
    {
      (Files() == s0.Files())
      && (var st := if m.chat in s0.sessions then s0.sessions[m.chat] else Empty;
              var lang := st.lang.GetOr("ru");
              var pool := Pool(LoadSongs(songsFile), st.mode, st.genre);
        && (m.text in {PrevButton, NextButton} && pool == [] ==>
              pick.None? && sessions == s0.sessions && stats == s0.stats && lastBotMessages == s0.lastBotMessages
              && (o == Raised <==> !HasLocale(lang))
              && outbox == (if HasLocale(lang) then s0.outbox + [Say(m.chat, "no_songs")] else s0.outbox))
        && (m.text in {PrevButton, NextButton} && pool != [] ==>
              && pick == Some(pool[Neighbour(pool, st.lastSong, m.text == NextButton)])
              && sessions == s0.sessions[m.chat := st.(lastSong := pick)]
              && pick.value in pool && pick.value in LoadSongs(songsFile)
              && var ref := AudioRef(pick.value.url.value, w.accepts);
              && outbox == s0.outbox + Deletes(m.chat, LastIds(s0.lastBotMessages, m.chat)) + PlayEvents(m.chat, ref, lang)
              && lastBotMessages == PlayLast(s0.lastBotMessages, m.chat, ref, lang, w)
              && stats == PlayStats(s0.stats, ref)
              && (o == Raised <==> PlayRaised(ref, lang)))
        && (m.text == AddButton && st.lastSong.None? ==>
              pick.None? && sessions == s0.sessions && stats == s0.stats && lastBotMessages == s0.lastBotMessages
              && (o == Raised <==> !HasLocale(lang))
              && outbox == (if HasLocale(lang) then s0.outbox + [Say(m.chat, "no_last_song")] else s0.outbox))
        && (m.text == AddButton && st.lastSong.Some? ==>
              pick.None? && stats == s0.stats && lastBotMessages == s0.lastBotMessages
              && (o == Raised <==> !HasLocale(lang))
              && (o == Raised ==> sessions == s0.sessions && outbox == s0.outbox)
              && (o == Handled ==>
                    sessions == s0.sessions[m.chat := st.(step := Some(AddToPlaylistChoose), toAddSongId := st.lastSong.value.id)]
                    && outbox == s0.outbox + [ShowPlaylists(m.chat, OwnedBy(playlists, m.userId))]))
        && (m.text in {"меню", "menu"} ==>
              pick.None? && stats == s0.stats && lastBotMessages == s0.lastBotMessages
              && (o == Raised <==> !HasLocale(lang) || m.chat !in s0.sessions)
              && (o == Raised ==> sessions == s0.sessions && outbox == s0.outbox)
              && (o == Handled ==> sessions == s0.sessions[m.chat := st.(step := Some(Menu))]
                                   && outbox == s0.outbox + [Say(m.chat, "main_menu")])))
    }

    /** The player controls, registered for their texts in any state: prev/next step
        through the pool, add offers the user's playlists, "меню"/"menu" returns to the
        menu. The language defaults to Russian. */
    method HandlePlayerControls(m: Message, w: World) returns (o: Outcome, pick: Option<Song>)
      requires Valid() && m.text in ControlTexts
      modifies this
      ensures Valid() && AfterPlayerControls(old(Snapshot()), m, w, o, pick)
    {
      pick := None;
      var chat := m.chat;
      var st := if chat in sessions then sessions[chat] else Empty;
      var lang := st.lang.GetOr("ru");
      if m.text == PrevButton || m.text == NextButton {
        var pool := Pool(LoadSongs(songsFile), st.mode, st.genre);
        if pool == [] {
          if !HasLocale(lang) {
            return Raised, None;
          }
          outbox := outbox + [Say(chat, "no_songs")];
          return Handled, None;
        }
        var song := pool[Neighbour(pool, st.lastSong, m.text == NextButton)];
        assert song in pool;
        AllOkStore(sessions, chat, st.(lastSong := Some(song)));
        sessions := sessions[chat := st.(lastSong := Some(song))];
        RememberKnown(sessions, chat, song, AudioRef(song.url.value, w.accepts));
        pick := Some(song);
        o := SendSongWithControls(chat, song, lang, w);
        return;
      }
      if m.text == AddButton {
        if st.lastSong.None? {
          if !HasLocale(lang) {
            return Raised, None;
          }
          outbox := outbox + [Say(chat, "no_last_song")];
          return Handled, None;
        }
        if !HasLocale(lang) {
          return Raised, None;
        }
        AllOkStore(sessions, chat, st.(step := Some(AddToPlaylistChoose), toAddSongId := st.lastSong.value.id));
        sessions := sessions[chat := st.(step := Some(AddToPlaylistChoose), toAddSongId := st.lastSong.value.id)];
        outbox := outbox + [ShowPlaylists(chat, OwnedBy(playlists, m.userId))];
        return Handled, None;
      }
      if !HasLocale(lang) || chat !in sessions {
        return Raised, None;
      }
      AllOkStore(sessions, chat, st.(step := Some(Menu)));
      sessions := sessions[chat := st.(step := Some(Menu))];
      outbox := outbox + [Say(chat, "main_menu")];
      return Handled, None;
    }

    /** What HandleAddChoose leaves behind, given the state before it. */
    ghost predicate AfterAddChoose(s0: State, m: Message, o: Outcome)
      requires AllOk(s0.sessions) && StepOf(Get(s0.sessions, m.chat)) == Some(AddToPlaylistChoose)
      reads this
    {
      (lastBotMessages == s0.lastBotMessages && songsFile == s0.songsFile && users == s0.users)
      && (m.chat in s0.sessions)
      && (var st := s0.sessions[m.chat];
              var lang := st.lang.GetOr("ru");
        && (!HasLocale(lang) ==> o == Raised && sessions == s0.sessions && outbox == s0.outbox
                                 && playlists == s0.playlists && stats == s0.stats))
      && (var st := s0.sessions[m.chat];
              var lang := st.lang.GetOr("ru");
              var txt := Strip(m.text);
        HasLocale(lang) ==>
        && (txt == CreatePlaylistButton(lang) ==>
              o == Handled && sessions == s0.sessions[m.chat := st.(step := Some(CreatingPlaylistNameFromAdd))]
              && outbox == s0.outbox + [Say(m.chat, "prompt_playlist_name")] && playlists == s0.playlists && stats == s0.stats)
        && (txt != CreatePlaylistButton(lang) && txt == BackToMenu(lang) ==>
              o == Handled && sessions == s0.sessions[m.chat := st.(step := Some(Menu))]
              && outbox == s0.outbox + [Say(m.chat, "main_menu")] && playlists == s0.playlists && stats == s0.stats)
        && (txt != CreatePlaylistButton(lang) && txt != BackToMenu(lang) && !("ID:" <= txt) ==>
              o == Handled && sessions == s0.sessions && outbox == s0.outbox + [Say(m.chat, "invalid_choice")]
              && playlists == s0.playlists && stats == s0.stats)
        && (txt != CreatePlaylistButton(lang) && txt != BackToMenu(lang) && "ID:" <= txt ==>
              AddedAsChosen(s0.sessions, s0.outbox, s0.playlists, s0.stats, m, o)))
    }

    /** The add-to-playlist step: create a new playlist for the song, go back, or add it
        to the own playlist picked as "ID:<id> ...". */
    method HandleAddChoose(m: Message) returns (o: Outcome)
      requires Valid() && StepOf(Get(sessions, m.chat)) == Some(AddToPlaylistChoose)
      modifies this
      ensures Valid() && AfterAddChoose(old(Snapshot()), m, o)
    {
      var chat := m.chat;
      var st := sessions[chat];
      var lang := st.lang.GetOr("ru");
      if !HasLocale(lang) {
        return Raised;
      }
      var txt := Strip(m.text);
      if txt == CreatePlaylistButton(lang) {
        AllOkStore(sessions, chat, st.(step := Some(CreatingPlaylistNameFromAdd)));
        sessions := sessions[chat := st.(step := Some(CreatingPlaylistNameFromAdd))];
        outbox := outbox + [Say(chat, "prompt_playlist_name")];
        return Handled;
      }
      if txt == BackToMenu(lang) {
        AllOkStore(sessions, chat, st.(step := Some(Menu)));
        sessions := sessions[chat := st.(step := Some(Menu))];
        outbox := outbox + [Say(chat, "main_menu")];
        return Handled;
      }
      if !("ID:" <= txt) {
        outbox := outbox + [Say(chat, "invalid_choice")];
        return Handled;
      }
      o := AddChosen(m);
    }

    /** What choosing "ID:<id>" in the add-to-playlist step leaves behind, given the state
        before it. */
    ghost predicate AddedAsChosen(sessions0: map<int, Session>, outbox0: seq<Event>, playlists0: seq<Playlist>,
                                  stats0: map<string, int>, m: Message, o: Outcome)
      requires m.chat in sessions0
      reads this
    {
      var st := sessions0[m.chat];
      match AddToPlaylist(playlists0, RemoveAll(FirstWord(Strip(m.text)), "ID:"), m.userId, st.toAddSongId)
      case Crashed =>
        o == Raised && sessions == sessions0 && outbox == outbox0 && playlists == playlists0 && stats == stats0
      case NotFound =>
        o == Handled && sessions == sessions0 && outbox == outbox0 + [Say(m.chat, "playlist_not_found")]
        && playlists == playlists0 && stats == stats0
      case NoSong =>
        o == Handled && sessions == sessions0 && outbox == outbox0 + [Say(m.chat, "no_last_song")]
        && playlists == playlists0 && stats == stats0
      case AlreadyThere =>
        o == Handled && sessions == sessions0[m.chat := st.(step := Some(Menu))]
        && outbox == outbox0 + [Say(m.chat, "song_already_in_playlist")] + [Say(m.chat, "main_menu")]
        && playlists == playlists0 && stats == stats0
      case Added(pls) =>
        o == Handled && sessions == sessions0[m.chat := st.(step := Some(Menu))]
        && outbox == outbox0 + [Say(m.chat, "playlist_added_song")] + [Say(m.chat, "main_menu")]
        && playlists == pls && stats == Increment(stats0, "messages_handled", 1)
    }

    /** The "ID:<id>" choice of the add-to-playlist step: add the remembered song to that
        playlist of the user's. */
    method AddChosen(m: Message) returns (o: Outcome)
      requires Valid() && m.chat in sessions
      modifies this
      ensures Valid() && lastBotMessages == old(lastBotMessages) && songsFile == old(songsFile) && users == old(users)
      ensures AddedAsChosen(old(sessions), old(outbox), old(playlists), old(stats), m, o)
    {
      var chat := m.chat;
      var st := sessions[chat];
      match AddToPlaylist(playlists, RemoveAll(FirstWord(Strip(m.text)), "ID:"), m.userId, st.toAddSongId)
      case Crashed =>
        return Raised;
      case NotFound =>
        outbox := outbox + [Say(chat, "playlist_not_found")];
        return Handled;
      case NoSong =>
        outbox := outbox + [Say(chat, "no_last_song")];
        return Handled;
      case AlreadyThere =>
        outbox := outbox + [Say(chat, "song_already_in_playlist")];
        AllOkStore(sessions, chat, st.(step := Some(Menu)));
        sessions := sessions[chat := st.(step := Some(Menu))];
        outbox := outbox + [Say(chat, "main_menu")];
        return Handled;
      case Added(pls) =>
        playlists := pls;
        outbox := outbox + [Say(chat, "playlist_added_song")];
        stats := Increment(stats, "messages_handled", 1);
        AllOkStore(sessions, chat, st.(step := Some(Menu)));
        sessions := sessions[chat := st.(step := Some(Menu))];
        outbox := outbox + [Say(chat, "main_menu")];
        return Handled;
    }

    /** What HandleSuggestStart leaves behind, given the state before it. */
    ghost predicate AfterSuggestStart(s0: State, m: Message, o: Outcome)
      requires AllOk(s0.sessions)
      reads this
    {
      (Files() == s0.Files() && lastBotMessages == s0.lastBotMessages && stats == s0.stats)
      && (LangOf(s0.sessions, m.chat).None? ==> o == Raised && sessions == s0.sessions && outbox == s0.outbox)
      && (LangOf(s0.sessions, m.chat).Some? ==>
        o == Handled && sessions == s0.sessions[m.chat := s0.sessions[m.chat].(step := Some(Audio))]
        && outbox == s0.outbox + [Say(m.chat, "ask_audio")])
    }

    /** The suggest button: wait for an audio file. */
    method HandleSuggestStart(m: Message) returns (o: Outcome)
      requires Valid()
      modifies this
      ensures Valid() && AfterSuggestStart(old(Snapshot()), m, o)
    {
      var chat := m.chat;
      if LangOf(sessions, chat).None? {
        return Raised;
      }
      AllOkStore(sessions, chat, sessions[chat].(step := Some(Audio)));
      sessions := sessions[chat := sessions[chat].(step := Some(Audio))];
      outbox := outbox + [Say(chat, "ask_audio")];
      return Handled;
    }

    /** handle_get_audio, for any audio message: only in the audio step, remember the
        file id and ask for the title. */
    method OnAudio(chat: int, fileId: string) returns (o: Outcome)
      requires Valid()
      modifies this
      ensures Valid() && o == Handled && Files() == old(Files()) && lastBotMessages == old(lastBotMessages) && stats == old(stats)
      ensures StepOf(Get(old(sessions), chat)) != Some(Audio) ==> sessions == old(sessions) && outbox == old(outbox)
      ensures StepOf(Get(old(sessions), chat)) == Some(Audio) ==>
        sessions == old(sessions)[chat := old(sessions)[chat].(audio := Some(fileId), step := Some(Name))]
        && outbox == old(outbox) + [Say(chat, "ask_name")]
    {
      var st := if chat in sessions then sessions[chat] else Empty;
      if st.step != Some(Audio) {
        return Handled;
      }
      AllOkStore(sessions, chat, st.(audio := Some(fileId), step := Some(Name)));
      sessions := sessions[chat := st.(audio := Some(fileId), step := Some(Name))];
      outbox := outbox + [Say(chat, "ask_name")];
      return Handled;
    }

    /** What HandleSuggestField leaves behind, given the state before it. */
    ghost predicate AfterSuggestField(s0: State, m: Message, o: Outcome)
      requires AllOk(s0.sessions) && StepOf(Get(s0.sessions, m.chat)) in {Some(Name), Some(Artist), Some(Genre)}
      reads this
    {
      (o == Handled && Files() == s0.Files() && lastBotMessages == s0.lastBotMessages && stats == s0.stats)
      && (m.chat in s0.sessions)
      && (var st := s0.sessions[m.chat];
        sessions == s0.sessions[m.chat :=
          if st.step == Some(Name) then st.(name := Some(m.text), step := Some(Artist))
          else if st.step == Some(Artist) then st.(artist := Some(m.text), step := Some(Genre))
          else st.(genre := Some(m.text), step := Some(LangSong))])
      && (var st := s0.sessions[m.chat];
        outbox == s0.outbox + [Say(m.chat, if st.step == Some(Name) then "ask_artist" else if st.step == Some(Artist) then "ask_genre" else "ask_lang")])
    }

    /** The title, artist and genre steps of the suggest flow: store the text, ask for the
        next field. */
    method HandleSuggestField(m: Message) returns (o: Outcome)
      requires Valid() && StepOf(Get(sessions, m.chat)) in {Some(Name), Some(Artist), Some(Genre)}
      modifies this
      ensures Valid() && AfterSuggestField(old(Snapshot()), m, o)
    {
      o := Handled;
      var chat := m.chat;
      var st := sessions[chat];
      if st.step == Some(Name) {
        AllOkStore(sessions, chat, st.(name := Some(m.text), step := Some(Artist)));
        sessions := sessions[chat := st.(name := Some(m.text), step := Some(Artist))];
        outbox := outbox + [Say(chat, "ask_artist")];
      } else if st.step == Some(Artist) {
        AllOkStore(sessions, chat, st.(artist := Some(m.text), step := Some(Genre)));
        sessions := sessions[chat := st.(artist := Some(m.text), step := Some(Genre))];
        outbox := outbox + [Say(chat, "ask_genre")];
      } else {
        AllOkStore(sessions, chat, st.(genre := Some(m.text), step := Some(LangSong)));
        sessions := sessions[chat := st.(genre := Some(m.text), step := Some(LangSong))];
        outbox := outbox + [Say(chat, "ask_lang")];
      }
    }

    /** What HandleLangSong leaves behind, given the state before it. */
    ghost predicate AfterLangSong(s0: State, m: Message, w: World, o: Outcome, entry: Option<Song>)
      requires AllOk(s0.sessions) && StepOf(Get(s0.sessions, m.chat)) == Some(LangSong)
      reads this
    {
      (lastBotMessages == s0.lastBotMessages && playlists == s0.playlists && users == s0.users)
      && (m.chat in s0.sessions)
      && (var st := s0.sessions[m.chat];
        && (w.archived.None? ==>
              o == Handled && entry.None? && sessions == s0.sessions - {m.chat}
              && outbox == s0.outbox + [Say(m.chat, "archive_error")]
              && songsFile == s0.songsFile && stats == s0.stats)
        && (w.archived.Some? ==>
              var (channel, msgId) := w.archived.value;
              && entry == Some(Song(Some(msgId), st.name, st.artist, st.genre, Some(m.text),
                                    Some("file_id:" + st.audio.value), Some(ArchiveUrl(channel, msgId))))
              && songsFile == SongList(AsRecords(LoadSongs(s0.songsFile) + [entry.value]))
              && (o == Raised <==> !HasLocale(m.text))
              && (o == Raised ==>
                    sessions == s0.sessions[m.chat := st.(lang := Some(m.text))]
                    && outbox == s0.outbox + [ArchiveAudio(st.audio.value)]
                    && stats == Increment(s0.stats, "songs_added", 1))
              && (o == Handled ==>
                    sessions == s0.sessions[m.chat := Fresh(Menu, m.text)]
                    && outbox == s0.outbox + [ArchiveAudio(st.audio.value)] + [Say(m.chat, "thank_song")]
                    && stats == Increment(Increment(s0.stats, "songs_added", 1), "messages_handled", 1))))
    }

    /** The last suggest step: the text is stored as the session language, the audio is
        posted to the archive channel and the song appended to songs.json under the
        archive message's id. A language other than "ru"/"en" then fails on LOCALES. */
    method HandleLangSong(m: Message, w: World) returns (o: Outcome, entry: Option<Song>)
      requires Valid() && StepOf(Get(sessions, m.chat)) == Some(LangSong)
      modifies this
      ensures Valid() && AfterLangSong(old(Snapshot()), m, w, o, entry)
    {
      var chat := m.chat;
      var st := sessions[chat].(lang := Some(m.text));
      AllOkStore(sessions, chat, st);
      sessions := sessions[chat := st];
      if w.archived.None? {
        outbox := outbox + [Say(chat, "archive_error")];
        sessions := sessions - {chat};
        StoreThenDrop(old(sessions), chat, st);
        AllOkStore(old(sessions), chat, old(sessions)[chat]);
        return Handled, None;
      }
      var (channel, msgId) := w.archived.value;
      outbox := outbox + [ArchiveAudio(st.audio.value)];
      var song := Song(Some(msgId), st.name, st.artist, st.genre, Some(m.text),
                       Some("file_id:" + st.audio.value), Some(ArchiveUrl(channel, msgId)));
      entry := Some(song);
      songsFile := SongList(AsRecords(LoadSongs(songsFile) + [song]));
      stats := Increment(stats, "songs_added", 1);
      if !HasLocale(m.text) {
        return Raised, entry;
      }
      outbox := outbox + [Say(chat, "thank_song")];
      AllOkStore(sessions, chat, Fresh(Menu, m.text));
      sessions := sessions[chat := Fresh(Menu, m.text)];
      StoreTwice(old(sessions), chat, st, Fresh(Menu, m.text));
      stats := Increment(stats, "messages_handled", 1);
      return Handled, entry;
    }

    /** What HandleTell leaves behind, given the state before it. */
    ghost predicate AfterTell(s0: State, m: Message, w: World, o: Outcome, sent: nat)
      requires AllOk(s0.sessions)
      reads this
    {
      (o == Handled && Files() == s0.Files() && sessions == s0.sessions)
      && (lastBotMessages == s0.lastBotMessages && stats == s0.stats)
      && (m.userId != AdminId ==> sent == 0 && outbox == s0.outbox + [Say(m.chat, "tell_no_perm")])
      && (m.userId == AdminId && TellArgument(m.text).None? ==> sent == 0 && outbox == s0.outbox + [Say(m.chat, "tell_usage")])
      && (m.userId == AdminId && TellArgument(m.text).Some? ==>
        var announced := Announcements(users, TellArgument(m.text).value, w.reachable);
        sent == |announced| && outbox == s0.outbox + announced + [Delivered(m.chat, sent)])
    }

    /** /tell: the admin's message goes to every registered user that can be reached,
        then the admin gets the count. */
    method HandleTell(m: Message, w: World) returns (o: Outcome, sent: nat)
      requires Valid()
      modifies this
      ensures Valid() && AfterTell(old(Snapshot()), m, w, o, sent)
    {
      if m.userId != AdminId {
        outbox := outbox + [Say(m.chat, "tell_no_perm")];
        return Handled, 0;
      }
      var arg := TellArgument(m.text);
      if arg.None? {
        outbox := outbox + [Say(m.chat, "tell_usage")];
        return Handled, 0;
      }
      var events;
      events, sent := Broadcast(users, arg.value, w.reachable);
      outbox := outbox + events + [Delivered(m.chat, sent)];
      return Handled, sent;
    }

    /** What HandleStats leaves behind, given the state before it. */
    ghost predicate AfterStats(s0: State, m: Message, o: Outcome)
      requires AllOk(s0.sessions)
      reads this
    {
      (o == Handled && Files() == s0.Files() && sessions == s0.sessions)
      && (lastBotMessages == s0.lastBotMessages && stats == s0.stats)
      && (m.userId != AdminId ==> outbox == s0.outbox + [Say(m.chat, "no_permission")])
      && (m.userId == AdminId ==>
        outbox == s0.outbox + [Report(m.chat, |users|, |LoadSongs(songsFile)|, |playlists|, stats)])
    }

    /** /stats: the counts and counters, for the admin only. */
    method HandleStats(m: Message) returns (o: Outcome)
      requires Valid()
      modifies this
      ensures Valid() && AfterStats(old(Snapshot()), m, o)
    {
      if m.userId != AdminId {
        outbox := outbox + [Say(m.chat, "no_permission")];
        return Handled;
      }
      outbox := outbox + [Report(m.chat, |users|, |LoadSongs(songsFile)|, |playlists|, stats)];
      return Handled;
    }

    /** What HandleFallback leaves behind, given the state before it. */
    ghost predicate AfterFallback(s0: State, m: Message, w: World, o: Outcome)
      requires AllOk(s0.sessions)
      reads this
    {
      (lastBotMessages == s0.lastBotMessages && songsFile == s0.songsFile && playlists == s0.playlists)
      && (Get(s0.sessions, m.chat) in {None, Some(Empty)} ==>
        o == Handled && sessions == s0.sessions[m.chat := Fresh(ChooseLang, "ru")]
        && users == AddUser(s0.users, m.userId, m.username, "аноним", w.now).0
        && stats == (if AddUser(s0.users, m.userId, m.username, "аноним", w.now).1
                     then Increment(s0.stats, "registered_users", 1) else s0.stats)
        && outbox == s0.outbox + [Say(m.chat, "choose_lang")])
      && (Get(s0.sessions, m.chat) !in {None, Some(Empty)} ==>
        var st := s0.sessions[m.chat];
        var lang := st.lang.GetOr("ru");
        && users == s0.users
        && (!HasLocale(lang) ==> o == Raised && sessions == s0.sessions && outbox == s0.outbox && stats == s0.stats)
        && (HasLocale(lang) && Lower(Strip(m.text)) in {MenuWord(lang), BackToMenu(lang), "menu", "меню"} ==>
              o == Handled && sessions == s0.sessions[m.chat := st.(step := Some(Menu))]
              && outbox == s0.outbox + [Say(m.chat, "main_menu")] && stats == s0.stats)
        && (HasLocale(lang) && Lower(Strip(m.text)) !in {MenuWord(lang), BackToMenu(lang), "menu", "меню"} ==>
              o == Handled && sessions == s0.sessions && outbox == s0.outbox + [Say(m.chat, "not_understood")]
              && stats == Increment(s0.stats, "messages_handled", 1)))
    }

    /** The fallback: a chat without a session is registered and asked for its language;
        otherwise a menu word returns to the menu and anything else gets a hint. */
    method HandleFallback(m: Message, w: World) returns (o: Outcome)
      requires Valid()
      modifies this
      ensures Valid() && AfterFallback(old(Snapshot()), m, w, o)
    {
      var chat := m.chat;
      if chat !in sessions || sessions[chat] == Empty {
        AddUserRecord(m.userId, m.username, w.now);
        AllOkStore(sessions, chat, Fresh(ChooseLang, "ru"));
        sessions := sessions[chat := Fresh(ChooseLang, "ru")];
        outbox := outbox + [Say(chat, "choose_lang")];
        return Handled;
      }
      var st := sessions[chat];
      var lang := st.lang.GetOr("ru");
      if !HasLocale(lang) {
        return Raised;
      }
      var txt := Lower(Strip(m.text));
      if txt in {MenuWord(lang), BackToMenu(lang), "menu", "меню"} {
        AllOkStore(sessions, chat, st.(step := Some(Menu)));
        sessions := sessions[chat := st.(step := Some(Menu))];
        outbox := outbox + [Say(chat, "main_menu")];
        return Handled;
      }
      outbox := outbox + [Say(chat, "not_understood")];
      stats := Increment(stats, "messages_handled", 1);
      return Handled;
    }

    /** What handler `h` leaves behind for the message, given the state before it. The
        handlers registered for one step also state that the chat was in it. */
    ghost predicate Served(h: Handler, s0: State, m: Message, w: World, o: Outcome)
      requires AllOk(s0.sessions)
      reads this
    {
      var step := StepOf(Get(s0.sessions, m.chat));
      match h
      case OnStart => AfterStart(s0, m, w, o)
      case OnChooseLang => AfterChooseLang(s0, m, o)
      case OnRandom => exists pick :: AfterRandom(s0, m, w, o, pick)
      case OnGenres => AfterGenres(s0, m, o)
      case OnChooseGenre => exists pick :: AfterChooseGenre(s0, m, w, o, pick)
      case OnGenreLoop => step == Some(GenreLoop) && exists pick :: AfterGenreLoop(s0, m, w, o, pick)
      case OnSearchStart => AfterSearchStart(s0, m, o)
      case OnSearchQuery => AfterSearchQuery(s0, m, o)
      case OnSearchChoose => AfterSearchChoose(s0, m, w, o)
      case OnPlaylistsMenu => AfterPlaylistsMenu(s0, m, o)
      case OnPlaylistsAction => AfterPlaylistsAction(s0, m, o)
      case OnChoosePlaylist => AfterChoosePlaylist(s0, m, w, o)
      case OnPlaylistName => AfterPlaylistName(s0, m, false, o)
      case OnPlaylistPublic => step == Some(CreatingPlaylistPublic) && AfterPlaylistPublic(s0, m, false, w, o)
      case OnPlayerControls => m.text in ControlTexts && exists pick :: AfterPlayerControls(s0, m, w, o, pick)
      case OnAddChoose => step == Some(AddToPlaylistChoose) && AfterAddChoose(s0, m, o)
      case OnPlaylistNameFromAdd => AfterPlaylistName(s0, m, true, o)
      case OnPlaylistPublicFromAdd =>
        step == Some(CreatingPlaylistPublicFromAdd) && AfterPlaylistPublic(s0, m, true, w, o)
      case OnSuggestStart => AfterSuggestStart(s0, m, o)
      case OnName => step == Some(Name) && AfterSuggestField(s0, m, o)
      case OnArtist => step == Some(Artist) && AfterSuggestField(s0, m, o)
      case OnGenre => step == Some(Genre) && AfterSuggestField(s0, m, o)
      case OnLangSong => step == Some(LangSong) && exists entry :: AfterLangSong(s0, m, w, o, entry)
      case OnTell => exists sent: nat :: AfterTell(s0, m, w, o, sent)
      case OnStats => AfterStats(s0, m, o)
      case OnFallback => AfterFallback(s0, m, w, o)
    }

    /** Runs the start, language, random and genre handlers. */
    method RunMenuHandler(h: Handler, m: Message, w: World) returns (o: Outcome)
      requires Valid() && h == Route(Get(sessions, m.chat), m.text)
      requires h in {OnStart, OnChooseLang, OnRandom, OnGenres, OnChooseGenre, OnGenreLoop}
      modifies this
      ensures Valid() && Served(h, old(Snapshot()), m, w, o)
    {
      RouteNeeds(Get(sessions, m.chat), m.text);
      if h == OnStart {
        o := HandleStart(m, w);
      } else if h == OnChooseLang {
        o := HandleChooseLang(m);
      } else if h == OnRandom {
        var pick; o, pick := HandleRandom(m, w);
      } else if h == OnGenres {
        o := HandleGenres(m);
      } else if h == OnChooseGenre {
        var pick; o, pick := HandleChooseGenre(m, w);
      } else {
        var pick; o, pick := HandleGenreLoop(m, w);
      }
    }

    /** Runs the search handlers. */
    method RunSearchHandler(h: Handler, m: Message, w: World) returns (o: Outcome)
      requires Valid() && h == Route(Get(sessions, m.chat), m.text)
      requires h in {OnSearchStart, OnSearchQuery, OnSearchChoose}
      modifies this
      ensures Valid() && Served(h, old(Snapshot()), m, w, o)
    {
      RouteNeeds(Get(sessions, m.chat), m.text);
      if h == OnSearchStart {
        o := HandleSearchStart(m);
      } else if h == OnSearchQuery {
        o := HandleSearchQuery(m);
      } else {
        o := HandleSearchChoose(m, w);
      }
    }

    /** Runs the playlist handlers and the player controls. */
    method RunPlaylistHandler(h: Handler, m: Message, w: World) returns (o: Outcome)
      requires Valid() && h == Route(Get(sessions, m.chat), m.text)
      requires h in {OnPlaylistsMenu, OnPlaylistsAction, OnChoosePlaylist, OnPlaylistName, OnPlaylistPublic, OnPlayerControls, OnAddChoose, OnPlaylistNameFromAdd, OnPlaylistPublicFromAdd}
      modifies this
      ensures Valid() && Served(h, old(Snapshot()), m, w, o)
    {
      RouteNeeds(Get(sessions, m.chat), m.text);
      if h == OnPlaylistsMenu {
        o := HandlePlaylistsMenu(m);
      } else if h == OnPlaylistsAction {
        o := HandlePlaylistsAction(m);
      } else if h == OnChoosePlaylist {
        o := HandleChoosePlaylist(m, w);
      } else if h == OnPlaylistName {
        o := HandlePlaylistName(m, false);
      } else if h == OnPlaylistPublic {
        o := HandlePlaylistPublic(m, false, w);
      } else if h == OnPlayerControls {
        var pick; o, pick := HandlePlayerControls(m, w);
      } else if h == OnAddChoose {
        o := HandleAddChoose(m);
      } else if h == OnPlaylistNameFromAdd {
        o := HandlePlaylistName(m, true);
      } else {
        o := HandlePlaylistPublic(m, true, w);
      }
    }

    /** Runs the suggest handlers, the admin commands and the fallback. */
    method RunSuggestOrAdminHandler(h: Handler, m: Message, w: World) returns (o: Outcome)
      requires Valid() && h == Route(Get(sessions, m.chat), m.text)
      requires h in {OnSuggestStart, OnName, OnArtist, OnGenre, OnLangSong, OnTell, OnStats, OnFallback}
      modifies this
      ensures Valid() && Served(h, old(Snapshot()), m, w, o)
    {
      RouteNeeds(Get(sessions, m.chat), m.text);
      if h == OnSuggestStart {
        o := HandleSuggestStart(m);
      } else if h == OnName {
        o := HandleSuggestField(m);
      } else if h == OnArtist {
        o := HandleSuggestField(m);
      } else if h == OnGenre {
        o := HandleSuggestField(m);
      } else if h == OnLangSong {
        var entry; o, entry := HandleLangSong(m, w);
      } else if h == OnTell {
        var sent; o, sent := HandleTell(m, w);
      } else if h == OnStats {
        o := HandleStats(m);
      } else {
        o := HandleFallback(m, w);
      }
    }

    /** A text message: telebot runs the first registered handler whose filter accepts
        it, and the message has that handler's effect. */
    method OnText(m: Message, w: World) returns (h: Handler, o: Outcome)
      requires Valid()
      modifies this
      ensures Valid()
      ensures h == Route(Get(old(sessions), m.chat), m.text)
      ensures Served(h, old(Snapshot()), m, w, o)
    {
      h := Route(Get(sessions, m.chat), m.text);
      if h in {OnStart, OnChooseLang, OnRandom, OnGenres, OnChooseGenre, OnGenreLoop} {
        o := RunMenuHandler(h, m, w);
      } else if h in {OnSearchStart, OnSearchQuery, OnSearchChoose} {
        o := RunSearchHandler(h, m, w);
      } else if h in {OnSuggestStart, OnName, OnArtist, OnGenre, OnLangSong, OnTell, OnStats, OnFallback} {
        o := RunSuggestOrAdminHandler(h, m, w);
      } else {
        o := RunPlaylistHandler(h, m, w);
      }
    }
  }
}
