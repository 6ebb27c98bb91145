/** The decisions bot.py's handlers make, as functions of the message and the per-chat
    session: language choice, the player's prev/next stepping, search and its numbered
    choices, playlist answers, the archive link, command parsing, and which handler
    telebot dispatches a text message to. */
module BotLogic {
  import opened Wrappers
  import opened Text
  import opened Catalog
  import opened BotData

  // ---------------------------------------------------------------------------
  // The session record user_state[chat]
  // ---------------------------------------------------------------------------

  /** The values of the "step" key. */
  datatype Step =
    | ChooseLang | Menu | ChooseGenre | GenreLoop | Search | SearchChoose
    | PlaylistsMenu | ChoosePlaylistFromList | ChoosePlaylistFromPublic
    | CreatingPlaylistName | CreatingPlaylistPublic
    | AddToPlaylistChoose | CreatingPlaylistNameFromAdd | CreatingPlaylistPublicFromAdd
    | Audio | Name | Artist | Genre | LangSong

  /** The values of the "mode" key. */
  datatype Mode = RandomMode | GenreMode | SearchMode

  /** A numbered search result: `("song", id)` or `("playlist", id)`. */
  datatype Hit = SongHit(songId: Option<int>) | PlaylistHit(playlistId: int)

  /** `user_state[chat]`; each field is `None` when its key is absent or holds None.
      `lang` holds whatever text the suggest flow stored there, not only "ru"/"en". */
  datatype Session = Session(
    step: Option<Step>,
    lang: Option<string>,
    mode: Option<Mode>,
    genre: Option<string>,
    lastSong: Option<Song>,
    searchMap: Option<map<string, Hit>>,
    playlistList: Option<map<string, int>>,
    newPlaylistName: Option<string>,
    toAddSongId: Option<int>,
    audio: Option<string>,
    name: Option<string>,
    artist: Option<string>)

  /** `{}` */
  const Empty := Session(None, None, None, None, None, None, None, None, None, None, None, None)

  /** `{"step": step, "lang": lang}` */
  function Fresh(step: Step, lang: string): Session
  {
    Empty.(step := Some(step), lang := Some(lang))
  }

  /** Keys a step's handler reads with `st[...]` were stored by the handler that entered
      the step, so they are present whenever that step is. */
  predicate SessionOk(st: Session)
  {
    match st.step
    case Some(GenreLoop) => st.genre.Some?
    case Some(CreatingPlaylistPublic) => st.newPlaylistName.Some?
    case Some(CreatingPlaylistPublicFromAdd) => st.newPlaylistName.Some?
    case Some(Name) => st.audio.Some?
    case Some(Artist) => st.audio.Some? && st.name.Some?
    case Some(Genre) => st.audio.Some? && st.name.Some? && st.artist.Some?
    case Some(LangSong) => st.audio.Some? && st.name.Some? && st.artist.Some? && st.genre.Some?
    case _ => true
  }

  // ---------------------------------------------------------------------------
  // LOCALES and the fixed button texts
  // ---------------------------------------------------------------------------

  /** The languages LOCALES has; `LOCALES[lang]` raises KeyError for any other. */
  predicate HasLocale(lang: string)
  {
    lang == "ru" || lang == "en"
  }

  function MenuWord(lang: string): string
    requires HasLocale(lang)
  {
    if lang == "ru" then "меню" else "menu"
  }

  function MoreWord(lang: string): string
    requires HasLocale(lang)
  {
    if lang == "ru" then "ещё" else "more"
  }

  function BackToMenu(lang: string): string
    requires HasLocale(lang)
  {
    if lang == "ru" then "🔙 Назад в меню" else "🔙 Back to menu"
  }

  function CreatePlaylistButton(lang: string): string
    requires HasLocale(lang)
  {
    if lang == "ru" then "➕ Создать плейлист" else "➕ Create playlist"
  }

  function MyPlaylistsButton(lang: string): string
    requires HasLocale(lang)
  {
    if lang == "ru" then "👤 Мои плейлисты" else "👤 My playlists"
  }

  function PublicPlaylistsButton(lang: string): string
    requires HasLocale(lang)
  {
    if lang == "ru" then "🌐 Публичные плейлисты" else "🌐 Public playlists"
  }

  /** The main-menu buttons, in both languages. */
  const RandomButtons: set<string> := {"🎲 Рандом", "🎲 Random"}
  const GenresButtons: set<string> := {"🎧 Жанры", "🎧 Genres"}
  const SearchButtons: set<string> := {"🔎 Поиск", "🔎 Search"}
  const PlaylistsButtons: set<string> := {"📁 Плейлисты", "📁 Playlists"}
  const SuggestButtons: set<string> := {"🎤 Предложить песню", "🎤 Suggest a song"}

  const PrevButton := "⏮ Назад"
  const NextButton := "⏭ Вперёд"
  const AddButton := "➕ Добавить в плейлист"

  /** The texts handle_player_controls is registered for. */
  const ControlTexts: set<string> := {PrevButton, NextButton, AddButton, "меню", "menu"}

  /** handle_choose_lang: Russian unless the text has the British flag and not the
      Russian one. */
  function ChooseLanguage(text: string): (lang: string)
    ensures HasLocale(lang)
    ensures lang == "en" <==> Contains(text, "🇬🇧") && !Contains(text, "🇷🇺")
  {
    if Contains(text, "🇷🇺") then "ru" else if Contains(text, "🇬🇧") then "en" else "ru"
  }

  // ---------------------------------------------------------------------------
  // Player: prev / next (bot.py:692-719)
  // ---------------------------------------------------------------------------

  /** The list prev/next walk: the chosen genre's songs in genre mode, else all songs. */
  function Pool(songs: seq<Song>, mode: Option<Mode>, genre: Option<string>): (pool: seq<Song>)
    ensures mode != Some(GenreMode) ==> pool == songs
    ensures forall s :: s in pool ==> s in songs
    ensures mode == Some(GenreMode) ==> forall s :: s in pool <==> s in songs && InGenre(s, genre.GetOr(""))
  {
    if mode == Some(GenreMode) then ByGenre(songs, genre.GetOr("")) else songs
  }

  /** `ids.index(id)`: the first position holding that id. */
  function IndexOfId(pool: seq<Song>, id: int): (r: Option<nat>)
    ensures r.Some? ==> r.value < |pool| && pool[r.value].id == Some(id)
    ensures r.Some? ==> forall j :: 0 <= j < r.value ==> pool[j].id != Some(id)
    ensures r.None? ==> forall j :: 0 <= j < |pool| ==> pool[j].id != Some(id)
  {
    if pool == [] then None
    else if pool[0].id == Some(id) then Some(0)
    else match IndexOfId(pool[1..], id)
         case None => None
         case Some(k) => Some(k + 1)
  }

  /** Where the last song sits in the pool; 0 when there is no last song, it has no id,
      or the pool does not contain it. */
  function Position(pool: seq<Song>, last: Option<Song>): (r: nat)
    ensures pool != [] ==> r < |pool|
  {
    if last.None? || last.value.id.None? then 0
    else match IndexOfId(pool, last.value.id.value)
         case None => 0
         case Some(i) => i
  }

  /** `(idx + 1) % len(pool)` or `(idx - 1) % len(pool)`: one step along the pool,
      wrapping around at both ends (Python's `%` with a positive divisor is never
      negative, like Dafny's). */
  function Neighbour(pool: seq<Song>, last: Option<Song>, forward: bool): (r: nat)
    requires pool != []
    ensures r < |pool|
    ensures forward ==> r == if Position(pool, last) + 1 < |pool| then Position(pool, last) + 1 else 0
    ensures !forward ==> r == if Position(pool, last) > 0 then Position(pool, last) - 1 else |pool| - 1
  {
    var i := Position(pool, last);
    StepModulo(i, |pool|);
    (i + (if forward then 1 else -1)) % |pool|
  }

  lemma StepModulo(i: int, n: int)
    requires 0 <= i < n
    ensures (i + 1) % n == if i + 1 < n then i + 1 else 0
    ensures (i - 1) % n == if i > 0 then i - 1 else n - 1
  {
    if i + 1 == n {
      assert (i + 1) % n == n % n == 0;
    }
    if i == 0 {
      assert (i - 1) % n == (n - 1) + (-1) * n - (-1) * n;
    }
  }

  /** No two songs of the pool share an id. */
  predicate DistinctIds(pool: seq<Song>)
  {
    forall i, j :: 0 <= i < |pool| && 0 <= j < |pool| && pool[i].id == pool[j].id ==> i == j
  }

  /** With distinct ids, a song of the pool is found where it is. */
  lemma PositionOfMember(pool: seq<Song>, i: nat)
    requires i < |pool| && pool[i].id.Some? && DistinctIds(pool)
    ensures Position(pool, Some(pool[i])) == i
  {
    var r := IndexOfId(pool, pool[i].id.value);
    assert r.Some?;
  }

  /** Next then prev (or prev then next) comes back to the song one started from. */
  lemma NeighbourRoundTrip(pool: seq<Song>, i: nat, forward: bool)
    requires i < |pool| && DistinctIds(pool)
    requires forall s :: s in pool ==> s.id.Some?
    ensures Neighbour(pool, Some(pool[Neighbour(pool, Some(pool[i]), forward)]), !forward) == i
  {
    PositionOfMember(pool, i);
    var j := Neighbour(pool, Some(pool[i]), forward);
    assert pool[j] in pool;
    PositionOfMember(pool, j);
  }

  /** Without a remembered song, next plays the second song and prev the last one. */
  lemma NeighbourFromStart(pool: seq<Song>)
    requires pool != []
    ensures Neighbour(pool, None, true) == 1 % |pool|
    ensures Neighbour(pool, None, false) == |pool| - 1
  {
  }

  // ---------------------------------------------------------------------------
  // Search (bot.py:469-503)
  // ---------------------------------------------------------------------------

  /** `q in s.get("name","").lower() or q in s.get("artist","").lower()` */
  predicate SongMatches(s: Song, q: string)
  {
    Contains(Lower(s.name.GetOr("")), q) || Contains(Lower(s.artist.GetOr("")), q)
  }

  /** A playlist is found when the query is in its lower-cased name and it is public or the
      searcher's own. */
  predicate PlaylistMatches(p: Playlist, q: string, searcher: int)
  {
    Contains(Lower(p.name), q) && (p.isPublic || p.ownerId == searcher)
  }

  function FoundSongs(songs: seq<Song>, q: string): (r: seq<Song>)
    ensures forall s :: s in r <==> s in songs && SongMatches(s, q)
  {
    if songs == [] then []
    else (if SongMatches(songs[0], q) then [songs[0]] else []) + FoundSongs(songs[1..], q)
  }

  function FoundPlaylists(pls: seq<Playlist>, q: string, searcher: int): (r: seq<Playlist>)
    ensures forall p :: p in r <==> p in pls && PlaylistMatches(p, q, searcher)
  {
    if pls == [] then []
    else (if PlaylistMatches(pls[0], q, searcher) then [pls[0]] else []) + FoundPlaylists(pls[1..], q, searcher)
  }

  /** The results in the order they are numbered: the songs, then the playlists. */
  function SearchHits(fs: seq<Song>, fp: seq<Playlist>): (r: seq<Hit>)
    ensures |r| == |fs| + |fp|
    ensures forall k :: 0 <= k < |fs| ==> r[k] == SongHit(fs[k].id)
    ensures forall k :: 0 <= k < |fp| ==> r[|fs| + k] == PlaylistHit(fp[k].id)
  {
    seq(|fs|, k requires 0 <= k < |fs| => SongHit(fs[k].id))
      + seq(|fp|, k requires 0 <= k < |fp| => PlaylistHit(fp[k].id))
  }

  /** `{str(1): hits[0], str(2): hits[1], ...}` */
  function Numbered(hits: seq<Hit>): map<string, Hit>
  {
    if hits == [] then map[] else Numbered(hits[..|hits| - 1])[IntToString(|hits|) := hits[|hits| - 1]]
  }

  /** Choice "k" stands for the k-th result. */
  lemma {:induction false} NumberedAt(hits: seq<Hit>, k: int)
    requires 1 <= k <= |hits|
    ensures IntToString(k) in Numbered(hits) && Numbered(hits)[IntToString(k)] == hits[k - 1]
    decreases |hits|
  {
    var n := |hits|;
    if k < n {
      NumberedAt(hits[..n - 1], k);
      if IntToString(k) == IntToString(n) {
        IntToStringInjective(k, n);
      }
    }
  }

  /** The only choices are "1" .. str(n). */
  lemma {:induction false} NumberedKey(hits: seq<Hit>, key: string)
    requires key in Numbered(hits)
    ensures exists k :: 1 <= k <= |hits| && IntToString(k) == key
    decreases |hits|
  {
    var n := |hits|;
    if key != IntToString(n) {
      NumberedKey(hits[..n - 1], key);
      var k :| 1 <= k <= n - 1 && IntToString(k) == key;
      assert 1 <= k <= n;
    }
  }

  /** The numbering loop of handle_search_query: walks the found songs, then the found
      playlists, giving each the next number. */
  method NumberResults(fs: seq<Song>, fp: seq<Playlist>) returns (mapping: map<string, Hit>, hits: seq<Hit>)
    ensures hits == SearchHits(fs, fp)
    ensures mapping == Numbered(hits)
  {
    mapping := map[];
    hits := [];
    var idx := 1;
    for i := 0 to |fs|
      invariant idx == |hits| + 1
      invariant hits == seq(i, k requires 0 <= k < i => SongHit(fs[k].id))
      invariant mapping == Numbered(hits)
    {
      mapping := mapping[IntToString(idx) := SongHit(fs[i].id)];
      hits := hits + [SongHit(fs[i].id)];
      assert hits[..|hits| - 1] == hits[..i];
      idx := idx + 1;
    }
    ghost var songHits := hits;
    for i := 0 to |fp|
      invariant idx == |hits| + 1
      invariant hits == songHits + seq(i, k requires 0 <= k < i => PlaylistHit(fp[k].id))
      invariant mapping == Numbered(hits)
    {
      mapping := mapping[IntToString(idx) := PlaylistHit(fp[i].id)];
      hits := hits + [PlaylistHit(fp[i].id)];
      assert hits[..|hits| - 1] == songHits + seq(i, k requires 0 <= k < i => PlaylistHit(fp[k].id));
      idx := idx + 1;
    }
  }

  /** The numbered choice "k" replays the k-th result: a found song, or a found playlist
      after the songs; any other text is not a choice. */
  lemma SearchChoiceMeaning(fs: seq<Song>, fp: seq<Playlist>, key: string)
    ensures key in Numbered(SearchHits(fs, fp)) <==> exists k :: 1 <= k <= |fs| + |fp| && IntToString(k) == key
    ensures forall k :: 1 <= k <= |fs| ==>
              IntToString(k) in Numbered(SearchHits(fs, fp)) && Numbered(SearchHits(fs, fp))[IntToString(k)] == SongHit(fs[k - 1].id)
    ensures forall k :: |fs| < k <= |fs| + |fp| ==>
              IntToString(k) in Numbered(SearchHits(fs, fp)) && Numbered(SearchHits(fs, fp))[IntToString(k)] == PlaylistHit(fp[k - |fs| - 1].id)
  {
    var hits := SearchHits(fs, fp);
    if key in Numbered(hits) {
      NumberedKey(hits, key);
    }
    forall k | 1 <= k <= |fs| + |fp| ensures IntToString(k) in Numbered(hits) && Numbered(hits)[IntToString(k)] == hits[k - 1] {
      NumberedAt(hits, k);
    }
  }

  // ---------------------------------------------------------------------------
  // Playlist answers (bot.py:662-663, 803-818)
  // ---------------------------------------------------------------------------

  /** `txt.strip().lower() in ["да", "yes", "y", "true", "1"]` */
  predicate IsPublicAnswer(txt: string)
  {
    Lower(Strip(txt)) in ["да", "yes", "y", "true", "1"]
  }

  /** The songs a playlist created from the add flow starts with: `[int(sid)]` when the
      remembered id is truthy (present and non-zero), else none. */
  function Seed(sid: Option<int>): (r: seq<int>)
    ensures |r| <= 1
    ensures r == [] <==> sid.None? || sid.value == 0
    ensures r != [] ==> r == [sid.value]
  {
    if sid.Some? && sid.value != 0 then [sid.value] else []
  }

  // ---------------------------------------------------------------------------
  // The archive link of a suggested song (bot.py:895-903)
  // ---------------------------------------------------------------------------

  /** `s.lstrip("-")` */
  function StripDashes(s: string): (r: string)
    ensures |r| <= |s| && r == s[|s| - |r|..] && (r == [] || r[0] != '-')
  {
    if s != [] && s[0] == '-' then StripDashes(s[1..]) else s
  }

  /** The channel part of `https://t.me/c/<short>/<message>`: `str(chat_id)` without a
      leading "-100", or else without its leading minus signs. */
  function ArchiveShort(chatId: int): string
  {
    var s := IntToString(chatId);
    if "-100" <= s then s[4..] else StripDashes(s)
  }

  function ArchiveUrl(chatId: int, messageId: int): string
  {
    "https://t.me/c/" + ArchiveShort(chatId) + "/" + IntToString(messageId)
  }

  /** A channel id -100X yields X's digits; any other id yields its absolute value. */
  lemma ArchiveShortSpec(chatId: int)
    ensures "-100" <= IntToString(chatId) ==> "-100" + ArchiveShort(chatId) == IntToString(chatId)
    ensures !("-100" <= IntToString(chatId)) ==> ArchiveShort(chatId) == IntToString(if chatId < 0 then -chatId else chatId)
  {
    var s := IntToString(chatId);
    var d := NatToString(if chatId < 0 then -chatId else chatId);
    assert d[0] != '-' by { assert IsDigit(d[0]); }
    if "-100" <= s {
      assert s == s[..4] + s[4..];
    } else if chatId < 0 {
      assert s == "-" + d && s[1..] == d;
    }
  }

  // ---------------------------------------------------------------------------
  // Commands (telebot's extract_command) and /tell's argument (bot.py:930-934)
  // ---------------------------------------------------------------------------

  /** `text.split()[0].split("@")[0][1:]` for a text starting with "/", else no command. */
  function Command(text: string): (r: Option<string>)
    ensures r.Some? <==> text != [] && text[0] == '/'
  {
    if text != [] && text[0] == '/' then
      var w := Before(FirstWord(text), '@');
      assert w != [] by { assert FirstWord(text)[0] == '/'; }
      Some(w[1..])
    else None
  }

  /** `parts[1]` of `text.split(maxsplit=1)`, or `None` when there is no second part. */
  function TellArgument(text: string): (r: Option<string>)
    ensures r.Some? ==> r.value != [] && !IsSpace(r.value[0])
  {
    var t := LStrip(text);
    var w := FirstWord(t);
    var rest := LStrip(t[|w|..]);
    LStripSpec(t[|w|..]);
    if rest == [] then None else Some(rest)
  }

  /** "/tell <message>" broadcasts the message; a bare "/tell" has none. */
  lemma TellArgumentOf(cmd: string, msg: string)
    requires cmd != [] && forall i :: 0 <= i < |cmd| ==> !IsSpace(cmd[i])
    requires msg != [] && !IsSpace(msg[0])
    ensures TellArgument(cmd + " " + msg) == Some(msg)
    ensures TellArgument(cmd) == None
  {
    var t := cmd + " " + msg;
    assert t == cmd + (" " + msg);
    assert LStrip(t) == t by { assert t[0] == cmd[0]; }
    FirstWordPrefix(cmd, " " + msg);
    assert t[|cmd|..] == " " + msg;
    assert LStrip(" " + msg) == msg by { assert (" " + msg)[1..] == msg; }
    assert LStrip(cmd) == cmd by { assert cmd[0] == cmd[0]; }
    FirstWordPrefix(cmd, "");
    assert cmd + "" == cmd;
  }

  /** The first word of a non-space word followed by a text that starts with space (or is
      empty) is that word. */
  lemma {:induction false} FirstWordPrefix(w: string, rest: string)
    requires forall i :: 0 <= i < |w| ==> !IsSpace(w[i])
    requires rest == [] || IsSpace(rest[0])
    ensures FirstWord(w + rest) == w
    decreases |w|
  {
    if w != [] {
      assert (w + rest)[1..] == w[1..] + rest;
      FirstWordPrefix(w[1..], rest);
    }
  }

  // ---------------------------------------------------------------------------
  // Dispatch: telebot tries the message handlers in registration order (bot.py:348-964)
  // ---------------------------------------------------------------------------

  datatype Handler =
    | OnStart | OnChooseLang | OnRandom | OnGenres | OnChooseGenre | OnGenreLoop
    | OnSearchStart | OnSearchQuery | OnSearchChoose
    | OnPlaylistsMenu | OnPlaylistsAction | OnChoosePlaylist | OnPlaylistName | OnPlaylistPublic
    | OnPlayerControls | OnAddChoose | OnPlaylistNameFromAdd | OnPlaylistPublicFromAdd
    | OnSuggestStart | OnName | OnArtist | OnGenre | OnLangSong
    | OnTell | OnStats | OnFallback

  /** `user_state.get(chat, {}).get("step")` */
  function StepOf(st: Option<Session>): Option<Step>
  {
    if st.Some? then st.value.step else None
  }

  /** The handler whose `step == ...` filter accepts any text in that step. */
  function StepHandler(s: Step): Handler
  {
    match s
    case ChooseLang => OnChooseLang
    case Menu => OnFallback
    case ChooseGenre => OnChooseGenre
    case GenreLoop => OnGenreLoop
    case Search => OnSearchQuery
    case SearchChoose => OnSearchChoose
    case PlaylistsMenu => OnPlaylistsAction
    case ChoosePlaylistFromList => OnChoosePlaylist
    case ChoosePlaylistFromPublic => OnChoosePlaylist
    case CreatingPlaylistName => OnPlaylistName
    case CreatingPlaylistPublic => OnPlaylistPublic
    case AddToPlaylistChoose => OnAddChoose
    case CreatingPlaylistNameFromAdd => OnPlaylistNameFromAdd
    case CreatingPlaylistPublicFromAdd => OnPlaylistPublicFromAdd
    case Audio => OnFallback
    case Name => OnName
    case Artist => OnArtist
    case Genre => OnGenre
    case LangSong => OnLangSong
  }

  /** The steps whose handlers are registered before the player controls. */
  const EarlySteps: set<Step> := {ChooseLang, ChooseGenre, GenreLoop, Search, SearchChoose, PlaylistsMenu,
                                  ChoosePlaylistFromList, ChoosePlaylistFromPublic,
                                  CreatingPlaylistName, CreatingPlaylistPublic}

  /** The first registered handler whose filter accepts a text message. */
  function Route(st: Option<Session>, text: string): Handler
  {
    var step := StepOf(st);
    if Command(text) == Some("start") then OnStart
    else if step == Some(ChooseLang) then OnChooseLang
    else if step == Some(Menu) && text in RandomButtons then OnRandom
    else if step == Some(Menu) && text in GenresButtons then OnGenres
    else if step == Some(ChooseGenre) then OnChooseGenre
    else if step == Some(GenreLoop) then OnGenreLoop
    else if step == Some(Menu) && text in SearchButtons then OnSearchStart
    else if step == Some(Search) then OnSearchQuery
    else if step == Some(SearchChoose) then OnSearchChoose
    else if step == Some(Menu) && text in PlaylistsButtons then OnPlaylistsMenu
    else if step == Some(PlaylistsMenu) then OnPlaylistsAction
    else if step in {Some(ChoosePlaylistFromList), Some(ChoosePlaylistFromPublic)} then OnChoosePlaylist
    else if step == Some(CreatingPlaylistName) then OnPlaylistName
    else if step == Some(CreatingPlaylistPublic) then OnPlaylistPublic
    else if text in ControlTexts then OnPlayerControls
    else if step == Some(AddToPlaylistChoose) then OnAddChoose
    else if step == Some(CreatingPlaylistNameFromAdd) then OnPlaylistNameFromAdd
    else if step == Some(CreatingPlaylistPublicFromAdd) then OnPlaylistPublicFromAdd
    else if step == Some(Menu) && text in SuggestButtons then OnSuggestStart
    else if step == Some(Name) then OnName
    else if step == Some(Artist) then OnArtist
    else if step == Some(Genre) then OnGenre
    else if step == Some(LangSong) then OnLangSong
    else if Command(text) == Some("tell") then OnTell
    else if Command(text) == Some("stats") then OnStats
    else OnFallback
  }

  /** /start is handled as /start whatever the session says. */
  lemma StartAlwaysWins(st: Option<Session>, text: string)
    requires Command(text) == Some("start")
    ensures Route(st, text) == OnStart
  {
  }

  /** A player-control text reaches the player controls unless the chat is in one of the
      steps registered before them, whose handler then takes it ("меню" while naming a
      playlist becomes the playlist's name). */
  lemma ControlsPrecedence(st: Option<Session>, text: string)
    requires text in ControlTexts
    ensures Route(st, text) == OnPlayerControls <==> StepOf(st).None? || StepOf(st).value !in EarlySteps
    ensures StepOf(st).Some? && StepOf(st).value in EarlySteps ==> Route(st, text) == StepHandler(StepOf(st).value)
  {
    ControlTextsAreNoButtons(text);
    var step := StepOf(st);
    if step.Some? && step.value in EarlySteps {
      assert Route(st, text) == StepHandler(step.value);
    } else {
      assert Route(st, text) == OnPlayerControls;
    }
  }

  /** No player-control text is a command or a menu button. */
  lemma ControlTextsAreNoButtons(text: string)
    requires text in ControlTexts
    ensures Command(text).None?
    ensures text !in RandomButtons && text !in GenresButtons && text !in SearchButtons && text !in PlaylistsButtons
  {
  }

  /** In a step with its own handler, every text other than /start goes to that handler,
      a player-control text excepted in the later steps; so "/tell ..." typed while
      searching is taken as the search query. */
  lemma StepHandlerTakesText(st: Option<Session>, text: string)
    requires StepOf(st).Some? && StepOf(st).value !in {Menu, Audio}
    requires Command(text) != Some("start")
    requires StepOf(st).value in EarlySteps || text !in ControlTexts
    ensures Route(st, text) == StepHandler(StepOf(st).value)
  {
  }

  /** The menu buttons work only in the menu step; elsewhere with no step handler, a
      non-control text that is no /start, /tell or /stats gets the fallback. */
  lemma FallbackOtherwise(st: Option<Session>, text: string)
    requires StepOf(st).None? || StepOf(st) == Some(Audio)
    requires text !in ControlTexts
    requires Command(text) !in {Some("start"), Some("tell"), Some("stats")}
    ensures Route(st, text) == OnFallback
  {
  }

  /** What each handler finds when telebot picks it: the step its filter tests, or a
      control text. */
  lemma RouteNeeds(st: Option<Session>, text: string)
    ensures Route(st, text) == OnGenreLoop ==> StepOf(st) == Some(GenreLoop)
    ensures Route(st, text) == OnPlaylistPublic ==> StepOf(st) == Some(CreatingPlaylistPublic)
    ensures Route(st, text) == OnPlaylistPublicFromAdd ==> StepOf(st) == Some(CreatingPlaylistPublicFromAdd)
    ensures Route(st, text) == OnAddChoose ==> StepOf(st) == Some(AddToPlaylistChoose)
    ensures Route(st, text) == OnName ==> StepOf(st) == Some(Name)
    ensures Route(st, text) == OnArtist ==> StepOf(st) == Some(Artist)
    ensures Route(st, text) == OnGenre ==> StepOf(st) == Some(Genre)
    ensures Route(st, text) == OnLangSong ==> StepOf(st) == Some(LangSong)
    ensures Route(st, text) == OnPlayerControls ==> text in ControlTexts
  {
  }
}
