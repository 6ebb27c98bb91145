/** handlers.py: the inline-keyboard bot over utilits.py. /start records the user and shows
    the main menu; the menu callbacks pick a random song, list genres or playlists, or start
    the search and suggestion conversations, which run as chains of next-step handlers
    (one pending handler per chat); inline queries list matching songs. */
module Handlers {
  import opened Wrappers
  import opened Text
  import opened Catalog
  import opened Storage
  import opened Utilits
  import BotLogic

  // ---------------------------------------------------------------------------
  // Keyboards and the menu filter
  // ---------------------------------------------------------------------------

  /** An inline button: its label and its callback data. */
  datatype Button = Button(text: string, data: string)

  const MainMenuText: string := "🎵 What would you like to listen to today?"

  const MainMenu: seq<Button> := [
    Button("🎲 Random", "menu_random"), Button("🎧 Genres", "menu_genres"),
    Button("📂 Playlists", "menu_playlists"), Button("🔎 Search", "menu_search"),
    Button("➕ Suggest a song", "menu_suggest")]

  const BackButton: Button := Button("⬅️ Back", "menu_back")

  /** handle_menu's filter: `call.data and call.data.startswith("menu_")`. */
  predicate MenuFilter(data: Option<string>)
  {
    data.Some? && "menu_" <= data.value
  }

  /** The branch of handle_menu an action selects, in the order the branches are tried. */
  datatype MenuAction =
    | RandomAction | GenresAction | GenreAction(genre: string) | PlaylistsAction
    | PlaylistAction(pid: string) | SearchAction | SuggestAction | BackAction | NoAction

  function Classify(action: string): MenuAction
  {
    if action == "menu_random" then RandomAction
    else if action == "menu_genres" then GenresAction
    else if "genre:" <= action then GenreAction(action[6..])
    else if action == "menu_playlists" then PlaylistsAction
    else if "playlist:" <= action then PlaylistAction(action[9..])
    else if action == "menu_search" then SearchAction
    else if action == "menu_suggest" then SuggestAction
    else if action == "menu_back" then BackAction
    else NoAction
  }

  /** The filter lets only "menu_..." data through, so the `genre:` and `playlist:`
      branches never run, and the genre and playlist buttons, whose data starts with
      those prefixes, are never handled. */
  lemma UnreachableBranches(data: Option<string>, g: string)
    ensures MenuFilter(data) ==> !Classify(data.value).GenreAction? && !Classify(data.value).PlaylistAction?
    ensures !MenuFilter(Some("genre:" + g)) && !MenuFilter(Some("playlist:" + g))
  {
    if MenuFilter(data) {
      assert data.value[0] == 'm';
    }
    assert ("genre:" + g)[0] == 'g' && ("playlist:" + g)[0] == 'p';
  }

  /** menu_genres' keyboard: one `genre:<g>` button per genre, then Back. */
  function GenreButtons(genres: seq<string>): (r: seq<Button>)
    ensures |r| == |genres| + 1 && r[|genres|] == BackButton
    ensures forall i :: 0 <= i < |genres| ==> r[i] == Button(genres[i], "genre:" + genres[i])
  {
    seq(|genres|, i requires 0 <= i < |genres| => Button(genres[i], "genre:" + genres[i])) + [BackButton]
  }

  /** An entry of playlist.json as the menu reads it. */
  datatype PlaylistRef = PlaylistRef(id: Option<int>, name: Option<string>)

  /** menu_playlists' keyboard: `p.get("name", "Unnamed")` with data `playlist:<id>`. */
  function PlaylistButtons(pls: seq<PlaylistRef>): (r: seq<Button>)
    ensures |r| == |pls| + 1 && r[|pls|] == BackButton
    ensures forall i :: 0 <= i < |pls| ==> r[i] == Button(pls[i].name.GetOr("Unnamed"), "playlist:" + ShowInt(pls[i].id))
  {
    seq(|pls|, i requires 0 <= i < |pls| => Button(pls[i].name.GetOr("Unnamed"), "playlist:" + ShowInt(pls[i].id))) + [BackButton]
  }

  /** The menu's only working buttons are Back and the main menu's own; every listed genre
      or playlist is a button nobody handles. */
  lemma ListedButtonsDead(genres: seq<string>, pls: seq<PlaylistRef>)
    ensures forall i :: 0 <= i < |genres| ==> !MenuFilter(Some(GenreButtons(genres)[i].data))
    ensures forall i :: 0 <= i < |pls| ==> !MenuFilter(Some(PlaylistButtons(pls)[i].data))
    ensures MenuFilter(Some(BackButton.data)) && forall b :: b in MainMenu ==> MenuFilter(Some(b.data))
  {
    forall i | 0 <= i < |genres| ensures !MenuFilter(Some(GenreButtons(genres)[i].data)) {
      UnreachableBranches(None, genres[i]);
    }
    forall i | 0 <= i < |pls| ensures !MenuFilter(Some(PlaylistButtons(pls)[i].data)) {
      UnreachableBranches(None, ShowInt(pls[i].id));
    }
  }

  // ---------------------------------------------------------------------------
  // What the handlers send
  // ---------------------------------------------------------------------------

  /** One result of an inline query. */
  datatype InlineResult = InlineResult(id: string, fileId: string, title: Option<string>, performer: Option<string>)

  datatype Event =
    | SendText(chat: int, text: string)
    | SendAudio(chat: int, fileId: Option<string>, caption: string)
    | AnswerCallback(notice: Option<string>)
    | EditText(chat: int, text: string, buttons: seq<Button>)
    | AnswerInline(results: seq<InlineResult>)

  /** `f"{s.get('name')} — {s.get('artist')} ({s.get('genre')}, {s.get('lang')})"` */
  function SongCaption(s: Song): string
  {
    ShowText(s.name) + " — " + ShowText(s.artist) + " (" + ShowText(s.genre) + ", " + ShowText(s.lang) + ")"
  }

  /** A song read as `{}`: every key absent, so `not song` holds. */
  const EmptySong: Song := Song(None, None, None, None, None, None, None)

  /** `call.from_user.username or call.from_user.id` */
  function Who(username: Option<string>, id: int): string
  {
    if username.Some? && username.value != "" then username.value else IntToString(id)
  }

  // ---------------------------------------------------------------------------
  // handle_search_query's replies
  // ---------------------------------------------------------------------------

  /** `results[:5]` */
  function FirstFive(rs: seq<Song>): (r: seq<Song>)
    ensures |r| <= 5 && r <= rs
    ensures |rs| >= 5 ==> |r| == 5
    ensures |rs| < 5 ==> r == rs
  {
    if |rs| <= 5 then rs else rs[..5]
  }

  /** One result sent: the audio, or its caption as text where the send fails. */
  function ResultEvent(chat: int, s: Song, delivered: bool): Event
  {
    if delivered then SendAudio(chat, ExtractFileId(s.url), SongCaption(s)) else SendText(chat, SongCaption(s))
  }

  /** The replies to `rs`, the sends at the positions in `failed` falling back to text. */
  function ResultEvents(chat: int, rs: seq<Song>, failed: set<nat>): (r: seq<Event>)
    ensures |r| == |rs|
    ensures forall i :: 0 <= i < |rs| ==> r[i] == ResultEvent(chat, rs[i], i !in failed)
  {
    seq(|rs|, i requires 0 <= i < |rs| => ResultEvent(chat, rs[i], i !in failed))
  }

  /** At most five replies, one per result and in result order, each naming its song. */
  lemma SearchRepliesSpec(chat: int, rs: seq<Song>, failed: set<nat>)
    ensures |ResultEvents(chat, FirstFive(rs), failed)| == if |rs| < 5 then |rs| else 5
    ensures forall i :: 0 <= i < |ResultEvents(chat, FirstFive(rs), failed)| ==>
      ResultEvents(chat, FirstFive(rs), failed)[i].chat == chat &&
      (ResultEvents(chat, FirstFive(rs), failed)[i].SendAudio? <==> i !in failed)
  {
  }

  // ---------------------------------------------------------------------------
  // inline_handler
  // ---------------------------------------------------------------------------

  /** `not q or q in name.lower() or q in artist.lower()`, absent fields reading as "". */
  predicate InlineMatches(s: Song, q: string)
  {
    q == "" || Contains(Lower(s.name.GetOr("")), q) || Contains(Lower(s.artist.GetOr("")), q)
  }

  /** A song with a usable file id matching the query. */
  predicate Eligible(s: Song, q: string)
  {
    InlineMatches(s, q) && ExtractFileId(s.url).Some? && ExtractFileId(s.url).value != ""
  }

  function ResultOf(s: Song): InlineResult
    requires ExtractFileId(s.url).Some?
  {
    InlineResult(ShowInt(s.id), ExtractFileId(s.url).value, s.name, s.artist)
  }

  /** The results for every eligible song, in catalog order, without the cap. */
  function InlineAll(songs: seq<Song>, q: string): (r: seq<InlineResult>)
    ensures |r| <= |songs|
    decreases |songs|
  {
    if songs == [] then []
    else
      var init := songs[..|songs| - 1];
      var last := songs[|songs| - 1];
      InlineAll(init, q) + (if Eligible(last, q) then [ResultOf(last)] else [])
  }

  /** The results for a prefix of the catalog start the results for the whole. */
  lemma {:induction false} InlinePrefix(songs: seq<Song>, j: nat, q: string)
    requires j <= |songs|
    ensures InlineAll(songs[..j], q) <= InlineAll(songs, q)
    decreases |songs|
  {
    if j < |songs| {
      var init := songs[..|songs| - 1];
      assert init[..j] == songs[..j];
      InlinePrefix(init, j, q);
    } else {
      assert songs[..j] == songs;
    }
  }

  /** A result is listed exactly for each eligible song. */
  lemma {:induction false} InlineMembers(songs: seq<Song>, q: string)
    ensures forall r :: r in InlineAll(songs, q) <==> exists s :: s in songs && Eligible(s, q) && r == ResultOf(s)
    decreases |songs|
  {
    if songs != [] {
      var init := songs[..|songs| - 1];
      var last := songs[|songs| - 1];
      assert songs == init + [last];
      InlineMembers(init, q);
      forall r ensures r in InlineAll(songs, q) <==> exists s :: s in songs && Eligible(s, q) && r == ResultOf(s) {
        if exists s :: s in songs && Eligible(s, q) && r == ResultOf(s) {
          var s :| s in songs && Eligible(s, q) && r == ResultOf(s);
          if s != last {
            assert s in init;
          }
        }
      }
    }
  }

  /** An empty query lists every song that has a file id. */
  lemma InlineEmptyQuery(songs: seq<Song>, s: Song)
    requires s in songs && ExtractFileId(s.url).Some? && ExtractFileId(s.url).value != ""
    ensures ResultOf(s) in InlineAll(songs, "")
  {
    InlineMembers(songs, "");
    assert Eligible(s, "");
  }

  /** `results` up to the cap of 25. */
  function Capped(rs: seq<InlineResult>, n: nat): (r: seq<InlineResult>)
    ensures |r| <= n && r <= rs
    ensures |rs| <= n ==> r == rs
  {
    if |rs| <= n then rs else rs[..n]
  }

  // ---------------------------------------------------------------------------
  // The suggestion chain
  // ---------------------------------------------------------------------------

  /** A next-step handler waiting for a chat's next message. */
  datatype Step = SearchStep | NameStep | ArtistStep | GenreStep | LangStep | AudioStep

  /** What `getattr(message, "chat_data", ...)["suggest"]` holds on a message object. */
  datatype Draft = Draft(name: Option<string>, artist: Option<string>, genre: Option<string>, lang: Option<string>)

  const NoDraft: Draft := Draft(None, None, None, None)

  /** An incoming message. `chatData` is the `chat_data` attribute of the message object;
      Telegram delivers every message without one. */
  datatype Incoming = Incoming(chat: int, text: Option<string>, username: Option<string>, userId: int,
                               firstName: Option<string>, date: int, chatData: Option<Draft>)

  /** The handler left registered for the chat after `step` handled `m`: the name step
      repeats itself on an empty name, each later step registers the next, a missing text
      raises (leaving nothing registered), and the search and audio steps end the chain. */
  function AfterStep(step: Step, m: Incoming): Option<Step>
  {
    if step == SearchStep || step == AudioStep || m.text.None? then None
    else if step == NameStep then (if Strip(m.text.value) == "" then Some(NameStep) else Some(ArtistStep))
    else if step == ArtistStep then Some(GenreStep)
    else if step == GenreStep then Some(LangStep)
    else Some(AudioStep)
  }

  /** The prompt a text step sends. */
  function StepPrompt(step: Step, m: Incoming): string
  {
    if step == NameStep then
      (if m.text.Some? && Strip(m.text.value) == "" then "Name cannot be empty. Try again:" else "Who is the artist?")
    else if step == ArtistStep then "What is the genre?"
    else if step == GenreStep then "Language?"
    else "Now send the audio file:"
  }

  function ChainRank(step: Step): nat
  {
    match step
    case SearchStep => 0
    case NameStep => 1
    case ArtistStep => 2
    case GenreStep => 3
    case LangStep => 4
    case AudioStep => 5
  }

  /** The chain runs name, artist, genre, language, audio, one step per message; only an
      empty name keeps it where it is. */
  lemma ChainOrder(step: Step, m: Incoming)
    requires step != SearchStep && m.text.Some?
    ensures step == NameStep && Strip(m.text.value) == "" ==> AfterStep(step, m) == Some(NameStep)
    ensures !(step == NameStep && Strip(m.text.value) == "") && step != AudioStep ==>
      AfterStep(step, m).Some? && ChainRank(AfterStep(step, m).value) == ChainRank(step) + 1
    ensures step == AudioStep ==> AfterStep(step, m).None?
  {
  }

  /** The pending handlers after `step` ran for `chat`'s message: telebot drops the
      handler before calling it, and the step may register the next one. */
  function PendingAfter(p: map<int, Step>, chat: int, step: Step, m: Incoming): map<int, Step>
  {
    var rest := p - {chat};
    if AfterStep(step, m).Some? then rest[chat := AfterStep(step, m).value] else rest
  }

  /** The archive link: `str(ARCHIVE_CHANNEL_ID).replace('-100', '')`. */
  function SuggestLink(channel: int, messageId: int): string
  {
    "https://t.me/c/" + RemoveAll(IntToString(channel), "-100") + "/" + IntToString(messageId)
  }

  /** Removing "-100" from `str(id)` drops a leading "-100" and otherwise changes
      nothing; so a channel id -100X gives the link bot.py gives, and any other negative
      id keeps its minus sign where bot.py drops it. */
  lemma SuggestLinkSpec(channel: int, messageId: int)
    ensures "-100" <= IntToString(channel) ==>
      RemoveAll(IntToString(channel), "-100") == IntToString(channel)[4..] &&
      SuggestLink(channel, messageId) == BotLogic.ArchiveUrl(channel, messageId)
    ensures !("-100" <= IntToString(channel)) ==> RemoveAll(IntToString(channel), "-100") == IntToString(channel)
    ensures !("-100" <= IntToString(channel)) && channel < 0 ==>
      SuggestLink(channel, messageId) != BotLogic.ArchiveUrl(channel, messageId)
  {
    var s := IntToString(channel);
    var d := NatToString(if channel < 0 then -channel else channel);
    ContainsNeedsFirst(d, "-100");
    RemoveAllAbsent(d, "-100");
    BotLogic.ArchiveShortSpec(channel);
    if channel < 0 {
      assert s == "-" + d && s[1..] == d;
      if "-100" <= s {
        assert s[4..] == d[3..];
        ContainsNeedsFirst(d[3..], "-100");
        RemoveAllAbsent(d[3..], "-100");
      } else {
        assert !("-100" <= s);
        assert RemoveAll(s, "-100") == [s[0]] + RemoveAll(s[1..], "-100");
        var short := BotLogic.ArchiveShort(channel);
        assert |short| == |d|;
        var prefix := "https://t.me/c/";
        assert |SuggestLink(channel, messageId)| == |prefix| + |s| + 1 + |IntToString(messageId)|;
        assert |BotLogic.ArchiveUrl(channel, messageId)| == |prefix| + |short| + 1 + |IntToString(messageId)|;
      }
    } else {
      assert s == d && !("-100" <= s) by { assert IsDigit(d[0]); }
    }
  }

  /** The forwarded archive message: its id and the file id of its audio. */
  datatype Forwarded = Forwarded(messageId: int, audio: Option<string>)

  /** `{**suggest, "url": f"file_id:{fid}" if fid else "", "archive_url": link}` */
  function SuggestMeta(d: Draft, f: Forwarded, channel: int): Song
  {
    Song(None, d.name, d.artist, d.genre, d.lang,
         Some(if f.audio.Some? && f.audio.value != "" then FileIdPrefix + f.audio.value else ""),
         Some(SuggestLink(channel, f.messageId)))
  }

  /** The stored url gives back the forwarded audio's file id, or nothing when there is
      none; a message Telegram delivers carries no draft, so the entry has no name,
      artist, genre or language. */
  lemma SuggestMetaSpec(d: Draft, f: Forwarded, channel: int)
    ensures f.audio.Some? && f.audio.value != "" ==> ExtractFileId(SuggestMeta(d, f, channel).url) == f.audio
    ensures !(f.audio.Some? && f.audio.value != "") ==> ExtractFileId(SuggestMeta(d, f, channel).url).None?
    ensures d == NoDraft ==> var s := SuggestMeta(d, f, channel);
      s.name.None? && s.artist.None? && s.genre.None? && s.lang.None? && s.url.Some? && s.archiveUrl.Some?
  {
    if f.audio.Some? && f.audio.value != "" {
      ExtractRoundTrip(f.audio.value);
    }
  }

  // ---------------------------------------------------------------------------
  // The bot
  // ---------------------------------------------------------------------------

  /** What the world answers during one update: the time, whether the audio send goes
      through, which result sends of a search fail, the forwarded archive message (None
      where forwarding raises) and the text of a raised error. */
  datatype World = World(now: int, audioOk: bool, failed: set<nat>, forwarded: Option<Forwarded>, error: string)

  /** A callback query: its data, the chat of its message and the user. */
  datatype Callback = Callback(data: Option<string>, chat: int, username: Option<string>, userId: int)

  /** `commands=["start", "help"]` */
  predicate IsStart(m: Incoming)
  {
    m.text.Some? && (BotLogic.Command(m.text.value) == Some("start") || BotLogic.Command(m.text.value) == Some("help"))
  }

  class InlineBot {
    const lib: Library
    const archiveChannel: int
    var playlistFile: Stored<seq<PlaylistRef>>
    var pending: map<int, Step>
    var sent: seq<Event>
    var logs: seq<string>

    constructor(l: Library, channel: int, playlists: Stored<seq<PlaylistRef>>)
      ensures lib == l && archiveChannel == channel && playlistFile == playlists
      ensures pending == map[] && sent == [] && logs == []
    {
      lib := l;
      archiveChannel := channel;
      playlistFile := playlists;
      pending := map[];
      sent := [];
      logs := [];
    }

    // ---- messages ----

    /** A message: a pending next-step handler of its chat takes it first; otherwise
        /start and /help go to start_handler and anything else is ignored. */
    method OnMessage(m: Incoming, w: World)
      modifies this, lib
      ensures playlistFile == old(playlistFile)
      ensures m.chat in old(pending) ==> pending == PendingAfter(old(pending), m.chat, old(pending)[m.chat], m)
      ensures m.chat in old(pending) && old(pending)[m.chat] == SearchStep ==>
        SearchedAs(old(sent), old(logs), old(lib.songsFile), old(lib.usersFile), old(lib.statsFile), m, w)
      ensures m.chat in old(pending) && old(pending)[m.chat] == AudioStep ==>
        SuggestedAs(old(sent), old(logs), old(lib.songsFile), old(lib.usersFile), old(lib.statsFile), m, w)
      ensures m.chat in old(pending) && old(pending)[m.chat] !in {SearchStep, AudioStep} ==>
        && lib.songsFile == old(lib.songsFile) && lib.usersFile == old(lib.usersFile) && lib.statsFile == old(lib.statsFile)
        && logs == old(logs)
        && sent == if m.text.None? then old(sent) else old(sent) + [SendText(m.chat, StepPrompt(old(pending)[m.chat], m))]
      ensures m.chat !in old(pending) && IsStart(m) ==>
        pending == old(pending) && StartedAs(old(sent), old(logs), old(lib.songsFile), old(lib.usersFile), old(lib.statsFile), m, w)
      ensures m.chat !in old(pending) && !IsStart(m) ==>
        && pending == old(pending) && sent == old(sent) && logs == old(logs)
        && lib.songsFile == old(lib.songsFile) && lib.usersFile == old(lib.usersFile) && lib.statsFile == old(lib.statsFile)
    {
      if m.chat in pending {
        var step := pending[m.chat];
        pending := pending - {m.chat};
        if step == SearchStep {
          HandleSearchQuery(m, w);
        } else if step == AudioStep {
          SuggestAudio(m, w);
        } else if m.text.Some? {
          sent := sent + [SendText(m.chat, StepPrompt(step, m))];
          var next := AfterStep(step, m);
          pending := pending[m.chat := next.value];
        }
      } else if IsStart(m) {
        StartHandler(m, w);
      }
    }

    /** The effect of start_handler: the user recorded, the action counted (an update
        that raises ends the handler there), the arrival logged and the menu sent. */
    ghost predicate StartedAs(sent0: seq<Event>, logs0: seq<string>, songs0: Stored<seq<Song>>,
                              users0: Stored<seq<UserObject>>, stats0: Stored<map<string, StatValue>>, m: Incoming, w: World)
      reads this, lib
    {
      var u := UserObject(Some(m.userId), m.username, m.firstName, Some(m.date));
      var counted := ActionStats(LoadOr(stats0, map[]), "start", w.now);
      && lib.songsFile == songs0
      && lib.usersFile == (if u.id in UserIds(LoadOr(users0, [])) then users0 else Present(Recorded(LoadOr(users0, []), u)))
      && lib.statsFile == (if counted.Some? then Present(counted.value) else stats0)
      && logs == (if counted.Some? then logs0 + ["/start from @" + ShowText(m.username) + " (" + IntToString(m.userId) + ")"] else logs0)
      && sent == (if counted.Some? then sent0 + [SendText(m.chat, MainMenuText)] else sent0)
    }

    /** start_handler */
    method StartHandler(m: Incoming, w: World)
      modifies this, lib
      ensures pending == old(pending) && playlistFile == old(playlistFile)
      ensures StartedAs(old(sent), old(logs), old(lib.songsFile), old(lib.usersFile), old(lib.statsFile), m, w)
    {
      lib.RecordUser(UserObject(Some(m.userId), m.username, m.firstName, Some(m.date)));
      var ok := lib.UpdateStats("start", w.now);
      if !ok {
        return;
      }
      logs := logs + ["/start from @" + ShowText(m.username) + " (" + IntToString(m.userId) + ")"];
      sent := sent + [SendText(m.chat, MainMenuText)];
    }

    /** The effect of handle_search_query: an empty stripped query is refused, no match
        is reported, and otherwise the first five results are sent, the search counted
        and, where counting does not raise, logged. */
    ghost predicate SearchedAs(sent0: seq<Event>, logs0: seq<string>, songs0: Stored<seq<Song>>,
                               users0: Stored<seq<UserObject>>, stats0: Stored<map<string, StatValue>>, m: Incoming, w: World)
      reads this, lib
    {
      var query := Strip(m.text.GetOr(""));
      var results := Search(LoadOr(songs0, []), SearchQuery(query));
      var counted := ActionStats(LoadOr(stats0, map[]), "search", w.now);
      && lib.songsFile == songs0 && lib.usersFile == users0
      && if query == "" then
           sent == sent0 + [SendText(m.chat, "Empty query. Try again.")] && logs == logs0 && lib.statsFile == stats0
         else if results == [] then
           sent == sent0 + [SendText(m.chat, "No results found.")] && logs == logs0 && lib.statsFile == stats0
         else
           && sent == sent0 + ResultEvents(m.chat, FirstFive(results), w.failed)
           && lib.statsFile == (if counted.Some? then Present(counted.value) else stats0)
           && logs == (if counted.Some? then logs0 + ["Search from @" + ShowText(m.username) + ": " + query] else logs0)
    }

    /** handle_search_query */
    method HandleSearchQuery(m: Incoming, w: World)
      modifies this, lib
      ensures pending == old(pending) && playlistFile == old(playlistFile)
      ensures SearchedAs(old(sent), old(logs), old(lib.songsFile), old(lib.usersFile), old(lib.statsFile), m, w)
    {
      var query := Strip(m.text.GetOr(""));
      if query == "" {
        sent := sent + [SendText(m.chat, "Empty query. Try again.")];
        return;
      }
      var results := lib.SearchSongs(query);
      if results == [] {
        sent := sent + [SendText(m.chat, "No results found.")];
        return;
      }
      SendResults(m.chat, FirstFive(results), w.failed);
      var ok := lib.UpdateStats("search", w.now);
      if ok {
        logs := logs + ["Search from @" + ShowText(m.username) + ": " + query];
      }
    }

    /** The loop of handle_search_query: one reply per result, in order. */
    method SendResults(chat: int, top: seq<Song>, failed: set<nat>)
      modifies this
      ensures sent == old(sent) + ResultEvents(chat, top, failed)
      ensures pending == old(pending) && logs == old(logs) && playlistFile == old(playlistFile)
    {
      var i := 0;
      while i < |top|
        invariant 0 <= i <= |top|
        invariant sent == old(sent) + ResultEvents(chat, top[..i], failed)
        invariant pending == old(pending) && logs == old(logs) && playlistFile == old(playlistFile)
      {
        assert top[..i + 1] == top[..i] + [top[i]];
        sent := sent + [ResultEvent(chat, top[i], i !in failed)];
        i := i + 1;
      }
      assert top[..i] == top;
    }

    /** The effect of suggest_step_audio: a failed forward is reported; otherwise the entry
        is stored under a fresh id and confirmed, then counted and logged, a counting error
        being reported as a failure after the entry is stored. */
    ghost predicate SuggestedAs(sent0: seq<Event>, logs0: seq<string>, songs0: Stored<seq<Song>>,
                                users0: Stored<seq<UserObject>>, stats0: Stored<map<string, StatValue>>, m: Incoming, w: World)
      reads this, lib
    {
      var failure := SendText(m.chat, "Failed to save audio: " + w.error);
      && lib.usersFile == users0
      && if w.forwarded.None? then
           sent == sent0 + [failure] && logs == logs0 && lib.songsFile == songs0 && lib.statsFile == stats0
         else
           var songs := LoadOr(songs0, []);
           var stored := SuggestMeta(m.chatData.GetOr(NoDraft), w.forwarded.value, archiveChannel).(id := Some(NextSongId(songs)));
           var confirm := SendText(m.chat, "✅ Added your song! ID: " + ShowInt(stored.id));
           var counted := ActionStats(LoadOr(stats0, map[]), "suggest_song", w.now);
           && lib.songsFile == Present(songs + [stored])
           && lib.statsFile == (if counted.Some? then Present(counted.value) else stats0)
           && sent == (if counted.Some? then sent0 + [confirm] else sent0 + [confirm] + [failure])
           && logs == (if counted.Some? then logs0 + ["New song suggested by @" + ShowText(m.username)] else logs0)
    }

    /** suggest_step_audio */
    method SuggestAudio(m: Incoming, w: World)
      modifies this, lib
      ensures pending == old(pending) && playlistFile == old(playlistFile)
      ensures SuggestedAs(old(sent), old(logs), old(lib.songsFile), old(lib.usersFile), old(lib.statsFile), m, w)
    {
      var draft := m.chatData.GetOr(NoDraft);
      if w.forwarded.None? {
        sent := sent + [SendText(m.chat, "Failed to save audio: " + w.error)];
        return;
      }
      var meta := SuggestMeta(draft, w.forwarded.value, archiveChannel);
      var stored := lib.AddSongMetadata(meta);
      sent := sent + [SendText(m.chat, "✅ Added your song! ID: " + ShowInt(stored.id))];
      var ok := lib.UpdateStats("suggest_song", w.now);
      if ok {
        logs := logs + ["New song suggested by @" + ShowText(m.username)];
      } else {
        sent := sent + [SendText(m.chat, "Failed to save audio: " + w.error)];
      }
    }

    // ---- callbacks ----

    /** handle_menu, for callbacks its filter admits. Returns the song menu_random picked. */
    method OnCallback(c: Callback, w: World) returns (picked: Option<Song>)
      modifies this, lib
      ensures lib.songsFile == old(lib.songsFile) && lib.usersFile == old(lib.usersFile)
      ensures playlistFile == old(playlistFile)
      ensures picked.Some? ==> picked.value in old(lib.AllSongs())
      ensures !MenuFilter(c.data) || Classify(c.data.value) == NoAction ==>
        picked.None? && pending == old(pending) && sent == old(sent) && logs == old(logs) && lib.statsFile == old(lib.statsFile)
      ensures MenuFilter(c.data) && Classify(c.data.value) == RandomAction ==>
        pending == old(pending) && PickedAs(old(sent), old(logs), old(lib.AllSongs()), old(lib.statsFile), c, w, picked)
      ensures MenuFilter(c.data) && Classify(c.data.value) !in {NoAction, RandomAction} ==>
        picked.None? && logs == old(logs) && lib.statsFile == old(lib.statsFile)
      ensures MenuFilter(c.data) && Classify(c.data.value) == GenresAction ==>
        && pending == old(pending)
        && sent == old(sent) + [EditText(c.chat, "Choose a genre:", GenreButtons(Genres(old(lib.AllSongs())))), AnswerCallback(None)]
      ensures MenuFilter(c.data) && Classify(c.data.value) == PlaylistsAction ==>
        && pending == old(pending)
        && sent == old(sent) + (if LoadOr(playlistFile, []) == [] then [AnswerCallback(Some("No playlists available."))]
                                else [EditText(c.chat, "Available playlists:", PlaylistButtons(LoadOr(playlistFile, []))), AnswerCallback(None)])
      ensures MenuFilter(c.data) && Classify(c.data.value) == SearchAction ==>
        && pending == old(pending)[c.chat := SearchStep]
        && sent == old(sent) + [SendText(c.chat, "🔍 Please type what you want to search for:"), AnswerCallback(None)]
      ensures MenuFilter(c.data) && Classify(c.data.value) == SuggestAction ==>
        && pending == old(pending)[c.chat := NameStep]
        && sent == old(sent) + [SendText(c.chat, "Let's add a new song! What is the name?"), AnswerCallback(None)]
      ensures MenuFilter(c.data) && Classify(c.data.value) == BackAction ==>
        && pending == old(pending)
        && sent == old(sent) + [EditText(c.chat, MainMenuText, MainMenu), AnswerCallback(None)]
    {
      picked := None;
      if !MenuFilter(c.data) {
        return;
      }
      var action := Classify(c.data.value);
      if action == RandomAction {
        picked := MenuRandom(c, w);
      } else if action == GenresAction {
        sent := sent + [EditText(c.chat, "Choose a genre:", GenreButtons(Genres(lib.AllSongs()))), AnswerCallback(None)];
      } else if action.GenreAction? || action.PlaylistAction? {
        UnreachableBranches(c.data, "");
        assert false;
      } else if action == PlaylistsAction {
        var pls := LoadOr(playlistFile, []);
        if pls == [] {
          sent := sent + [AnswerCallback(Some("No playlists available."))];
        } else {
          sent := sent + [EditText(c.chat, "Available playlists:", PlaylistButtons(pls)), AnswerCallback(None)];
        }
      } else if action == SearchAction {
        sent := sent + [SendText(c.chat, "🔍 Please type what you want to search for:"), AnswerCallback(None)];
        pending := pending[c.chat := SearchStep];
      } else if action == SuggestAction {
        sent := sent + [SendText(c.chat, "Let's add a new song! What is the name?"), AnswerCallback(None)];
        pending := pending[c.chat := NameStep];
      } else if action == BackAction {
        sent := sent + [EditText(c.chat, MainMenuText, MainMenu), AnswerCallback(None)];
      }
    }

    /** The effect of menu_random: no song (or an empty entry) gives a notice; otherwise the picked song is sent
        and counted and logged, and a failed send, or a count that raises after the send,
        is reported and logged as a failure. */
    ghost predicate PickedAs(sent0: seq<Event>, logs0: seq<string>, songs0: seq<Song>,
                             stats0: Stored<map<string, StatValue>>, c: Callback, w: World, picked: Option<Song>)
      reads this, lib
    {
      && (picked.None? <==> songs0 == [])
      && if picked.None? || picked.value == EmptySong then
           sent == sent0 + [AnswerCallback(Some("No songs available."))] && logs == logs0 && lib.statsFile == stats0
         else
           var s := picked.value;
           var audio := SendAudio(c.chat, ExtractFileId(s.url), SongCaption(s));
           var failure := SendText(c.chat, "Failed to send audio.");
           var counted := ActionStats(LoadOr(stats0, map[]), "send_random", w.now);
           if !w.audioOk then
             && sent == sent0 + [failure] + [AnswerCallback(None)]
             && logs == logs0 + ["Failed to send random: " + w.error] && lib.statsFile == stats0
           else if counted.None? then
             && sent == sent0 + [audio] + [failure] + [AnswerCallback(None)]
             && logs == logs0 + ["Failed to send random: " + w.error] && lib.statsFile == stats0
           else
             && sent == sent0 + [audio] + [AnswerCallback(None)]
             && logs == logs0 + ["Sent random song " + ShowInt(s.id) + " to " + Who(c.username, c.userId)]
             && lib.statsFile == Present(counted.value)
    }

    /** menu_random */
    method MenuRandom(c: Callback, w: World) returns (picked: Option<Song>)
      modifies this, lib
      ensures lib.songsFile == old(lib.songsFile) && lib.usersFile == old(lib.usersFile)
      ensures pending == old(pending) && playlistFile == old(playlistFile)
      ensures picked.Some? ==> picked.value in old(lib.AllSongs())
      ensures PickedAs(old(sent), old(logs), old(lib.AllSongs()), old(lib.statsFile), c, w, picked)
    {
      picked := lib.GetRandomSong();
      if picked.None? || picked.value == EmptySong {
        sent := sent + [AnswerCallback(Some("No songs available."))];
        return;
      }
      var s := picked.value;
      if w.audioOk {
        sent := sent + [SendAudio(c.chat, ExtractFileId(s.url), SongCaption(s))];
        var ok := lib.UpdateStats("send_random", w.now);
        if ok {
          logs := logs + ["Sent random song " + ShowInt(s.id) + " to " + Who(c.username, c.userId)];
        } else {
          sent := sent + [SendText(c.chat, "Failed to send audio.")];
          logs := logs + ["Failed to send random: " + w.error];
        }
      } else {
        sent := sent + [SendText(c.chat, "Failed to send audio.")];
        logs := logs + ["Failed to send random: " + w.error];
      }
      sent := sent + [AnswerCallback(None)];
    }

    // ---- inline queries ----

    /** inline_handler: the query lowered (not stripped), the eligible songs in catalog
        order, at most 25 of them. */
    method InlineHandler(query: string) returns (results: seq<InlineResult>)
      modifies this
      ensures results == Capped(InlineAll(lib.AllSongs(), Lower(query)), 25)
      ensures sent == old(sent) + [AnswerInline(results)]
      ensures pending == old(pending) && logs == old(logs) && playlistFile == old(playlistFile)
    {
      var q := Lower(query);
      var songs := lib.AllSongs();
      results := [];
      var i := 0;
      while i < |songs|
        invariant 0 <= i <= |songs|
        invariant results == InlineAll(songs[..i], q) && |results| < 25
      {
        assert songs[..i + 1][..i] == songs[..i];
        var s := songs[i];
        if Eligible(s, q) {
          results := results + [ResultOf(s)];
          if |results| >= 25 {
            InlinePrefix(songs, i + 1, q);
            break;
          }
        }
        i := i + 1;
      }
      assert i == |songs| ==> songs[..i] == songs;
      sent := sent + [AnswerInline(results)];
    }
  }
}
