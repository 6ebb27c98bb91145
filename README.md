# A verified model of a Telegram music bot

The repository holds several near-duplicate Telegram music bots that share small JSON
stores: a song catalog, playlists, users and named counters.

- **bot.py** is a reply-keyboard bot. A per-chat `step` drives it: language, menu, random
  song, genres, search, playlists, the prev/next player and suggesting a song.
- **handlers.py** is an inline-keyboard bot over `utilits.py`. It offers a menu, search, a
  suggestion chain of next-step handlers and inline queries.
- **handlers/** holds the aiogram handlers: the genre player, the suggestion and upload
  conversations, and the genre keyboard.
- **utils.py, user_state.py, song_utils.py** are per-user record stores and catalog helpers.

The model gives each source file its own Dafny module. The pure helpers become functions,
and each gets lemmas for what the code promises. The stateful handlers become classes whose
fields are the stores and the sessions, with `modifies` clauses. What a handler sends is
appended to an event sequence on the class. Each bot.py handler's effect is a predicate
(`AfterStart`, `AfterRandom`, …) relating the new fields to a `State` snapshot taken before
the message. `OnText` promises the effect of the handler that dispatch picks.

Error paths are modelled, not excluded:

- A Python `KeyError` or `AttributeError` becomes `None`, `Raised`, `Crashed` or `ok == false`.
- Any mutation made before the exception is kept, as in Python.

Every world input is a parameter: whether a send goes through, the forwarded message, the
clock, and the text of an exception.

| module | file | models |
|---|---|---|
| `Wrappers`, `Text`, `Order`, `Storage` | wrappers.dfy, text.dfy, order.dfy, storage.dfy | `Option`, Python string operations (`lower`, `strip`, `in`, `replace`, `split`, `str`/`int`), ordering for `sorted(set(...))`, a JSON file that is missing, unreadable or present |
| `Catalog`, `Utilits` | catalog.dfy, utilits.dfy | utilits.py: the catalog queries, id minting, the `file_id:` codec, users, stats; class `Library` over the three files |
| `Counters`, `Users`, `Utils` | records.dfy, utils.dfy | shared counter and user-list logic; utils.py's data directory, log and `notify_log` |
| `UserState` | user_state.dfy | user_state.py over a map keyed by `str(user_id)` |
| `SongUtils` | song_utils.dfy | song_utils.py, class `SongFile` |
| `BotData`, `BotLogic`, `Bot` | bot_data.dfy, bot_logic.dfy, bot.dfy | bot.py: load filter, lookups, playlist ids, prev/next stepping, search numbering, dispatch order, and class `MusicBot` with one method per handler |
| `Handlers` | handlers.dfy | handlers.py, class `InlineBot` |
| `Player`, `Suggest`, `Upload`, `Genres` | player.dfy, suggest.dfy, upload.dfy, genres.dfy | the handlers/ files |

Some defects in the code are stated outright as lemmas about the code as written.

- **handlers.py, `genre:` and `playlist:` branches:** `handle_menu` has these branches, but its
  filter admits only `menu_` data. So the branches never run, and every genre or playlist
  button is dead (`Handlers.UnreachableBranches`, `Handlers.ListedButtonsDead`).
- **handlers.py, suggestion chain:** the chain stores its draft on the individual message
  object. So the song the audio step stores has no name, artist, genre or language
  (`Handlers.SuggestMetaSpec`).
- **handlers/upload.py, `len(songs) + 1`:** this new id collides with a stored id unless the
  stored ids are exactly 1..n (`Upload.UploadIdCollides`).
- **Archive links:** the three links are built three ways.
  - handlers/suggest.py drops four characters unconditionally.
  - handlers.py removes every `-100`.
  - bot.py strips a `-100` prefix, or else the minus signs.

  They agree only for `-100…` channel ids (`Suggest.ArchiveLinkAgainstBot`,
  `Handlers.SuggestLinkSpec`).

Some of the code's behaviour is easy to misread, and the model keeps it as written:

- **bot.py prev/next steps through the pool:** it plays `(i ± 1) % len(pool)` from the last
  song's position. It neither shuffles nor avoids repeats.
- **Registration order decides dispatch:** the step handlers registered before the player
  controls take the control texts first. These are the steps `choose_lang`, `choose_genre`,
  `genre_loop`, `search`, `search_choose`, `playlists_menu`, `choose_playlist_from_list`,
  `choose_playlist_from_public`, `creating_playlist_name` and `creating_playlist_public`.
  The controls win in every other state, including `add_to_playlist_choose` and the
  from-add playlist steps, which are registered after them (`BotLogic.ControlsPrecedence`).
- **Empty search:** bot.py and handlers.py refuse an empty query without searching, while
  `utilits.search_songs("")` matches every song.
- **A failed archive send drops the session:** in bot.py's `handle_get_lang_song`, the
  failure removes the chat's session instead of leaving it alone.
- **Unknown language raises:** a `LOCALES[lang]` lookup with an unknown language raises
  inside the handler. The model returns `Raised`; nothing converts it into a message.

## Model

| member | source | states |
|---|---|---|
| Catalog.ByGenre | utilits.py:45-47 | the kept songs are exactly the catalog songs whose genre (absent read as "") equals the argument ignoring case |
| Catalog.ByGenreAppend | utilits.py:45-47 | filtering distributes over concatenation, so catalog order and multiplicity are kept |
| Catalog.ByGenreOfSingle | utilits.py:47 | one song is kept exactly when its genre matches |
| Catalog.ByGenreCaseInsensitive | utilits.py:47 | the genre asked for is compared ignoring case: lowering it changes nothing |
| Catalog.GenreLabels | utilits.py:42 | one label per song, in order: its genre, or "Unknown" when absent |
| Catalog.GenresSpec | utilits.py:40-43 | get_genres is strictly sorted (hence duplicate-free), each entry is some song's label and every song's label is listed |
| Catalog.RockScenario | utilits.py:45-47 | rock, rock, pop filtered by "ROCK" gives the two rock songs in order |
| Utilits.Search | utilits.py:49-56 | the results are exactly the catalog songs whose name, artist, genre or language contains the query, in catalog order |
| Utilits.SearchAppend | utilits.py:51-56 | the search distributes over concatenation, so the results come in catalog order with multiplicity |
| Utilits.SearchEmptyQuery | utilits.py:50-55 | an empty query matches every song |
| Utilits.MaxStoredId | utilits.py:64 | the maximum of the stored ids (absent as 0) bounds every id and is attained |
| Utilits.NextSongIdFresh | utilits.py:62-66 | the new id is 1 for an empty catalog, exceeds every stored id, and is one more than an attained id |
| Utilits.ExtractFileId | utilits.py:71-79 | None exactly for an absent or empty url; text after a leading "file_id:"; otherwise the url itself |
| Utilits.ExtractRoundTrip | utilits.py:71-79 | "file_id:" + x decodes to x |
| Utilits.Recorded | utilits.py:82-87 | the user is appended unless its id is stored; the list only grows by that one user |
| Utilits.RecordedIdempotent | utilits.py:82-87 | recording twice equals recording once |
| Utilits.RecordedIff | utilits.py:84-87 | the list changes exactly when the id is new |
| Utilits.ActionStats | utilits.py:89-96 | total_actions + 1, last_action set, last_updated set only when absent, other keys kept; None where the stored total is no number |
| Utilits.ActionStatsTwice | utilits.py:89-96 | two updates count two, keep the second action and the first timestamp |
| Utilits.Library.GetRandomSong | utilits.py:34-38 | None exactly for an empty catalog, otherwise a member of the catalog |
| Utilits.Library.SearchSongs | utilits.py:49-56 | the loop returns Search of the stored catalog for the lowered, stripped query |
| Utilits.Library.AddSongMetadata | utilits.py:58-69 | the stored song is the input with the next id; it is appended last, earlier songs kept, other files untouched |
| Utilits.Library.RecordUser | utilits.py:82-87 | users.json becomes Recorded(...) and is written only when it grows |
| Utilits.Library.UpdateStats | utilits.py:89-96 | ok exactly when ActionStats succeeds; the file then holds its result, otherwise it is unchanged |
| Counters.Increment | bot.py:209-212 | the key gets its old value (0 when absent) plus the amount; every other counter is unchanged |
| Counters.IncrementTwice | utils.py:91-102 | two increments of a counter add up |
| Counters.IncrementCommutes | utils.py:91-102 | increments of different counters commute |
| Users.AddUser | bot.py:332-343 | appends `{id, username or "аноним", now}` exactly when the id is unknown, and reports whether it did |
| Users.AddUserIdempotent | bot.py:332-343 | a second add of the same id changes nothing and reports no append |
| Users.AddUserKeepsOthers | utils.py:72-87 | the list only grows and earlier records are kept |
| Utils.EnsuredIdempotent | utils.py:49-68 | every file exists afterwards, existing files are never overwritten, a second run changes nothing |
| Utils.LogTarget | utils.py:126-131 | a falsy channel id sends nothing |
| Utils.LogTargetSpec | utils.py:126-131 | a non-zero numeric id is used as is; a non-empty text id goes through `int(str(...).strip())` |
| Utils.LogTargetOfText | utils.py:126-133 | a text id holding a decimal integer with any surrounding whitespace names that chat, even "0", since only the empty text is falsy |
| Utils.LogTargetNoDigits | utils.py:128-131 | a text id without a digit makes `int()` raise, so nothing is sent |
| Utils.DataDir.EnsureDataFiles | utils.py:49-68 | each missing file is created with its default and every present file is left as it is |
| Utils.DataDir.LogAction | utils.py:106-115 | exactly one line `[ts] text` appended to the local log |
| Utils.DataDir.UpdateStats | utils.py:91-102 | stats.json holds Increment of the loaded (or default) counters; nothing else changes |
| Utils.DataDir.AddUser | utils.py:72-87 | appends exactly when the id is unknown; then registered_users + 1 and one log line; otherwise nothing changes |
| Utils.DataDir.NotifyLog | utils.py:118-135 | always logs locally; sends to the parsed channel when there is one; a failed send adds a warning line |
| UserState.Normalise | user_state.py:37-40 | missing genre and last_song_id become null, a missing or non-list played becomes [], every other field is kept |
| UserState.NormaliseIdempotent | user_state.py:36-40 | normalising a normal state changes nothing; the default state is normal |
| UserState.GetUserStateSpec | user_state.py:24-40 | the result always has the normal shape; a stored entry's normalisation is not written back |
| UserState.UnreadableFileReplaced | user_state.py:7-15 | a missing file or one holding no object is replaced by one holding only this user's entry, on reading and on saving |
| UserState.SaveScope | user_state.py:42-47 | saving one user's state leaves every other entry unchanged, and reading it back gives the saved state normalised |
| UserState.KeysOfIds | user_state.py:30 | different numbers address different entries; a number and its decimal text address the same one |
| UserState.UserStates.GetUserState | user_state.py:24-40 | returns StateOf the old file; the file is written only for a missing or non-object entry, with the default |
| UserState.UserStates.SaveUserState | user_state.py:42-47 | ok exactly for an object state; then the user's entry is replaced, otherwise nothing changes (ValueError) |
| UserState.UserStates.ResetPlayed | user_state.py:49-52 | the file becomes get_user_state's file with the user's state saved with played = [] |
| UserState.ResetPlayedSpec | user_state.py:49-52 | afterwards played is empty, genre and last_song_id are what get_user_state returned, other users unchanged |
| SongUtils.TracksByGenre | song_utils.py:30-32 | None exactly when a record has no genre; otherwise at most the input's length |
| SongUtils.TracksByGenreAppend | song_utils.py:30-32 | the filter distributes over concatenation, so catalog order and multiplicity are kept; the whole raises exactly when a half does |
| SongUtils.TracksByGenreMembers | song_utils.py:30-32 | every kept track matches and every matching track is kept |
| SongUtils.FirstWithId | song_utils.py:34-39 | Found only a record with that id, NotFound only when every record has another id, MissingId only when some record has no id (KeyError) |
| SongUtils.FirstWithIdExact | song_utils.py:36-39 | Found exactly when a record with the id comes before any record without an id; KeyError exactly when a record without an id comes first |
| SongUtils.FirstWithIdIsFirst | song_utils.py:34-39 | the found record is the first with that id |
| SongUtils.AddThenLookup | song_utils.py:17-39 | after appending under an unused id, looking the id up finds the new record |
| SongUtils.SongFile.LoadSongs | song_utils.py:6-11 | returns the stored list; a missing file is created holding [] |
| SongUtils.SongFile.AddSong | song_utils.py:17-28 | exactly one record with the given fields is appended and returned, earlier ones kept |
| SongUtils.SongFile.GetSongsByGenre | song_utils.py:30-32 | returns TracksByGenre of the stored list |
| SongUtils.SongFile.GetSongById | song_utils.py:34-39 | the loop returns FirstWithId of the stored list |
| BotData.KeepPlayable | bot.py:178 | keeps exactly the object entries with an id and a truthy url, in order |
| BotData.LoadSongs | bot.py:168-179 | a list or a {"songs": [...]} object is filtered to its playable songs; anything else loads as [] |
| BotData.AsRecords | bot.py:181-182 | save_songs writes one object per song, in order |
| BotData.SaveLoad | bot.py:168-182 | saving playable songs and loading them again gives the same list |
| BotData.FindSong | bot.py:319-327 | a found song is in the catalog with that id; None exactly when no song has it or the id is absent |
| BotData.FindSongFirst | bot.py:319-327 | the first song with the id is the one returned |
| BotData.FirstIndex | bot.py:766 | the index of the first playlist with that id (and owner), or none matches |
| BotData.MaxId | bot.py:542-549 | the largest playlist id bounds all and is attained |
| BotData.NextPlaylistId | bot.py:542-549 | 1 for no playlists, else exceeds every id and is one more than an attained id |
| BotData.NewPlaylist | bot.py:658-679 | the new playlist is appended last with the next id; the earlier ones are kept |
| BotData.NewPlaylistFound | bot.py:542-549 | the new id is fresh: looking it up (with or without owner) finds the new playlist |
| BotData.FirstIndexAt | bot.py:766 | the first match is what FirstIndex reports |
| BotData.OwnedBy | bot.py:593 | exactly the user's playlists |
| BotData.PublicOnes | bot.py:605 | exactly the public playlists |
| BotData.Choices | bot.py:598-615 | the answer keys are exactly the listed ids as text, each mapping to the id it spells |
| BotData.ChoicesLookup | bot.py:622-644 | a key that is listed parses to the id of a listed playlist |
| BotData.AddToPlaylist | bot.py:763-785 | a crash exactly when int(pid) fails; added or already-there only for the user's own playlist with that id |
| BotData.AddToPlaylistFirstMatch | bot.py:766-784 | once the id parses, the first own playlist with it is the one used: no remembered song, already there, or the song appended to that playlist alone |
| BotData.AddToPlaylistNotFound | bot.py:765-769 | with no playlists, or no playlist of the user with the parsed id, the answer is not found |
| BotData.AddToPlaylistIdempotent | bot.py:763-785 | adding the same song again reports already-there and changes nothing |
| BotLogic.ChooseLanguage | bot.py:362-370 | "en" exactly when the text has 🇬🇧 and not 🇷🇺, otherwise "ru" |
| BotLogic.Pool | bot.py:693-700 | genre mode: exactly the songs of the genre ignoring case; otherwise the whole catalog |
| BotLogic.IndexOfId | bot.py:706-711 | the first position holding the id, or none does |
| BotLogic.Position | bot.py:704-711 | the start position lies in a non-empty pool |
| BotLogic.Neighbour | bot.py:712-715 | next is i+1 wrapping to 0, prev is i-1 wrapping to the end, always inside the pool |
| BotLogic.StepModulo | bot.py:712-715 | Python's `(i ± 1) % n` on an index wraps at both ends |
| BotLogic.PositionOfMember | bot.py:706-711 | with distinct ids a pool song is found at its own position |
| BotLogic.NeighbourRoundTrip | bot.py:692-719 | with distinct ids, next then prev (or prev then next) returns to the same song |
| BotLogic.NeighbourFromStart | bot.py:704-715 | without a last song, next plays the second song and prev the last |
| BotLogic.FoundSongs | bot.py:479 | exactly the catalog songs whose name or artist contains the query |
| BotLogic.FoundPlaylists | bot.py:480 | exactly the playlists whose name contains the query and that are public or the searcher's |
| BotLogic.SearchHits | bot.py:484-495 | songs first, then playlists, each once, in order |
| BotLogic.NumberedAt | bot.py:488 | key "k" stands for the k-th hit |
| BotLogic.NumberedKey | bot.py:494 | the only keys are "1".."n" |
| BotLogic.NumberResults | bot.py:481-495 | the loop produces exactly SearchHits and its numbering |
| BotLogic.SearchChoiceMeaning | bot.py:505-537 | a choice is listed exactly when it is some "k" in 1..n; it names the k-th song or the (k-n_songs)-th playlist |
| BotLogic.Seed | bot.py:816-822 | [int(sid)] when the remembered id is truthy, otherwise [] |
| BotLogic.StripDashes | bot.py:900 | lstrip("-") leaves a suffix that does not start with "-" |
| BotLogic.ArchiveShortSpec | bot.py:896-901 | a "-100" prefix is dropped; otherwise the result is the absolute value's digits |
| BotLogic.Command | bot.py:348 | a command exactly for a text starting with "/" |
| BotLogic.TellArgument | bot.py:930-934 | a present argument is non-empty and starts with no space |
| BotLogic.TellArgumentOf | bot.py:930-934 | "/tell msg" gives msg and a bare "/tell" gives none |
| BotLogic.FirstWordPrefix | bot.py:348 | the first word of a word followed by a space is that word |
| BotLogic.StartAlwaysWins | bot.py:348-357 | /start reaches cmd_start in any state |
| BotLogic.ControlsPrecedence | bot.py:685-745 | a control text reaches the player controls exactly unless the chat's step has a handler registered earlier, which takes it instead |
| BotLogic.ControlTextsAreNoButtons | bot.py:685 | no control text is a command or a menu button |
| BotLogic.StepHandlerTakesText | bot.py:362-920 | in a step with its own handler every non-/start text goes there, controls excepted in the later steps |
| BotLogic.FallbackOtherwise | bot.py:964-984 | with no session or in the audio step (no text handler), a non-control text that is no /start, /tell or /stats reaches the fallback |
| BotLogic.RouteNeeds | bot.py:436-920 | each step handler is picked only in its own step, the controls only for a control text |
| Bot.Deletes | bot.py:266-270 | one deletion per remembered message, in order |
| Bot.AudioRef | bot.py:283-292 | the url without "file_id:" if accepted, else the text after the first "file_id:" if accepted, else None |
| Bot.AudioRefOfFileId | bot.py:283-285 | a stored "file_id:x" sends x |
| Bot.PlaylistAudio | bot.py:551-572 | at most one audio per id, each to the chat and accepted |
| Bot.PlaylistAudioUnknown | bot.py:551-572 | ids missing from the catalog send nothing |
| Bot.Announcements | bot.py:935-943 | the message goes exactly to every reachable registered user |
| Bot.DeleteAll | bot.py:266-270 | the loop emits exactly Deletes |
| Bot.SendPlaylistSongs | bot.py:551-572 | the loop emits exactly PlaylistAudio and counts it |
| Bot.Broadcast | bot.py:935-943 | the loop emits exactly Announcements and counts the deliveries |
| Bot.MusicBot.AddUserRecord | bot.py:332-343 | users.json becomes AddUser(...); registered_users + 1 exactly when appended |
| Bot.MusicBot.ClearLastMessages | bot.py:266-270 | the remembered messages are deleted and forgotten |
| Bot.MusicBot.SendSongWithControls | bot.py:275-314 | old pair deleted, audio or failure notice sent, song remembered and counted only when sent, new ids remembered |
| Bot.MusicBot.HandleStart | bot.py:348-357 | register the user, the session becomes choose_lang/ru, ask for the language |
| Bot.MusicBot.HandleChooseLang | bot.py:362-370 | the session becomes menu with ChooseLanguage(text); welcome sent and counted |
| Bot.MusicBot.HandleRandom | bot.py:375-390 | no session raises; empty catalog notice; otherwise a catalog member is played in random mode |
| Bot.MusicBot.HandleGenres | bot.py:395-411 | the sorted distinct genres are offered and the step becomes choose_genre |
| Bot.MusicBot.HandleChooseGenre | bot.py:413-434 | back to the menu, a no-songs notice, or a song of that genre played in genre mode |
| Bot.MusicBot.HandleGenreLoop | bot.py:436-455 | menu word back to the menu, more word another song of the genre, otherwise a reminder |
| Bot.MusicBot.HandleSearchStart | bot.py:460-467 | the step becomes search before the query prompt's lookup |
| Bot.MusicBot.HandleSearchQuery | bot.py:469-503 | empty query re-asked; no hits back to the menu; otherwise the numbered hits are shown and remembered |
| Bot.MusicBot.ShowSearchHits | bot.py:496-503 | the no-hit and result branches' new session and messages |
| Bot.MusicBot.PlayPlaylist | bot.py:551-572 | old pair deleted; an empty playlist notice, or every playable song sent and songs_played, playlists_played counted |
| Bot.MusicBot.HandleSearchChoose | bot.py:505-537 | menu word back; a listed key plays that song or playlist; anything else an invalid choice with the step kept |
| Bot.MusicBot.HandlePlaylistsMenu | bot.py:574-581 | the step becomes playlists_menu |
| Bot.MusicBot.HandlePlaylistsAction | bot.py:583-620 | create, list own, list public or back, each with its step |
| Bot.MusicBot.HandleChoosePlaylist | bot.py:622-644 | menu word back; a listed id plays that playlist; anything else refused |
| Bot.MusicBot.HandlePlaylistName | bot.py:646-656 | a blank name asks again; otherwise the stripped name is remembered and the visibility step follows (also 787-797) |
| Bot.MusicBot.HandlePlaylistPublic | bot.py:658-679 | the playlist with the next id, the owner and the answer's visibility is appended; from the add flow it is seeded (also 799-824) |
| Bot.MusicBot.HandlePlayerControls | bot.py:685-745 | prev/next play the neighbour in the pool (empty pool: notice only); add offers the own playlists; menu returns |
| Bot.MusicBot.HandleAddChoose | bot.py:748-785 | create, back, or add the remembered song to the chosen own playlist, then the menu |
| Bot.MusicBot.AddChosen | bot.py:763-785 | the "ID:" choice: AddToPlaylist's outcome saved and reported |
| Bot.MusicBot.HandleSuggestStart | bot.py:829-835 | the step becomes audio |
| Bot.MusicBot.OnAudio | bot.py:837-847 | only in the audio step the file id is remembered and the step becomes name |
| Bot.MusicBot.HandleSuggestField | bot.py:849-874 | name, artist, genre each stored, advancing one step |
| Bot.MusicBot.HandleLangSong | bot.py:876-920 | archive failure drops the session; otherwise the entry is appended with the archive link, counted, and the lookup of the song's language decides whether the thanks go out |
| Bot.MusicBot.HandleTell | bot.py:925-945 | non-admins refused, a bare /tell gets the usage, otherwise every reachable user gets the message and the admin the count |
| Bot.MusicBot.HandleStats | bot.py:950-959 | only the admin gets the report; nothing changes |
| Bot.MusicBot.HandleFallback | bot.py:964-984 | no session: register and ask the language; otherwise menu word to the menu or a hint |
| Bot.MusicBot.RunMenuHandler | bot.py:348-455 | /start, the language step, random, genres, the genre step and the genre loop: the message has the chosen handler's effect |
| Bot.MusicBot.RunSearchHandler | bot.py:460-537 | the search button, query and choice: the message has the chosen handler's effect |
| Bot.MusicBot.RunPlaylistHandler | bot.py:574-824 | the playlist steps, the player controls and the add flow: the message has the chosen handler's effect |
| Bot.MusicBot.RunSuggestOrAdminHandler | bot.py:829-984 | the suggest steps, /tell, /stats and the fallback: the message has the chosen handler's effect |
| Bot.MusicBot.OnText | bot.py:348-984 | the handler run is Route's first match; the new sessions, messages, counters and files are that handler's effect (`Served`), and a step handler runs only in its step |
| Handlers.UnreachableBranches | handlers.py:48-114 | data the filter admits never selects the genre: or playlist: branch; genre: and playlist: data are not admitted |
| Handlers.GenreButtons | handlers.py:73-77 | one button per genre with data "genre:"+g, then Back |
| Handlers.PlaylistButtons | handlers.py:106-109 | one button per playlist, name or "Unnamed", data "playlist:"+str(id), then Back |
| Handlers.ListedButtonsDead | handlers.py:48-113 | every listed genre or playlist button is rejected by the filter; Back and the main-menu buttons pass |
| Handlers.FirstFive | handlers.py:156 | a prefix of the results of length min(5, n) |
| Handlers.ResultEvents | handlers.py:156-162 | one reply per result in order: audio, or the caption as text when that send fails |
| Handlers.SearchRepliesSpec | handlers.py:156-162 | at most five replies, to the chat, audio exactly where the send did not fail |
| Handlers.InlineAll | handlers.py:225-236 | at most one result per song |
| Handlers.InlinePrefix | handlers.py:225-238 | the results for a prefix of the catalog start the results for the whole |
| Handlers.InlineMembers | handlers.py:225-236 | a result is listed exactly for a song that matches and has a non-empty file id |
| Handlers.InlineEmptyQuery | handlers.py:226 | an empty query lists every song with a file id |
| Handlers.Capped | handlers.py:237-238 | at most 25, a prefix, all when there are fewer |
| Handlers.ChainOrder | handlers.py:167-199 | name, artist, genre, lang, audio one step per message; an empty name keeps the name step |
| Handlers.SuggestLinkSpec | handlers.py:206 | removing "-100" drops a leading "-100" and otherwise changes nothing; agrees with bot.py only for -100 ids |
| Handlers.SuggestMetaSpec | handlers.py:202-211 | the stored url decodes to the forwarded file id (none when absent); with no draft the entry has no name, artist, genre or language |
| Handlers.InlineBot.OnMessage | handlers.py:133-217 | a pending step handler takes the message first and is replaced by the next one; otherwise /start, /help or nothing |
| Handlers.InlineBot.StartHandler | handlers.py:28-45 | record the user, count start; if counting raises stop, else log and send the menu |
| Handlers.InlineBot.HandleSearchQuery | handlers.py:147-164 | empty stripped query refused, no results reported, else the first five sent, counted, logged |
| Handlers.InlineBot.SendResults | handlers.py:156-162 | the loop sends exactly ResultEvents |
| Handlers.InlineBot.SuggestAudio | handlers.py:201-217 | forward failure reported; else stored under the next id and confirmed, counted and logged, a counting error reported after the store |
| Handlers.InlineBot.OnCallback | handlers.py:48-144 | nothing unless the filter admits the data; each menu branch's messages and registered step |
| Handlers.InlineBot.MenuRandom | handlers.py:55-69 | no song (or an empty entry) answers notice; else the pick is a catalog member, sent, counted and logged, failures reported and logged |
| Handlers.InlineBot.InlineHandler | handlers.py:220-239 | the loop with its break returns Capped(InlineAll(catalog, lower(query)), 25) and answers it |
| Genres.ChooseGenre | handlers/genres.py:11-17 | None exactly when a song has no genre; else one button per genre in Genres order with data "genre_"+g |
| Genres.ChooseGenreSpec | handlers/genres.py:14 | the genres are strictly sorted and exactly the songs' genres |
| Genres.DecodeEncode | handlers/genres.py:15-21 | "genre_"+g is routed and decodes to g when g has no "genre_" |
| Genres.DecodeEncodeLossy | handlers/genres.py:21 | the genre "genre_x" decodes to "x" |
| Genres.StrictFilter | handlers/genres.py:22 | None exactly when a song has no genre; else exactly the songs of the genre ignoring case |
| Genres.SendGenre | handlers/genres.py:19-32 | KeyError when a genre is missing; alert exactly for no match; a sent audio is some matching song's |
| Player.TrackIds | handlers/player.py:17 | None exactly when a track has no id; else the ids in order |
| Player.StepsClamped | handlers/player.py:34-38 | prev and next stay in range, stop at the ends and undo each other inside |
| Player.GenrePlayer.GenreChoice | handlers/player.py:11-24 | no tracks: reply, no session; else session {genre, ids, 0} and the first track played |
| Player.GenrePlayer.CallbackPlayer | handlers/player.py:26-63 | missing session answers only; save favourites the current id; menu leaves the session; prev/next store the clamped index and show that track |
| Suggest.RouteSpec | handlers/suggest.py:17-44 | the start text wins in any state; an audio is taken only in waiting_audio |
| Suggest.ArchiveLinkAgainstBot | handlers/suggest.py:57 | equal to bot.py's link for -100 ids, different for every other id |
| Suggest.SuggestFlow.OnMessage | handlers/suggest.py:17-75 | each handler's state, data and reply; the states advance audio, name, artist, genre, lang |
| Suggest.SuggestFlow.GetLang | handlers/suggest.py:46-75 | archive failure changes nothing; log failure keeps the state; else the entry is logged, thanks sent, state cleared; the logged entry has the archive message id, the final text as language, and bot.py's link exactly for -100 channels |
| Suggest.EntryLinkAgainstBot | handlers/suggest.py:57-66 | the logged entry's link equals the one bot.py builds for the same archive message exactly when the channel id starts with -100 |
| Upload.NextOrder | handlers/upload.py:13-48 | the states advance one at a time; only a non-audio first message stays; genre ends |
| Upload.UploadIdFreshForDenseIds | handlers/upload.py:43-44 | with ids exactly 1..n the new id is fresh |
| Upload.UploadIdCollides | handlers/upload.py:43-44 | with one stored id 2, the next upload also gets 2 and the lookup finds the old track |
| Upload.Uploader.UploadStart | handlers/upload.py:13-15 | prompt and wait for audio |
| Upload.Uploader.OnMessage | handlers/upload.py:13-48 | the state's handler runs: new state Next(s, m), data and replies per state, a track only at the genre step |
| Upload.Uploader.AudioReceived | handlers/upload.py:17-24 | a non-audio message is warned and kept; an audio stored and the state advanced |
| Upload.Uploader.NameReceived | handlers/upload.py:26-29 | the name stored, artist next |
| Upload.Uploader.ArtistReceived | handlers/upload.py:31-34 | the artist stored, genre next |
| Upload.Uploader.GenreReceived | handlers/upload.py:36-48 | the track {len+1, name, artist, genre text, file_id} appended and confirmed, the FSM finished |
| Text.Lower | utilits.py:50 | same length; each character goes through the ASCII and basic Cyrillic lower-case mapping |
| Text.LowerIdempotent | utilits.py:50 | lower-casing twice is lower-casing once |
| Text.StripTrimmed | handlers.py:148 | strip leaves no leading or trailing blank |
| Text.ContainsIff | utilits.py:54 | `q in s` exactly when q occurs at some index |
| Text.RemoveAllAbsent | handlers/genres.py:21 | replace leaves a text without the pattern unchanged |
| Text.AfterFirstDefined | bot.py:287 | `split(sep, 1)[1]` exists exactly when sep occurs |
| Text.IntRoundTrip | bot.py:766 | int(str(i)) == i |
| Order.SortedDistinct | utilits.py:42 | sorted(set(xs)): strictly sorted with the same members |

## Left out

- Telegram transport (send, edit, forward, delete, answer): only the effect of each call is kept, as an event or a success/failure input. The one exception is bot.py's log posts, on the next line.
- Bot.MusicBot: bot.py's `log_action` (bot.py:217-223) is not modelled. It prints the text and posts it to `LOG_CHANNEL_ID` when one is set, swallowing any error, so it never changes state or raises. The handlers that call it therefore show no log post in `outbox`: AddUserRecord, HandleStart, HandleChooseLang, HandleRandom, HandleChooseGenre, HandleGenreLoop, HandleSearchChoose, PlayPlaylist, HandleChoosePlaylist, HandlePlaylistPublic, HandlePlayerControls, AddChosen, HandleLangSong and HandleTell.
- File I/O and JSON parsing: the files are values that are missing, unreadable or present. `Stored` does not distinguish JSON `null` from an absent key.
- BotData.LoadSongs: a `{"songs": ...}` object whose value is neither a list nor iterable (`{"songs": 5}`) makes bot.py's comprehension raise TypeError. `SongsFile` cannot hold such a value, so this crash is not modelled.
- Threads and timers: bot.py's `heartbeat`, utils.py's `start_heartbeat` and `time.sleep`. They concern timing only.
- Clock values (`time.time()`, `utcnow()`): parameters. `random.choice`: a membership pick, not a distribution.
- firebase_utils.py is not part of this model. `Player` takes what its lookups return as inputs, and it assumes the sessions are written only by the player.
- handlers/player.py `listen_music_handler`: it only sends the genre keyboard.
- keyboards.py, texts.py and LOCALES strings: the key names stand in for the texts.
- config.py, loader.py, main.py and the router glue in handlers/start.py, menu.py, start_menu.py and random_song.py: startup and one-line wiring.
- utilits.py `log_action`: delivering a log line to the channel named by the environment is I/O. `Handlers` keeps the line in `logs`.
- bot.py `/stats` text formatting: only the permission check and the absence of effects are modelled.
- `str.lower` is modelled for ASCII and basic Cyrillic letters. `str.strip` uses Python's full `str.isspace` set. `int()`'s underscores and Unicode digits are not modelled.
- Song and playlist ids are taken to be integers when present, and playlist records to be well formed.
- song_utils.py's file is a value holding the list of records; its JSON encoding is not modelled.
- Handlers.InlineBot.OnMessage: telebot keeps a list of next-step handlers per chat and runs all of them. The model keeps one per chat; a second registration replaces the first.
- Handlers.InlineBot.OnMessage: `message.text.strip()` on a message without text raises. The model records the raise and leaves the step dropped.
- Handlers.InlineBot.OnCallback: the `genre:` and `playlist:` branch bodies are not modelled: the filter makes them unreachable (`UnreachableBranches`).
- `Handlers` models handlers.py alone. When imported next to bot.py on the same bot object, bot.py's earlier-registered handlers would also compete for the same updates.
- handlers/upload.py is never registered on a router or dispatcher. `Upload.Uploader.OnMessage` routes by state as if it were.
