/** utils.py: the data directory's JSON files with their defaults, the user list and the
    named counters kept there, and the local log with its optional copy to a log channel. */
module Utils {
  import opened Wrappers
  import opened Text
  import opened Counters
  import opened Users
  import opened Storage

  /** The counters a fresh stats.json holds, all at zero; also what update_stats starts
      from when the file is missing or unreadable. */
  const DefaultStats: map<string, int> := map[
    "registered_users" := 0, "songs_played" := 0, "songs_added" := 0, "playlists_created" := 0,
    "playlists_played" := 0, "messages_replied" := 0, "bot_replies" := 0]

  /** ensure_data_files for one file: a missing file is created with its default, an
      existing one (readable or not) is left alone. */
  function Ensured<T>(f: Stored<T>, default: T): Stored<T>
  {
    if f.Missing? then Present(default) else f
  }

  /** After ensure_data_files every file exists, and a second run changes nothing. */
  lemma EnsuredIdempotent<T>(f: Stored<T>, d1: T, d2: T)
    ensures !Ensured(f, d1).Missing?
    ensures Ensured(Ensured(f, d1), d2) == Ensured(f, d1)
    ensures !f.Missing? ==> Ensured(f, d1) == f
  {
  }

  /** One line of data/log.txt: `[timestamp] text`. */
  function LogLine(timestamp: string, text: string): string
  {
    "[" + timestamp + "] " + text
  }

  /** What add_user logs: the username, or the id when there is none. */
  function NewUserNote(id: int, username: Option<string>): string
  {
    "👤 Новый пользователь добавлен: " + (if username.Some? && username.value != "" then username.value else IntToString(id))
  }

  // ---------------------------------------------------------------------------
  // notify_log's target
  // ---------------------------------------------------------------------------

  /** The configured log channel id: absent, a text, or a number. */
  datatype ChannelId = NoChannel | ChannelText(t: string) | ChannelNumber(n: int)

  /** `not log_channel_id` */
  predicate Falsy(c: ChannelId)
  {
    c.NoChannel? || c == ChannelText("") || c == ChannelNumber(0)
  }

  /** The chat notify_log sends to: `int(str(log_channel_id).strip())`, or None where the
      id is falsy or the conversion raises. */
  function LogTarget(c: ChannelId): (r: Option<int>)
    ensures Falsy(c) ==> r.None?
  {
    if Falsy(c) then None
    else
      match c
      case ChannelText(t) => ParseInt(Strip(t))
      case ChannelNumber(n) => ParseInt(Strip(IntToString(n)))
      case NoChannel => None
  }

  /** A non-zero numeric id is used as it is; a text id is parsed after trimming, so a
      text that is no integer means no send. */
  lemma LogTargetSpec(c: ChannelId)
    ensures c.ChannelNumber? && c.n != 0 ==> LogTarget(c) == Some(c.n)
    ensures c.ChannelText? && c.t != "" ==> LogTarget(c) == ParseInt(Strip(c.t))
  {
    if c.ChannelNumber? && c.n != 0 {
      IntToStringTrimmed(c.n);
      IntRoundTrip(c.n);
    }
  }

  /** A text id holding a decimal integer, with any whitespace around it, names that
      integer's chat; even "0" does, since only the empty text is falsy. */
  lemma LogTargetOfText(lead: string, n: int, trail: string)
    requires AllSpace(lead) && AllSpace(trail)
    ensures LogTarget(ChannelText(lead + IntToString(n) + trail)) == Some(n)
  {
    var s := IntToString(n);
    IntToStringTrimmed(n);
    StripEnds(s);
    StripPadded(lead, s, trail);
    IntRoundTrip(n);
  }

  /** A text id without a single digit makes `int()` raise, so nothing is sent. */
  lemma LogTargetNoDigits(t: string)
    requires NoDigits(t)
    ensures LogTarget(ChannelText(t)).None?
  {
    if t != "" {
      var a, b := StripSlice(t);
      assert NoDigits(Strip(t)) by {
        forall i | 0 <= i < |Strip(t)| ensures !IsDigit(Strip(t)[i]) {
          assert Strip(t)[i] == t[a + i];
        }
      }
      ParseIntNeedsDigit(Strip(t));
    }
  }

  // ---------------------------------------------------------------------------
  // The data directory
  // ---------------------------------------------------------------------------

  /** data/: users.json, songs.json, playlists.json, stats.json, user_state.json, the
      lines of log.txt, and the messages sent to the log channel. */
  class DataDir {
    var usersFile: Stored<seq<UserRecord>>
    var songsFile: Stored<seq<Json>>
    var playlistsFile: Stored<seq<Json>>
    var statsFile: Stored<map<string, int>>
    var userStateFile: Stored<map<string, Json>>
    var log: seq<string>
    var sent: seq<(int, string)>

    constructor(users: Stored<seq<UserRecord>>, stats: Stored<map<string, int>>)
      ensures usersFile == users && statsFile == stats
      ensures songsFile.Missing? && playlistsFile.Missing? && userStateFile.Missing?
      ensures log == [] && sent == []
    {
      usersFile := users;
      songsFile := Missing;
      playlistsFile := Missing;
      statsFile := stats;
      userStateFile := Missing;
      log := [];
      sent := [];
    }

    /** ensure_data_files() */
    method EnsureDataFiles()
      modifies this
      ensures usersFile == Ensured(old(usersFile), [])
      ensures songsFile == Ensured(old(songsFile), [])
      ensures playlistsFile == Ensured(old(playlistsFile), [])
      ensures statsFile == Ensured(old(statsFile), DefaultStats)
      ensures userStateFile == Ensured(old(userStateFile), map[])
      ensures log == old(log) && sent == old(sent)
    {
      usersFile := Ensured(usersFile, []);
      songsFile := Ensured(songsFile, []);
      playlistsFile := Ensured(playlistsFile, []);
      statsFile := Ensured(statsFile, DefaultStats);
      userStateFile := Ensured(userStateFile, map[]);
    }

    /** log_action(text): one line appended to the local log; `timestamp` stands for the
        wall-clock time. */
    method LogAction(text: string, timestamp: string)
      modifies this
      ensures log == old(log) + [LogLine(timestamp, text)]
      ensures usersFile == old(usersFile) && statsFile == old(statsFile) && sent == old(sent)
      ensures songsFile == old(songsFile) && playlistsFile == old(playlistsFile) && userStateFile == old(userStateFile)
    {
      log := log + [LogLine(timestamp, text)];
    }

    /** update_stats(key, amount) */
    method UpdateStats(key: string, amount: int)
      modifies this
      ensures statsFile == Present(Increment(LoadOr(old(statsFile), DefaultStats), key, amount))
      ensures usersFile == old(usersFile) && log == old(log) && sent == old(sent)
      ensures songsFile == old(songsFile) && playlistsFile == old(playlistsFile) && userStateFile == old(userStateFile)
    {
      statsFile := Present(Increment(LoadOr(statsFile, DefaultStats), key, amount));
    }

    /** add_user(user): a new id is appended with `username or ""` and the time `now`,
        then registered_users is counted and the arrival logged; a known id changes
        nothing. */
    method AddUser(id: int, username: Option<string>, now: string, timestamp: string) returns (added: bool)
      modifies this
      ensures added <==> !Known(LoadOr(old(usersFile), []), id)
      ensures added ==>
        && usersFile == Present(Users.AddUser(LoadOr(old(usersFile), []), id, username, "", now).0)
        && statsFile == Present(Increment(LoadOr(old(statsFile), DefaultStats), "registered_users", 1))
        && log == old(log) + [LogLine(timestamp, NewUserNote(id, username))]
      ensures !added ==> usersFile == old(usersFile) && statsFile == old(statsFile) && log == old(log)
      ensures sent == old(sent) && songsFile == old(songsFile) && playlistsFile == old(playlistsFile)
      ensures userStateFile == old(userStateFile)
    {
      var users := LoadOr(usersFile, []);
      var (updated, appended) := Users.AddUser(users, id, username, "", now);
      added := appended;
      if added {
        usersFile := Present(updated);
        UpdateStats("registered_users", 1);
        LogAction(NewUserNote(id, username), timestamp);
      }
    }

    /** notify_log(bot, log_channel_id, text): always logged locally; sent to the channel
        when its id converts to an int; a failed send (`delivered` false, with the error
        text `failure`) is logged in turn. */
    method NotifyLog(channel: ChannelId, text: string, timestamp: string, delivered: bool, failure: string)
      modifies this
      ensures LogTarget(channel).None? ==> log == old(log) + [LogLine(timestamp, text)] && sent == old(sent)
      ensures LogTarget(channel).Some? && delivered ==>
        log == old(log) + [LogLine(timestamp, text)] && sent == old(sent) + [(LogTarget(channel).value, text)]
      ensures LogTarget(channel).Some? && !delivered ==>
        && log == old(log) + [LogLine(timestamp, text)]
                  + [LogLine(timestamp, "⚠️ notify_log: failed to send to " + IntToString(LogTarget(channel).value) + ": " + failure)]
        && sent == old(sent)
      ensures usersFile == old(usersFile) && statsFile == old(statsFile)
      ensures songsFile == old(songsFile) && playlistsFile == old(playlistsFile) && userStateFile == old(userStateFile)
    {
      LogAction(text, timestamp);
      var target := LogTarget(channel);
      if target.None? {
        return;
      }
      if delivered {
        sent := sent + [(target.value, text)];
      } else {
        LogAction("⚠️ notify_log: failed to send to " + IntToString(target.value) + ": " + failure, timestamp);
      }
    }
  }
}
