/** The channel-to-session table the bot keeps across restarts in `.sessions.json`. */
module SessionManagement {
  import opened Common

  /** What reading and parsing the session file gives at start-up. */
  datatype SessionFile = Missing | Unparsable | Parsed(entries: map<string, string>)

  /** `SessionManager`. `persisted` is the content of the session file as last written by
      `save`, or `None` while the manager has not written it. */
  class SessionManager {
    var sessions: map<string, string>
    var persisted: Option<map<string, string>>

    /** The constructor, with `load`: every pair of a parsed file is copied; a missing or
        unparsable file leaves the table empty. Nothing is written. */
    constructor(file: SessionFile)
      ensures sessions == (if file.Parsed? then file.entries else map[])
      ensures persisted == None
    {
      sessions := map[];
      persisted := None;
      if file.Parsed? {
        sessions := file.entries;
      }
    }

    /** `getSessionId`. */
    function GetSessionId(channelId: string): (id: Option<string>)
      reads this
      ensures id.Some? <==> channelId in sessions
      ensures id.Some? ==> id.value == sessions[channelId]
    {
      if channelId in sessions then Some(sessions[channelId]) else None
    }

    /** The file holds exactly the table. */
    predicate Synced()
      reads this
    {
      persisted == Some(sessions)
    }

    /** `save`: the whole table is written. */
    method Save()
      modifies this
      ensures sessions == old(sessions) && Synced()
    {
      persisted := Some(sessions);
    }

    /** `setSessionId`: afterwards the channel maps to the id, every other channel keeps its
        entry, and the file holds the new table. */
    method SetSessionId(channelId: string, sessionId: string)
      modifies this
      ensures GetSessionId(channelId) == Some(sessionId)
      ensures forall c :: c != channelId ==> GetSessionId(c) == old(GetSessionId(c))
      ensures sessions == old(sessions)[channelId := sessionId] && Synced()
    {
      sessions := sessions[channelId := sessionId];
      Save();
    }

    /** `deleteSessionId`: afterwards the channel has no session, every other channel keeps its
        entry, and the file holds the new table. */
    method DeleteSessionId(channelId: string)
      modifies this
      ensures GetSessionId(channelId) == None
      ensures forall c :: c != channelId ==> GetSessionId(c) == old(GetSessionId(c))
      ensures sessions == old(sessions) - {channelId} && Synced()
    {
      sessions := sessions - {channelId};
      Save();
    }
  }

  /** After a restart the table is what was last saved: loading the file a manager wrote gives a
      manager whose every lookup agrees. */
  method Restart(m: SessionManager) returns (reloaded: SessionManager)
    requires m.Synced()
    ensures forall c :: reloaded.GetSessionId(c) == m.GetSessionId(c)
  {
    reloaded := new SessionManager(Parsed(m.persisted.value));
  }
}
