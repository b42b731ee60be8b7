/**
 * `SessionManager`: the map from session id to that session's history list,
 * which keeps only the 20 most recent messages of each session.
 */
module Sessions {
  import opened Wrappers
  import opened Text
  import opened History

  /** The number of messages a session keeps. */
  const MaxHistory := 20

  /** A history after `m` is appended and the list is cut back to its last 20 entries. */
  function Appended(history: seq<Message>, m: Message): (r: seq<Message>)
    ensures 0 < |r| <= MaxHistory && r[|r| - 1] == m
    ensures |history| < MaxHistory ==> r == history + [m]
    ensures |history| >= MaxHistory ==> |r| == MaxHistory && r[..|r| - 1] == history[|history| - MaxHistory + 1..]
  {
    Last(history + [m], MaxHistory)
  }

  /** Appending to a full history drops exactly its oldest message. */
  lemma AppendedToFullDropsOldest(history: seq<Message>, m: Message)
    requires |history| == MaxHistory
    ensures Appended(history, m) == history[1..] + [m]
  {
    var r := Appended(history, m);
    assert r[..|r| - 1] == history[1..];
    assert r == r[..|r| - 1] + [r[|r| - 1]];
  }

  /** The message before the new one is the old history's last. */
  lemma AppendedKeepsLast(history: seq<Message>, m: Message)
    requires history != []
    ensures |Appended(history, m)| >= 2
    ensures Appended(history, m)[|Appended(history, m)| - 2] == history[|history| - 1]
  {
    var r := Appended(history, m);
    if |history| >= MaxHistory {
      assert r[|r| - 2] == r[..|r| - 1][|r| - 2];
    }
  }

  class SessionManager {
    /** `self.sessions`, each entry reduced to its "conversation_history" list. */
    var sessions: map<string, MessageList>
    /** The list objects the store has handed out. */
    ghost var Repr: set<MessageList>

    /** Every session has its own list object, and no list is longer than 20 messages. */
    ghost predicate Valid()
      reads this, Repr
    {
      && (forall id | id in sessions :: sessions[id] in Repr)
      && (forall a, b | a in sessions && b in sessions && a != b :: sessions[a] != sessions[b])
      && (forall id | id in sessions :: |sessions[id].items| <= MaxHistory)
    }

    constructor ()
      ensures sessions == map[] && Valid()
    {
      sessions := map[];
      Repr := {};
    }

    /**
     * `get_or_create_session`: a missing id means a fresh one (`freshId`, the
     * uuid the call draws); an id not yet known is registered with a new empty list.
     */
    method GetOrCreateSession(sessionId: Option<string>, freshId: string) returns (id: string, history: MessageList)
      requires Valid()
      modifies this
      ensures Valid() && old(Repr) <= Repr && fresh(Repr - old(Repr))
      ensures id == (if sessionId.Some? then sessionId.value else freshId)
      ensures id in sessions && history == sessions[id]
      ensures id in old(sessions) ==> sessions == old(sessions)
      ensures id !in old(sessions) ==> sessions == old(sessions)[id := history] && fresh(history) && history.items == []
      ensures sessions.Keys == old(sessions.Keys) + {id}
      ensures forall other | other in old(sessions) :: sessions[other] == old(sessions[other])
    {
      id := if sessionId.Some? then sessionId.value else freshId;
      if id !in sessions {
        var created := new MessageList([]);
        sessions := sessions[id := created];
        Repr := Repr + {created};
      }
      history := sessions[id];
    }

    /**
     * `add_message`: appends to the session's list object, then, past 20
     * messages, stores a new list holding the last 20. Holders of the old list
     * object still see it with the message appended. Unknown ids are ignored.
     */
    method AddMessage(id: string, role: string, content: string)
      requires Valid()
      modifies this, Repr
      ensures Valid() && old(Repr) <= Repr && fresh(Repr - old(Repr))
      ensures sessions.Keys == old(sessions.Keys)
      ensures id !in old(sessions) ==> sessions == old(sessions) && Repr == old(Repr)
      ensures id in old(sessions) ==>
        && old(sessions[id]).items == old(sessions[id].items) + [Turn(role, content)]
        && sessions[id].items == Appended(old(sessions[id].items), Turn(role, content))
        && (|old(sessions[id].items)| < MaxHistory ==> sessions[id] == old(sessions[id]))
        && (|old(sessions[id].items)| >= MaxHistory ==> fresh(sessions[id]))
      ensures forall other | other in old(sessions) && other != id ::
        sessions[other] == old(sessions[other]) && sessions[other].items == old(sessions[other].items)
    {
      if id in sessions {
        var list := sessions[id];
        list.Append(Turn(role, content));
        if |list.items| > MaxHistory {
          var trimmed := new MessageList(list.items[|list.items| - MaxHistory..]);
          sessions := sessions[id := trimmed];
          Repr := Repr + {trimmed};
        }
      }
    }

    /** `get_session_count` */
    function SessionCount(): (n: nat)
      reads this
      ensures n == |sessions.Keys|
    {
      |sessions|
    }

    /** `clear_session`: drops the id if present; nothing else changes. */
    method ClearSession(id: string)
      requires Valid()
      modifies this
      ensures Valid() && Repr == old(Repr)
      ensures sessions == old(sessions) - {id}
      ensures SessionCount() == old(SessionCount()) - (if id in old(sessions) then 1 else 0)
    {
      if id in sessions {
        sessions := sessions - {id};
      }
    }
  }
}
