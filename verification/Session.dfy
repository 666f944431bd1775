/** internal/engine/session.go, with the parts of engine.go that act on it: the history, the
    in-flight flag and the one-slot channel of the background summariser. */
module Session {
  import opened Wrappers
  import opened Messages

  /** A finished summarisation. Both pointers of the source can be nil. */
  datatype Summary = Summary(remaining: Option<seq<Message>>)

  datatype Pending = Pending(result: Option<Summary>, snapshotLen: int)

  /** The part of a session that turns and workers share. */
  datatype Core = Core(history: seq<Message>, summarizing: bool, channelMade: bool, slot: Option<Pending>)

  /** Whether reconcileHistory takes a result or discards it. */
  predicate Applicable(history: seq<Message>, p: Pending) {
    && p.result.Some? && p.result.value.remaining.Some?
    && 0 <= p.snapshotLen <= |history|
  }

  /** The compacted history followed by what was appended after the snapshot, found by index. */
  function Splice(history: seq<Message>, p: Pending): seq<Message> {
    if Applicable(history, p) then p.result.value.remaining.value + history[p.snapshotLen..] else history
  }

  class Session {
    const conversationId: string
    var history: seq<Message>
    var summarizing: bool
    var channelMade: bool
    var slot: Option<Pending>

    ghost predicate Valid()
      reads this
    {
      !channelMade ==> slot == None
    }

    function State(): Core
      reads this
    {
      Core(history, summarizing, channelMade, slot)
    }

    constructor (conversationId: string)
      ensures Valid() && State() == Core([], false, false, None) && this.conversationId == conversationId
    {
      this.conversationId := conversationId;
      history, summarizing, channelMade, slot := [], false, false, None;
    }

    method InitAsync()
      requires Valid()
      modifies this
      ensures Valid() && State() == old(State()).(channelMade := true)
    {
      if !channelMade {
        channelMade := true;
      }
    }

    method AppendMessage(m: Message)
      requires Valid()
      modifies this`history
      ensures Valid() && history == old(history) + [m]
    {
      history := history + [m];
    }

    method GetHistory() returns (copy: seq<Message>)
      ensures copy == history
    {
      copy := history;
    }

    /** Merges a result into the history, or leaves the history alone. */
    method ReconcileHistory(p: Pending)
      requires Valid() && p.result.Some?
      modifies this`history
      ensures Valid() && history == Splice(old(history), p)
    {
      var currentLen := |history|;
      if p.snapshotLen < 0 || p.snapshotLen > currentLen {
        return;
      }
      if p.result.value.remaining == None {
        return;
      }
      var newMessages: seq<Message> := [];
      if currentLen > p.snapshotLen {
        newMessages := history[p.snapshotLen..];
      }
      history := p.result.value.remaining.value + newMessages;
    }

    /** The top of every turn: a non-blocking receive, then the merge. */
    method ApplyPendingSummary()
      requires Valid()
      modifies this`history, this`slot
      ensures Valid() && slot == None
      ensures history == if old(slot).Some? then Splice(old(history), old(slot).value) else old(history)
    {
      if !channelMade || slot == None {
        return;
      }
      var p := slot.value;
      slot := None;
      if p.result == None {
        return;
      }
      ReconcileHistory(p);
    }

    /** The end of a successful turn: at most one worker, and it works on a copy. */
    method StartSummarization() returns (snapshot: Option<seq<Message>>)
      requires Valid()
      modifies this
      ensures Valid() && history == old(history) && slot == old(slot) && summarizing
      ensures snapshot == if old(summarizing) then None else Some(history)
      ensures channelMade == (old(channelMade) || !old(summarizing))
    {
      if summarizing {
        return None;
      }
      summarizing := true;
      InitAsync();
      var copy := GetHistory();
      snapshot := Some(copy);
    }

    /** A worker's delivery when nobody else touches the channel: the newest result wins. */
    method Deliver(p: Pending)
      requires Valid() && channelMade
      modifies this`slot
      ensures Valid() && slot == Some(p)
    {
      if slot == None {
        slot := Some(p);
      } else {
        slot := None;
        slot := Some(p);
      }
    }

    method FinishWorker()
      requires Valid()
      modifies this`summarizing
      ensures Valid() && !summarizing
    {
      summarizing := false;
    }
  }
}
