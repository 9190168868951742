/**
 * BotHandler: the object the update callback runs on. It owns the table of
 * open media groups, updated in place, and hands videos to ProcessVideoAsync.
 * Here each hand-off is appended to `relays` (what the relay then does is
 * module Relay), each lock-protected region is one method, and the timer that
 * fires 2000 ms after a group opens is an explicit call of FlushMediaGroup.
 */
module Handler {
  import opened Wrappers
  import opened Media
  import opened Dispatch
  import opened Albums

  class BotHandler {
    /** Open media groups by grouped_id. */
    var mediaGroups: map<int, Group>
    /** Calls of ProcessVideoAsync so far, in the order they were made. */
    var relays: seq<Call>

    function State(): BotState
      reads this
    {
      BotState(mediaGroups, relays)
    }

    /** Every open group holds only video fragments of its own key. */
    ghost predicate Valid()
      reads this
    {
      TableKeyed(mediaGroups)
    }

    constructor ()
      ensures Valid()
      ensures State() == BotState(map[], [])
    {
      mediaGroups := map[];
      relays := [];
    }

    /** The update callback: every new user message whose sender resolves is handled, in list order. */
    method HandleUpdatesInternal(arg: Incoming)
      requires Valid()
      modifies this
      ensures Valid()
      ensures State() == AfterIncoming(old(State()), arg)
      ensures arg.Updates? ==> State() == AfterEvents(old(State()), Resolved(arg.list, arg.directory))
    {
      if arg.NotUpdates? {
        return;
      }
      var list, directory := arg.list, arg.directory;
      var i := 0;
      while i < |list|
        invariant 0 <= i <= |list|
        invariant Valid()
        invariant State() == AfterUpdates(old(State()), list[..i], directory)
      {
        assert list[..i + 1][..i] == list[..i];
        var u := list[i];
        if u.NewMessage? && u.content.UserMessage? {
          var message := u.content.message;
          if message.peer in directory {
            var targetPeer := directory[message.peer];
            HandleMessage(message, targetPeer);
          }
        }
        i := i + 1;
      }
      assert list[..i] == list;
      BatchIsRun(old(State()), list, directory);
    }

    /** Videos of an album go to the table, other videos to the relay; anything else is ignored. */
    method HandleMessage(message: Message, targetPeer: InputPeer)
      requires Valid()
      modifies this
      ensures Valid()
      ensures State() == AfterMessage(old(State()), message, targetPeer)
    {
      if IsVideoMessage(message) {
        if message.groupedId != 0 {
          var _ := HandleMediaGroup(message, targetPeer);
        } else {
          ProcessVideo(message, targetPeer);
        }
      }
    }

    /**
     * The locked region of HandleMediaGroupAsync: open the group with this
     * peer (and start its timer) when the key is absent, then append the message.
     */
    method HandleMediaGroup(message: Message, targetPeer: InputPeer) returns (timerStarted: bool)
      requires Valid()
      requires RouteOf(message) == ToGroup(message.groupedId)
      modifies this
      ensures Valid()
      ensures timerStarted <==> message.groupedId !in old(mediaGroups)
      ensures mediaGroups == Offer(old(mediaGroups), message.groupedId, message, targetPeer)
      ensures mediaGroups.Keys == old(mediaGroups.Keys) + {message.groupedId}
      ensures timerStarted ==> mediaGroups[message.groupedId] == Group([message], targetPeer)
      ensures !timerStarted ==>
                mediaGroups[message.groupedId] ==
                Group(old(mediaGroups[message.groupedId].messages) + [message], old(mediaGroups[message.groupedId].peer))
      ensures forall k :: k in old(mediaGroups) && k != message.groupedId ==> mediaGroups[k] == old(mediaGroups[k])
      ensures relays == old(relays)
    {
      var groupId := message.groupedId;
      timerStarted := groupId !in mediaGroups;
      if timerStarted {
        mediaGroups := mediaGroups[groupId := Group([], targetPeer)];
      }
      var g := mediaGroups[groupId];
      mediaGroups := mediaGroups[groupId := Group(g.messages + [message], g.peer)];
    }

    /**
     * The delayed task: take the group out of the table under the lock (no-op
     * if it is gone), then relay its messages one by one, in arrival order.
     */
    method FlushMediaGroup(groupId: int)
      requires Valid()
      modifies this
      ensures Valid()
      ensures State() == AfterFlush(old(State()), groupId)
      ensures groupId !in mediaGroups
      ensures forall k :: k in mediaGroups ==> k in old(mediaGroups) && mediaGroups[k] == old(mediaGroups[k])
    {
      if groupId !in mediaGroups {
        return;
      }
      var messages, peer := mediaGroups[groupId].messages, mediaGroups[groupId].peer;
      mediaGroups := mediaGroups - {groupId};
      ghost var before := relays;
      var i := 0;
      while i < |messages|
        invariant 0 <= i <= |messages|
        invariant mediaGroups == old(mediaGroups) - {groupId}
        invariant Valid()
        invariant relays == before + CallsFor(messages[..i], peer)
      {
        assert CallsFor(messages[..i + 1], peer) == CallsFor(messages[..i], peer) + [Call(messages[i], peer)];
        ProcessVideo(messages[i], peer);
        i := i + 1;
      }
      assert messages[..i] == messages;
    }

    /** The hand-off of one message to ProcessVideoAsync. */
    method ProcessVideo(message: Message, targetPeer: InputPeer)
      modifies this
      ensures relays == old(relays) + [Call(message, targetPeer)]
      ensures mediaGroups == old(mediaGroups)
    {
      relays := relays + [Call(message, targetPeer)];
    }
  }
}
