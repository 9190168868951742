/**
 * What a run of events does to the table and to the relay hand-offs. An
 * event is a message arriving (with the peer its update resolved to) or the
 * timer of some group firing; every album has its own timer, so other
 * albums' flushes may fire between two fragments of one album. The fragments
 * of an album are collected in arrival order behind the peer of the first
 * fragment, nothing else disturbs them, none of them is relayed before the
 * album's own flush, and that flush hands each to the relay once, in order.
 */
module Albums {
  import opened Wrappers
  import opened Media
  import opened Dispatch

  datatype Event = Arrive(message: Message, peer: InputPeer) | TimerFires(groupId: int)

  function AfterEvent(s: BotState, e: Event): BotState
  {
    match e
    case Arrive(m, peer) => AfterMessage(s, m, peer)
    case TimerFires(groupId) => AfterFlush(s, groupId)
  }

  /** The events of a run, handled in list order. */
  function AfterEvents(s: BotState, events: seq<Event>): BotState
  {
    if events == [] then s
    else AfterEvent(AfterEvents(s, events[..|events| - 1]), events[|events| - 1])
  }

  /** The event is a message that HandleMessageAsync sends to group `groupId`. */
  predicate RoutedTo(e: Event, groupId: int)
  {
    e.Arrive? && RouteOf(e.message) == ToGroup(groupId)
  }

  /** The run does not contain the firing of group `groupId`'s timer. */
  predicate NoTimerFor(events: seq<Event>, groupId: int)
  {
    forall i :: 0 <= i < |events| ==> events[i] != TimerFires(groupId)
  }

  /** The messages of the run routed to group `groupId`, in arrival order. */
  function Album(events: seq<Event>, groupId: int): (album: seq<Message>)
    ensures album == [] <==> forall j :: 0 <= j < |events| ==> !RoutedTo(events[j], groupId)
  {
    if events == [] then []
    else
      var init, last := events[..|events| - 1], events[|events| - 1];
      assert forall j :: 0 <= j < |init| ==> init[j] == events[j];
      Album(init, groupId) + (if RoutedTo(last, groupId) then [last.message] else [])
  }

  /** The peer of the first message of the run routed to group `groupId`. */
  function AlbumPeer(events: seq<Event>, groupId: int): (p: Option<InputPeer>)
    ensures p.Some? <==> Album(events, groupId) != []
    ensures p.Some? ==>
      exists i :: 0 <= i < |events| && RoutedTo(events[i], groupId) && p.value == events[i].peer
                  && forall j :: 0 <= j < i ==> !RoutedTo(events[j], groupId)
  {
    if events == [] then None
    else
      var init, last := events[..|events| - 1], events[|events| - 1];
      assert forall j :: 0 <= j < |init| ==> init[j] == events[j];
      if AlbumPeer(init, groupId).Some? then AlbumPeer(init, groupId)
      else if RoutedTo(last, groupId) then
        assert RoutedTo(events[|events| - 1], groupId);
        Some(last.peer)
      else None
  }

  /** The hand-offs of the single videos of the run, in arrival order. */
  function Singles(events: seq<Event>): seq<Call>
  {
    if events == [] then []
    else
      var last := events[|events| - 1];
      Singles(events[..|events| - 1]) + (if last.Arrive? && RouteOf(last.message) == RelayNow then [Call(last.message, last.peer)] else [])
  }

  /** Every open group holds only messages routed to its own key. */
  predicate TableKeyed(groups: map<int, Group>)
  {
    forall k, i :: k in groups && 0 <= i < |groups[k].messages| ==> RouteOf(groups[k].messages[i]) == ToGroup(k)
  }

  /** The new user messages of an update batch whose senders resolve, in list order. */
  function Resolved(us: seq<Update>, directory: map<PeerRef, InputPeer>): (events: seq<Event>)
    ensures forall i :: 0 <= i < |events| ==> events[i].Arrive?
  {
    if us == [] then []
    else
      var tail := match Resolve(us[|us| - 1], directory)
        case None => []
        case Some((m, peer)) => [Arrive(m, peer)];
      Resolved(us[..|us| - 1], directory) + tail
  }

  /** An update batch acts exactly as the run of the messages it resolves to. */
  lemma {:induction false} BatchIsRun(s: BotState, us: seq<Update>, directory: map<PeerRef, InputPeer>)
    ensures AfterUpdates(s, us, directory) == AfterEvents(s, Resolved(us, directory))
  {
    if us != [] {
      var init := us[..|us| - 1];
      BatchIsRun(s, init, directory);
      var before := Resolved(init, directory);
      match Resolve(us[|us| - 1], directory)
      case None =>
        assert Resolved(us, directory) == before;
      case Some((m, peer)) =>
        assert (before + [Arrive(m, peer)])[..|before|] == before;
    }
  }

  /** In a run of arrivals only, single videos are handed to the relay at once, in arrival order. */
  lemma {:induction false} SinglesRelayedAtOnce(s: BotState, events: seq<Event>)
    requires forall i :: 0 <= i < |events| ==> events[i].Arrive?
    ensures AfterEvents(s, events).relays == s.relays + Singles(events)
  {
    if events != [] {
      SinglesRelayedAtOnce(s, events[..|events| - 1]);
    }
  }

  /**
   * After a run in which group `groupId`'s timer does not fire, the entry of
   * `groupId` is its earlier entry with its fragments appended in arrival
   * order, or, if it was not open, a new entry holding exactly those
   * fragments and replying to the peer of the first one; it is not opened
   * without a fragment.
   */
  lemma {:induction false} TableAfterEvents(s: BotState, events: seq<Event>, groupId: int)
    requires NoTimerFor(events, groupId)
    ensures var t := AfterEvents(s, events);
      && (groupId in t.groups <==> groupId in s.groups || Album(events, groupId) != [])
      && (groupId in s.groups ==>
            t.groups[groupId] == Group(s.groups[groupId].messages + Album(events, groupId), s.groups[groupId].peer))
      && (groupId !in s.groups && Album(events, groupId) != [] ==>
            t.groups[groupId] == Group(Album(events, groupId), AlbumPeer(events, groupId).value))
  {
    if events != [] {
      var init, last := events[..|events| - 1], events[|events| - 1];
      assert NoTimerFor(init, groupId) by {
        forall i | 0 <= i < |init| ensures init[i] != TimerFires(groupId) {
          assert init[i] == events[i];
        }
      }
      assert last == events[|events| - 1];
      TableAfterEvents(s, init, groupId);
      if groupId in s.groups && RoutedTo(last, groupId) {
        assert s.groups[groupId].messages + Album(init, groupId) + [last.message]
            == s.groups[groupId].messages + (Album(init, groupId) + [last.message]);
      }
    }
  }

  /**
   * From a table whose entries hold only their own fragments, a run keeps it
   * so, only appends to the relays, and none of the appended hand-offs is a
   * fragment of a group whose timer does not fire in the run.
   */
  lemma {:induction false} NoEarlyRelay(s: BotState, events: seq<Event>, groupId: int)
    requires TableKeyed(s.groups)
    requires NoTimerFor(events, groupId)
    ensures var t := AfterEvents(s, events);
      && TableKeyed(t.groups)
      && |s.relays| <= |t.relays| && t.relays[..|s.relays|] == s.relays
      && forall i :: |s.relays| <= i < |t.relays| ==> RouteOf(t.relays[i].message) != ToGroup(groupId)
  {
    if events != [] {
      var init, last := events[..|events| - 1], events[|events| - 1];
      assert NoTimerFor(init, groupId) by {
        forall i | 0 <= i < |init| ensures init[i] != TimerFires(groupId) {
          assert init[i] == events[i];
        }
      }
      NoEarlyRelay(s, init, groupId);
      var before := AfterEvents(s, init);
      var t := AfterEvent(before, last);
      match last
      case Arrive(m, peer) =>
        if RouteOf(m).ToGroup? {
          var k := RouteOf(m).groupId;
          forall j, i | j in t.groups && 0 <= i < |t.groups[j].messages|
            ensures RouteOf(t.groups[j].messages[i]) == ToGroup(j)
          {
            if j == k && i == |t.groups[j].messages| - 1 {
              assert t.groups[j].messages[i] == m;
            } else if j == k {
              assert t.groups[j].messages[i] == before.groups[j].messages[i];
            }
          }
        }
      case TimerFires(k) =>
        assert k != groupId by { assert events[|events| - 1] == last; }
        if k in before.groups {
          var g := before.groups[k];
          assert t.relays == before.relays + CallsFor(g.messages, g.peer);
          forall i | |s.relays| <= i < |t.relays|
            ensures RouteOf(t.relays[i].message) != ToGroup(groupId)
          {
            if i >= |before.relays| {
              assert t.relays[i] == Call(g.messages[i - |before.relays|], g.peer);
            } else {
              assert t.relays[i] == before.relays[i];
            }
          }
        }
    }
  }

  /**
   * An album whose key was not open, collected over any run in which its
   * own timer does not fire, and then flushed, is handed to the relay
   * exactly in arrival order, each fragment once, replying to the first
   * fragment's peer; the key leaves the table and every other entry is as
   * the run left it.
   */
  lemma AlbumRelayedInOrder(s: BotState, events: seq<Event>, groupId: int)
    requires groupId !in s.groups
    requires NoTimerFor(events, groupId)
    requires Album(events, groupId) != []
    ensures var collected := AfterEvents(s, events);
      var t := AfterFlush(collected, groupId);
      && t.relays == collected.relays + CallsFor(Album(events, groupId), AlbumPeer(events, groupId).value)
      && t.groups == collected.groups - {groupId}
  {
    TableAfterEvents(s, events, groupId);
  }

  /**
   * Three fragments of one album arriving one after another, then the timer:
   * one flush relays all three in arrival order, replying to the first
   * fragment's peer.
   */
  lemma ThreeFragmentAlbum(s: BotState, m1: Message, m2: Message, m3: Message, p1: InputPeer, p2: InputPeer, p3: InputPeer)
    requires m1.groupedId !in s.groups && m1.groupedId != 0
    requires m2.groupedId == m1.groupedId && m3.groupedId == m1.groupedId
    requires IsVideoMessage(m1) && IsVideoMessage(m2) && IsVideoMessage(m3)
    ensures var t := AfterEvents(s, [Arrive(m1, p1), Arrive(m2, p2), Arrive(m3, p3), TimerFires(m1.groupedId)]);
      t.relays == s.relays + [Call(m1, p1), Call(m2, p1), Call(m3, p1)] && t.groups == s.groups
  {
    var g := m1.groupedId;
    var e1, e2, e3 := Arrive(m1, p1), Arrive(m2, p2), Arrive(m3, p3);
    var run := [e1, e2, e3];
    assert (run + [TimerFires(g)])[..3] == run;
    assert run[..2] == [e1, e2] && [e1, e2][..1] == [e1] && [e1][..0] == [];
    assert RouteOf(m1) == ToGroup(g) && RouteOf(m2) == ToGroup(g) && RouteOf(m3) == ToGroup(g);
    assert [] + [m1] == [m1] && [m1] + [m2] == [m1, m2] && [m1, m2] + [m3] == [m1, m2, m3];
    assert s.groups[g := Group([m1], p1)][g := Group([m1, m2], p1)] == s.groups[g := Group([m1, m2], p1)];
    assert s.groups[g := Group([m1, m2], p1)][g := Group([m1, m2, m3], p1)] == s.groups[g := Group([m1, m2, m3], p1)];
    assert AfterEvents(s, [e1]) == BotState(s.groups[g := Group([m1], p1)], s.relays);
    assert AfterEvents(s, [e1, e2]) == BotState(s.groups[g := Group([m1, m2], p1)], s.relays);
    var collected := BotState(s.groups[g := Group([m1, m2, m3], p1)], s.relays);
    assert AfterEvents(s, run) == collected;
    assert collected.groups - {g} == s.groups;
    assert CallsFor([m1, m2, m3], p1) == [Call(m1, p1), Call(m2, p1), Call(m3, p1)];
    var all := [e1, e2, e3, TimerFires(g)];
    assert all == run + [TimerFires(g)] && all[..3] == run;
    assert AfterEvents(s, all) == AfterFlush(collected, g);
    assert AfterFlush(collected, g) == BotState(s.groups, s.relays + [Call(m1, p1), Call(m2, p1), Call(m3, p1)]);
  }
}
