/**
 * The bot's dispatch logic as functions on values: where a message goes
 * (HandleMessageAsync), what an offer and a flush do to the table of open
 * media groups (HandleMediaGroupAsync and its delayed task), and the effect
 * of a whole batch of updates (HandleUpdatesInternal). The class in module
 * Handler is proved against these functions.
 */
module Dispatch {
  import opened Wrappers
  import opened Media

  /** An open media group: its messages in arrival order and the peer to reply to. */
  datatype Group = Group(messages: seq<Message>, peer: InputPeer)

  /** One hand-off of a message to ProcessVideoAsync, with the peer it replies to. */
  datatype Call = Call(message: Message, peer: InputPeer)

  /** The table of open groups, keyed by grouped_id, and the hand-offs made so far, in order. */
  datatype BotState = BotState(groups: map<int, Group>, relays: seq<Call>)

  /** What HandleMessageAsync does with a message. */
  datatype Route = Ignore | ToGroup(groupId: int) | RelayNow

  function RouteOf(m: Message): (r: Route)
    ensures r == Ignore <==> !IsVideoMessage(m)
    ensures r == RelayNow <==> IsVideoMessage(m) && m.groupedId == 0
    ensures r.ToGroup? ==> r.groupId == m.groupedId && r.groupId != 0
  {
    if !IsVideoMessage(m) then Ignore
    else if m.groupedId != 0 then ToGroup(m.groupedId)
    else RelayNow
  }

  /** The offer: open the group with this peer if it is absent, then append the message. */
  function Offer(groups: map<int, Group>, groupId: int, m: Message, peer: InputPeer): (after: map<int, Group>)
    ensures after.Keys == groups.Keys + {groupId}
    ensures after[groupId].messages ==
              (if groupId in groups then groups[groupId].messages else []) + [m]
    ensures after[groupId].peer == if groupId in groups then groups[groupId].peer else peer
    ensures forall k :: k in groups && k != groupId ==> after[k] == groups[k]
  {
    var g := if groupId in groups then groups[groupId] else Group([], peer);
    groups[groupId := Group(g.messages + [m], g.peer)]
  }

  /** The timer's flush: take the group out of the table; None when it is absent. */
  function Flush(groups: map<int, Group>, groupId: int): (r: (map<int, Group>, Option<Group>))
    ensures r.0.Keys == groups.Keys - {groupId}
    ensures forall k :: k in r.0 ==> r.0[k] == groups[k]
    ensures r.1 == if groupId in groups then Some(groups[groupId]) else None
  {
    if groupId in groups then (groups - {groupId}, Some(groups[groupId])) else (groups, None)
  }

  /** The hand-offs for a list of messages, all replying to one peer, in list order. */
  function CallsFor(messages: seq<Message>, peer: InputPeer): (calls: seq<Call>)
    ensures |calls| == |messages|
    ensures forall i :: 0 <= i < |messages| ==> calls[i] == Call(messages[i], peer)
  {
    seq(|messages|, i requires 0 <= i < |messages| => Call(messages[i], peer))
  }

  /**
   * One handled message: the table only gains keys, at most one hand-off is
   * appended, and the table and the hand-offs never both change.
   */
  function AfterMessage(s: BotState, m: Message, peer: InputPeer): (r: BotState)
    ensures s.groups.Keys <= r.groups.Keys
    ensures r.relays == s.relays || r.relays == s.relays + [Call(m, peer)]
    ensures r.groups == s.groups || r.relays == s.relays
    ensures !IsVideoMessage(m) ==> r == s
  {
    match RouteOf(m)
    case Ignore => s
    case ToGroup(groupId) => s.(groups := Offer(s.groups, groupId, m, peer))
    case RelayNow => s.(relays := s.relays + [Call(m, peer)])
  }

  /**
   * A fired timer: its group leaves the table and every message the group
   * held is handed off after the earlier hand-offs.
   */
  function AfterFlush(s: BotState, groupId: int): (r: BotState)
    ensures r.groups.Keys == s.groups.Keys - {groupId}
    ensures forall k :: k in r.groups ==> r.groups[k] == s.groups[k]
    ensures |r.relays| == |s.relays| + (if groupId in s.groups then |s.groups[groupId].messages| else 0)
    ensures r.relays[..|s.relays|] == s.relays
  {
    var (rest, flushed) := Flush(s.groups, groupId);
    match flushed
    case None => s
    case Some(g) => BotState(rest, s.relays + CallsFor(g.messages, g.peer))
  }

  /** The content of a message slot of an update: a user message, a service message or an empty one. */
  datatype MessageBase = UserMessage(message: Message) | ServiceMessage | EmptyMessage

  /** An update: a new message, or anything else (edits, reads, typing, ...). */
  datatype Update = NewMessage(content: MessageBase) | OtherUpdate(kind: string)

  /**
   * What the client hands to the update callback: an update batch with the
   * users and chats it mentions (as the input peer each resolves to), or some
   * other object.
   */
  datatype Incoming = Updates(list: seq<Update>, directory: map<PeerRef, InputPeer>) | NotUpdates

  /** A new user message whose sender resolves in the batch's directory, with its reply peer. */
  function Resolve(u: Update, directory: map<PeerRef, InputPeer>): (r: Option<(Message, InputPeer)>)
    ensures r.Some? <==> u.NewMessage? && u.content.UserMessage? && u.content.message.peer in directory
    ensures r.Some? ==> r.value.0 == u.content.message && r.value.1 == directory[r.value.0.peer]
  {
    match u
    case NewMessage(UserMessage(m)) =>
      if m.peer in directory then Some((m, directory[m.peer])) else None
    case _ => None
  }

  /** One update: anything that is not a resolvable user message leaves the state alone. */
  function AfterUpdate(s: BotState, u: Update, directory: map<PeerRef, InputPeer>): (r: BotState)
    ensures Resolve(u, directory).None? ==> r == s
    ensures s.groups.Keys <= r.groups.Keys
    ensures |s.relays| <= |r.relays| <= |s.relays| + 1 && r.relays[..|s.relays|] == s.relays
  {
    match Resolve(u, directory)
    case None => s
    case Some((m, peer)) => AfterMessage(s, m, peer)
  }

  /** The updates of a batch handled one after another, in list order. */
  function AfterUpdates(s: BotState, us: seq<Update>, directory: map<PeerRef, InputPeer>): (r: BotState)
    ensures |s.relays| <= |r.relays| && r.relays[..|s.relays|] == s.relays
    ensures s.groups.Keys <= r.groups.Keys
  {
    if us == [] then s
    else AfterUpdate(AfterUpdates(s, us[..|us| - 1], directory), us[|us| - 1], directory)
  }

  function AfterIncoming(s: BotState, arg: Incoming): BotState
  {
    match arg
    case NotUpdates => s
    case Updates(list, directory) => AfterUpdates(s, list, directory)
  }

  // ---- Routing ----

  /** A message that is not a video changes nothing. */
  lemma NonVideoIgnored(s: BotState, m: Message, peer: InputPeer)
    requires !IsVideoMessage(m)
    ensures AfterMessage(s, m, peer) == s
  {
  }

  /** A video of an album goes to the table only: no relay is started. */
  lemma GroupedVideoOnlyOffered(s: BotState, m: Message, peer: InputPeer)
    requires IsVideoMessage(m) && m.groupedId != 0
    ensures AfterMessage(s, m, peer) == BotState(Offer(s.groups, m.groupedId, m, peer), s.relays)
  {
  }

  /** A video outside any album is handed to the relay at once and never touches the table. */
  lemma SingleVideoRelayedDirectly(s: BotState, m: Message, peer: InputPeer)
    requires IsVideoMessage(m) && m.groupedId == 0
    ensures AfterMessage(s, m, peer) == BotState(s.groups, s.relays + [Call(m, peer)])
  {
  }

  /** An update that is not a new user message with a resolvable sender changes nothing. */
  lemma UnresolvedUpdateIgnored(s: BotState, u: Update, directory: map<PeerRef, InputPeer>)
    requires !(u.NewMessage? && u.content.UserMessage? && u.content.message.peer in directory)
    ensures AfterUpdate(s, u, directory) == s
  {
  }

  /** An object that is not an update batch changes nothing. */
  lemma NotUpdatesIgnored(s: BotState)
    ensures AfterIncoming(s, NotUpdates) == s
  {
  }

  // ---- The media-group table ----

  /**
   * Offering to an open group appends the message at the end of its list and
   * keeps the peer captured from the first fragment; every other entry stays.
   */
  lemma OfferToOpenGroup(groups: map<int, Group>, groupId: int, m: Message, peer: InputPeer)
    requires groupId in groups
    ensures var after := Offer(groups, groupId, m, peer);
      && after.Keys == groups.Keys
      && after[groupId] == Group(groups[groupId].messages + [m], groups[groupId].peer)
      && forall k :: k in groups && k != groupId ==> after[k] == groups[k]
  {
  }

  /** Offering to an absent key opens a group holding exactly that message, replying to its peer. */
  lemma OfferToAbsentGroup(groups: map<int, Group>, groupId: int, m: Message, peer: InputPeer)
    requires groupId !in groups
    ensures var after := Offer(groups, groupId, m, peer);
      && after.Keys == groups.Keys + {groupId}
      && after[groupId] == Group([m], peer)
      && forall k :: k in groups ==> after[k] == groups[k]
  {
  }

  /**
   * Flushing an open group removes it, leaves every other entry, and hands
   * its messages to the relay in the order they were offered, each once,
   * replying to the captured peer.
   */
  lemma FlushOpenGroup(s: BotState, groupId: int)
    requires groupId in s.groups
    ensures var after := AfterFlush(s, groupId);
      && after.groups.Keys == s.groups.Keys - {groupId}
      && (forall k :: k in after.groups ==> after.groups[k] == s.groups[k])
      && |after.relays| == |s.relays| + |s.groups[groupId].messages|
      && after.relays[..|s.relays|] == s.relays
      && forall i :: 0 <= i < |s.groups[groupId].messages| ==>
           after.relays[|s.relays| + i] == Call(s.groups[groupId].messages[i], s.groups[groupId].peer)
  {
  }

  /** Flushing a key that is not in the table changes nothing and relays nothing. */
  lemma FlushAbsentGroup(s: BotState, groupId: int)
    requires groupId !in s.groups
    ensures AfterFlush(s, groupId) == s
  {
  }

  /** A second flush of the same key relays nothing more: no message is delivered twice. */
  lemma FlushIsIdempotent(s: BotState, groupId: int)
    ensures AfterFlush(AfterFlush(s, groupId), groupId) == AfterFlush(s, groupId)
  {
  }

  /** A fragment arriving after its group was flushed opens a fresh group holding only itself. */
  lemma LateFragmentStartsNewGroup(s: BotState, m: Message, peer: InputPeer)
    requires IsVideoMessage(m) && m.groupedId != 0
    ensures var after := AfterMessage(AfterFlush(s, m.groupedId), m, peer);
      after.groups[m.groupedId] == Group([m], peer)
  {
  }
}
