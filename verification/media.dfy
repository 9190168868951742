/**
 * The parts of a Telegram message that the bot looks at, and the rule that
 * decides whether a message carries a video (BotHandler.IsVideoMessage).
 */
module Media {
  import opened Wrappers
  import opened Text

  /** Where a message was posted: a user, a basic group or a channel. */
  datatype PeerRef = PeerUser(userId: int) | PeerChat(chatId: int) | PeerChannel(channelId: int)

  /** The handle replies are sent to; the client library derives it from a resolved user or chat. */
  datatype InputPeer = InputPeer(handle: int)

  /** A document attribute: the video marker (duration and size metadata) or any other kind. */
  datatype Attribute = VideoAttribute(duration: int, width: int, height: int) | OtherAttribute(kind: string)

  /**
   * A document. `filename` is what the client library's Filename helper
   * reports for it (None when it reports null).
   */
  datatype Document = Document(id: int, mimeType: Option<string>, attributes: seq<Attribute>, filename: Option<string>)

  /**
   * The media of a message: none at all, a document slot (None when it holds
   * no document or an empty one), or some other kind of media (photo, poll, ...).
   */
  datatype Media = NoMedia | DocumentMedia(document: Option<Document>) | OtherMedia(kind: string)

  /** A message; `groupedId` is 0 unless the message is a fragment of an album. */
  datatype Message = Message(id: int, peer: PeerRef, groupedId: int, media: Media)

  /** The document of a message, when its media is a document slot holding one. */
  function DocumentOf(m: Message): Option<Document>
  {
    match m.media
    case DocumentMedia(Some(d)) => Some(d)
    case _ => None
  }

  predicate HasVideoMime(d: Document)
  {
    d.mimeType.Some? && StartsWith(d.mimeType.value, "video/")
  }

  /**
   * The search over the attributes, returning as soon as it meets a video
   * attribute; it answers whether some attribute is one.
   */
  function FindVideoAttribute(attrs: seq<Attribute>): (found: bool)
    ensures found <==> exists i :: 0 <= i < |attrs| && attrs[i].VideoAttribute?
  {
    if attrs == [] then false
    else if attrs[0].VideoAttribute? then true
    else
      assert forall i :: 1 <= i < |attrs| ==> attrs[i] == attrs[1..][i - 1];
      FindVideoAttribute(attrs[1..])
  }

  /**
   * A message is a video when it has a document whose MIME type starts with
   * "video/" or one of whose attributes is the video attribute, and only then.
   */
  function IsVideoMessage(m: Message): (video: bool)
    ensures video <==>
      DocumentOf(m).Some? &&
      (HasVideoMime(DocumentOf(m).value) ||
       exists i :: 0 <= i < |DocumentOf(m).value.attributes| && DocumentOf(m).value.attributes[i].VideoAttribute?)
  {
    match DocumentOf(m)
    case None => false
    case Some(d) => if HasVideoMime(d) then true else FindVideoAttribute(d.attributes)
  }

  /** A document whose MIME type starts with "video/" is a video. */
  lemma MimeRule(m: Message, d: Document)
    requires DocumentOf(m) == Some(d)
    requires d.mimeType.Some? && StartsWith(d.mimeType.value, "video/")
    ensures IsVideoMessage(m)
  {
  }

  /** A document carrying a video attribute is a video whatever its MIME type. */
  lemma AttributeRule(m: Message, d: Document, i: int)
    requires DocumentOf(m) == Some(d)
    requires 0 <= i < |d.attributes| && d.attributes[i].VideoAttribute?
    ensures IsVideoMessage(m)
  {
  }

  /** Media that is not a document slot, or a slot without a document, is never a video. */
  lemma NoDocumentIsNotVideo(m: Message)
    requires DocumentOf(m) == None
    ensures !IsVideoMessage(m)
  {
  }

  /** A document labelled "application/octet-stream" with a video attribute is a video. */
  lemma OctetStreamWithVideoAttribute(id: int, msgId: int, peer: PeerRef, groupedId: int)
    ensures var d := Document(id, Some("application/octet-stream"), [OtherAttribute("filename"), VideoAttribute(0, 0, 0)], None);
            IsVideoMessage(Message(msgId, peer, groupedId, DocumentMedia(Some(d))))
  {
  }

  /** A document whose MIME type is "video/mp4" is a video even with no attributes at all. */
  lemma Mp4WithoutAttributes(id: int, msgId: int, peer: PeerRef, groupedId: int)
    ensures var d := Document(id, Some("video/mp4"), [], None);
            IsVideoMessage(Message(msgId, peer, groupedId, DocumentMedia(Some(d))))
  {
  }

  /** Without the marker, a document whose MIME type is not video is not a video. */
  lemma OctetStreamWithoutMarkerIsNotVideo(id: int, msgId: int, peer: PeerRef, groupedId: int)
    ensures var d := Document(id, Some("application/octet-stream"), [OtherAttribute("filename")], None);
            !IsVideoMessage(Message(msgId, peer, groupedId, DocumentMedia(Some(d))))
  {
    var mime := "application/octet-stream";
    assert mime[..|"video/"|][0] != "video/"[0];
  }
}
