/**
 * The dispatcher: what the bot sends for one messaging event. The two
 * outbound calls (a sender action, a message) are recorded as `Action`s in
 * the order they are issued.
 */
module Dispatch {
  import opened Wrappers
  import opened Conversation

  /** An outbound call to the platform, addressed to one user. */
  datatype Action =
    | MarkSeen(recipient: string)               // sender action "mark_seen"
    | TypingOn(recipient: string)               // sender action "typing_on"
    | Send(recipient: string, message: Reply)   // a message with its quick replies

  /** The fixed answer to any free-text message. */
  const ACKNOWLEDGEMENT := "Thanks for your Message. One of our members will reply back to you shortly."

  /** A postback, or the quick reply of a message: only its payload is read. */
  datatype PostbackBody = PostbackBody(payload: Option<string>)

  /** An inbound message: its text and, when a button was tapped, its quick reply. */
  datatype InboundMessage = InboundMessage(text: Option<string>, quickReply: Option<PostbackBody>)

  /** One entry of a page entry's `messaging` array. */
  datatype MessagingEvent = MessagingEvent(
    sender: string,
    postback: Option<PostbackBody>,
    message: Option<InboundMessage>)

  /** The node a postback payload selects; an absent payload selects none. */
  function Lookup(payload: Option<string>): (r: Option<Payload>)
    ensures r.Some? <==> payload.Some? && exists p: Payload :: Key(p) == payload.value
    ensures r.Some? ==> payload == Some(Key(r.value))
  {
    match payload
    case None => None
    case Some(s) => Parse(s)
  }

  /**
   * What handling a postback issues, in order: "mark seen", "typing on",
   * then the selected reply when the payload is recognised.
   * `name` is the outcome of the first-name lookup, read only by the greeting.
   */
  function PostbackActions(sender: string, payload: Option<string>, name: Option<string>): seq<Action> {
    [MarkSeen(sender), TypingOn(sender)] +
    match Lookup(payload)
    case None => []
    case Some(p) => [Send(sender, ReplyFor(p, name))]
  }

  /** The postback handler, issuing its calls one after the other. */
  method HandlePostback(sender: string, postback: PostbackBody, name: Option<string>)
    returns (sent: seq<Action>)
    ensures sent == PostbackActions(sender, postback.payload, name)
  {
    sent := [];
    sent := sent + [MarkSeen(sender)];
    sent := sent + [TypingOn(sender)];
    match Lookup(postback.payload) {
      case Some(p) =>
        sent := sent + [Send(sender, ReplyFor(p, name))];
      case None =>
    }
  }

  /** What the free-text handler issues: one send of the acknowledgement, whatever the message says. */
  function MessageActions(sender: string, message: InboundMessage): (sent: seq<Action>)
    ensures |sent| == 1 && sent[0].Send? && sent[0].recipient == sender
    ensures sent[0].message.text == ACKNOWLEDGEMENT && sent[0].message.quickReplies == []
  {
    [Send(sender, Reply(ACKNOWLEDGEMENT, []))]
  }

  /**
   * Event classification: a postback goes to the postback handler; a message
   * with a quick reply is handled as a postback of that quick reply; any other
   * message goes to the free-text handler; anything else is dropped.
   * `lookup` gives the outcome of the first-name lookup for a sender.
   */
  function Route(event: MessagingEvent, lookup: string -> Option<string>): seq<Action> {
    if event.postback.Some? then
      PostbackActions(event.sender, event.postback.value.payload, lookup(event.sender))
    else if event.message.Some? then
      if event.message.value.quickReply.Some? then
        PostbackActions(event.sender, event.message.value.quickReply.value.payload, lookup(event.sender))
      else
        MessageActions(event.sender, event.message.value)
    else
      []
  }

  /**
   * Every postback, recognised or not, issues "mark seen" then "typing on"
   * first, and at most one content message after them; the content message
   * is there exactly when the payload is recognised, and it is that node's reply.
   */
  lemma PresenceBeforeContent(sender: string, payload: Option<string>, name: Option<string>)
    ensures var sent := PostbackActions(sender, payload, name);
      2 <= |sent| <= 3 &&
      sent[0] == MarkSeen(sender) && sent[1] == TypingOn(sender) &&
      (|sent| == 3 <==> Lookup(payload).Some?) &&
      (|sent| == 3 ==> sent[2] == Send(sender, ReplyFor(Lookup(payload).value, name)))
  {
  }

  /** An unrecognised payload issues the two presence actions and nothing else. */
  lemma UnknownPayloadSilent(sender: string, s: string, name: Option<string>)
    requires forall p: Payload :: Key(p) != s
    ensures PostbackActions(sender, Some(s), name) == [MarkSeen(sender), TypingOn(sender)]
  {
  }

  /**
   * Routing priority: a postback wins over a message; a quick reply is a
   * postback of its payload; a plain message gets the acknowledgement
   * whatever it says and no presence actions; an event with neither is dropped.
   */
  lemma RoutingPriority(sender: string, postback: PostbackBody, m1: Option<InboundMessage>,
                        m2: Option<InboundMessage>, text: Option<string>,
                        lookup: string -> Option<string>)
    ensures Route(MessagingEvent(sender, Some(postback), m1), lookup)
         == Route(MessagingEvent(sender, Some(postback), m2), lookup)
    ensures Route(MessagingEvent(sender, None, Some(InboundMessage(text, Some(postback)))), lookup)
         == Route(MessagingEvent(sender, Some(postback), None), lookup)
    ensures Route(MessagingEvent(sender, None, Some(InboundMessage(text, None))), lookup)
         == [Send(sender, Reply(ACKNOWLEDGEMENT, []))]
    ensures Route(MessagingEvent(sender, None, None), lookup) == []
  {
  }

  /** "JOIN_YES" ends the conversation with the meeting link and no choice. */
  lemma JoinYesEndToEnd(sender: string, name: Option<string>)
    ensures var sent := PostbackActions(sender, Some("JOIN_YES"), name);
      |sent| == 3 && sent[2].Send? &&
      Contains(sent[2].message.text, MEETING_LINK) && sent[2].message.quickReplies == []
  {
    ParseKey(JoinYes);
    MeetingLinkGiven(name);
  }

  /** "TM_NO" offers "Yes!" leading to "IBCT_YES" and "No, thanks." leading to "IBCT_NO". */
  lemma TmNoEndToEnd(sender: string, name: Option<string>)
    ensures PostbackActions(sender, Some("TM_NO"), name)
         == [MarkSeen(sender), TypingOn(sender),
             Send(sender, Reply(TM_NO_TEXT, [QuickReply("Yes!", "IBCT_YES"),
                                             QuickReply("No, thanks.", "IBCT_NO")]))]
  {
  }

  /** Everything one event triggers is addressed to that event's sender. */
  lemma RouteRecipient(event: MessagingEvent, lookup: string -> Option<string>, a: Action)
    requires a in Route(event, lookup)
    ensures a.recipient == event.sender
  {
  }

  /**
   * Presence actions come in pairs: every "mark seen" is directly followed
   * by "typing on" for the same user, and every "typing on" directly follows
   * such a "mark seen".
   */
  predicate PresencePaired(sent: seq<Action>) {
    (forall k :: 0 <= k < |sent| && sent[k].MarkSeen? ==>
       k + 1 < |sent| && sent[k + 1] == TypingOn(sent[k].recipient)) &&
    (forall k :: 0 <= k < |sent| && sent[k].TypingOn? ==>
       0 < k && sent[k - 1] == MarkSeen(sent[k].recipient))
  }

  /** Whatever one event triggers keeps the presence actions paired. */
  lemma RoutePaired(event: MessagingEvent, lookup: string -> Option<string>)
    ensures PresencePaired(Route(event, lookup))
  {
  }

  /** Traces with paired presence actions stay paired when one follows the other. */
  lemma PairedConcat(a: seq<Action>, b: seq<Action>)
    requires PresencePaired(a) && PresencePaired(b)
    ensures PresencePaired(a + b)
  {
    var s := a + b;
    forall k | 0 <= k < |s| && s[k].MarkSeen?
      ensures k + 1 < |s| && s[k + 1] == TypingOn(s[k].recipient)
    {
      if k < |a| {
        assert a[k].MarkSeen?;
      } else {
        assert b[k - |a|].MarkSeen?;
      }
    }
    forall k | 0 <= k < |s| && s[k].TypingOn?
      ensures 0 < k && s[k - 1] == MarkSeen(s[k].recipient)
    {
      if k < |a| {
        assert a[k].TypingOn?;
      } else {
        assert b[k - |a|].TypingOn?;
      }
    }
  }
}
