# Titans Messenger bot: a Dafny model of its conversation dispatcher

The bot is a Messenger webhook for the IBC Titans Toastmasters club. Its
only logic sits in `index.js`:

- the POST `/webhook` handler checks that the body comes from a page
  subscription and walks every messaging event of every page entry;
- each event is classified as a postback, a quick reply (handled as a
  postback) or a free-text message, or it is dropped;
- the postback handler sends "mark seen", then "typing on", then the reply
  that its `switch` selects for one of ten payload keys;
- the free-text handler always sends one fixed acknowledgement;
- the GET `/webhook` handler answers the platform's subscription handshake.

The model follows that code module by module:

- `wrappers.dfy` (`Wrappers`): `Option`, standing for JavaScript's absent
  fields and query parameters.
- `conversation.dfy` (`Conversation`): the ten payload keys as a `Payload`
  datatype, with `Key` (the wire string) and `Parse` (the switch). It also
  holds the rule table `ReplyFor`, one reply per `handle*Postback` builder,
  and the conversation graph. The graph is stated on its own as `Choices`
  and walked through the rule table's real quick replies by `Follow`.
- `dispatch.dfy` (`Dispatch`): the outbound calls as `Action`s
  (`MarkSeen`, `TypingOn`, `Send`). `HandlePostback` is a method that issues
  them one after the other. `PostbackActions` is the function that specifies
  it, and `Route` is the event classification.
- `webhook.dfy` (`Webhook`): `ReceiveWebhook` is the POST handler, with
  nested loops over entries (`HandleEntry`) and events (`HandleEvent`) that append the actions issued. The functions that specify the loops are built from `ConcatMap`, one concatenation over a sequence, whose lemmas are stated once for any element type.
  `Verify` is the GET handshake.

The outbound HTTP calls are modelled as the list of actions issued, in
issue order. The first-name lookup for the greeting is a parameter:
`lookup(sender)` is `Some(name)` when the lookup succeeds and `None` when it
fails. The configured verification token is a parameter too.

Two facts about `index.js` worth stating plainly:

- An unrecognised payload still gets "mark seen" and "typing on"
  (index.js:102-103); only the content message is missing
  (`Dispatch.UnknownPayloadSilent`).
- Four nodes are terminal: JOIN_YES, TALK_YES, TALK_NO and MENU_TIMINGS
  (`Conversation.ReplyShape`).

## Model

| member | source | states |
|---|---|---|
| `Conversation.Parse` | index.js:106-139 | a payload string selects a node exactly when it is that node's key; every other string, the empty one included, falls to the default case |
| `Conversation.ParseKey` | index.js:11-23 | each of the ten key constants is recognised by the switch, as its own node |
| `Conversation.Greeting` | index.js:158-166 | the greeting is the fixed introduction, prefixed by "Hi name. " when the name lookup succeeded and by nothing when it failed |
| `Conversation.ReplyFor` | index.js:149-307 | the rule table of the ten reply builders: the four terminal nodes, and only they, reply with no quick replies; every other node offers exactly two, "Yes!" then "No, thanks."; the lemmas `ReplyShape`, `RepliesFollowGraph`, `GraphClosed` and `MeetingLinkGiven` add that the buttons are the graph's edges, that every offered payload is recognised by the switch, and that the meeting replies carry the link |
| `Conversation.RepliesFollowGraph` | index.js:149-307 | the quick replies of every rule are exactly the yes/no edges of the conversation graph: Get Started to TM_*, TM_* to IBCT_*, IBCT_YES to JOIN_*, IBCT_NO and JOIN_NO to TALK_*; the other nodes offer none |
| `Conversation.ReplyShape` | index.js:149-307 | JOIN_YES, TALK_YES, TALK_NO and MENU_TIMINGS, and only they, reply with no quick replies; every other node offers exactly two, "Yes!" then "No, thanks." |
| `Conversation.GraphClosed` | index.js:149-307 | graph closure: every payload offered by any reply is a key the switch recognises |
| `Conversation.FollowStep` | index.js:149-307 | tapping a button of a branching node's reply leads to the node its graph edge names; a terminal node's reply accepts no tap |
| `Conversation.ConversationEnds` | index.js:149-307 | the graph has no cycle: more taps than a node's rank lead nowhere, so from "Get Started" every conversation ends within four choices |
| `Conversation.TimingsOnlyFromMenu` | index.js:302-307 | MENU_TIMINGS is never reached by tapping quick replies from any other node |
| `Conversation.ReachableFromGetStarted` | index.js:149-300 | every node except MENU_TIMINGS is reached from "Get Started" by some sequence of taps |
| `Conversation.MeetingLinkGiven` | index.js:262-307 | the JOIN_YES and MENU_TIMINGS replies both contain the meeting link "bit.ly/ibctonline" |
| `Dispatch.Lookup` | index.js:101-139 | an inbound payload selects a node exactly when it is present and equal to a key; an absent payload selects none |
| `Dispatch.MessageActions` | index.js:142-147 | the free-text handler sends the fixed acknowledgement once to the sender, with no quick replies and no presence actions, whatever the message says (the result reads no field of the message) |
| `Dispatch.HandlePostback` | index.js:99-140 | the postback handler issues exactly the actions that `PostbackActions` specifies, in that order |
| `Dispatch.PresenceBeforeContent` | index.js:99-140 | every postback issues "mark seen", then "typing on", then the selected node's reply; the reply is there exactly when the payload is recognised |
| `Dispatch.UnknownPayloadSilent` | index.js:102-138 | an unrecognised payload issues only the two presence actions and no content message |
| `Dispatch.RoutingPriority` | index.js:43-59 | a postback wins over a message; a quick reply is handled as a postback of its payload; a plain message gets one send of the fixed acknowledgement whatever its text, with no presence actions; an event with neither is dropped |
| `Dispatch.JoinYesEndToEnd` | index.js:262-267 | "JOIN_YES" yields one content message that contains "bit.ly/ibctonline" and offers no quick reply |
| `Dispatch.TmNoEndToEnd` | index.js:205-222 | "TM_NO" yields the two presence actions and then a message with "Yes!" leading to IBCT_YES and "No, thanks." leading to IBCT_NO |
| `Dispatch.RoutePaired` | index.js:43-59 | whatever one event triggers, each "mark seen" is directly followed by "typing on" for the same user |
| `Webhook.HandleEvent` | index.js:43-59 | classifying one event issues exactly what `Route` specifies: the postback handler, the quick reply as a postback, the free-text handler, or nothing |
| `Webhook.HandleEntry` | index.js:43-59 | one entry's events are handled in messaging order, each appending what it triggers |
| `Webhook.ReceiveWebhook` | index.js:29-69 | an object other than "page" gets 404 and nothing is sent; an empty batch gets no answer and nothing is sent; otherwise every event is dispatched, entry by entry, and the answer is 200 "EVENT_RECEIVED" |
| `Webhook.BatchIsFlatStream` | index.js:41-60 | a batch is handled as the flat stream of its events, in entry order and then in messaging order |
| `Webhook.BatchWellFormed` | index.js:41-60 | across a whole batch, presence actions stay paired and every action goes to the sender of one of the batch's events |
| `Webhook.Verify` | index.js:72-97 | no answer unless mode and token are both present and non-empty; 200 echoing the challenge exactly when the mode is "subscribe" and the token equals the configured one; 403 otherwise |
| `Webhook.HandshakeEchoes` | index.js:83-96 | with the configured token the handshake echoes the challenge unchanged; any other non-empty token is refused with 403 |

## Left out

- Server setup, `app.listen` and the port: HTTP plumbing with no logic.
- The bodies of `callSendAPI` and `callSenderActionsAPI`: HTTP requests, modelled only as the action appended to the trace. Their error callbacks only log.
- Delivery and completion order of the fire-and-forget requests. The model gives the order in which requests are issued.
- The greeting's send is issued in the callback of the first-name lookup, and that callback cannot run before the POST handler's loops have finished, so in the running program the greeting is always issued after every other action of its batch and after the 200 answer. The model issues it in place.
- `lookup` is a function of the sender id, so two GET_STARTED events from one sender in one batch get the same lookup outcome. The real lookup is a network call whose outcome can differ between calls.
- The first-name lookup itself, `JSON.parse` of its body, and a body without `first_name` (which would greet "Hi undefined. "): a foreign network call. Its outcome is the `Option` parameter.
- `process.env` reads: the page access token is not needed by the model, and the verification token is the `verifyToken` parameter.
- `console.log` output, including the log line for an unknown payload and for an unknown event.
- The runtime exception when `body.entry` or an entry's `messaging` is missing: the model's envelope always has both arrays.
- JavaScript truthiness of non-string values (a query parameter repeated into an array, a `postback` that is present but falsy): events and query parameters are modelled as absent or as strings.
- The `content_type` of each quick reply, always "text", is not represented.
- Express's status-text bodies for `sendStatus` (404 "Not Found", 403 "Forbidden"): `Status(code)` stands for them.
