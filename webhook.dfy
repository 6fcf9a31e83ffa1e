/**
 * The two webhook endpoints: the POST handler that walks a batch of page
 * entries and dispatches every messaging event in it, and the GET handler
 * that answers the platform's subscription handshake.
 */
module Webhook {
  import opened Wrappers
  import opened Dispatch

  /** One page entry of a batch: its messaging events, in order. */
  datatype PageEntry = PageEntry(messaging: seq<MessagingEvent>)

  /** The body of a POST: the subscription's object type and the batched page entries. */
  datatype Envelope = Envelope(objectType: Option<string>, entry: seq<PageEntry>)

  /** The HTTP answer: none at all, a bare status, or a status with a text body. */
  datatype Response =
    | NoResponse
    | Status(code: int)
    | Text(code: int, body: string)

  const EVENT_RECEIVED := "EVENT_RECEIVED"

  /** The concatenation of `f(x)` for every `x` of `xs`, in order. */
  function ConcatMap<T, U>(xs: seq<T>, f: T -> seq<U>): seq<U> {
    if xs == [] then [] else f(xs[0]) + ConcatMap(xs[1..], f)
  }

  /** Mapping over two runs one after the other concatenates their results. */
  lemma {:induction false} ConcatMapAppend<T, U>(a: seq<T>, b: seq<T>, f: T -> seq<U>)
    ensures ConcatMap(a + b, f) == ConcatMap(a, f) + ConcatMap(b, f)
    decreases |a|
  {
    if a == [] {
      assert a + b == b;
    } else {
      assert (a + b)[0] == a[0] && (a + b)[1..] == a[1..] + b;
      ConcatMapAppend(a[1..], b, f);
    }
  }

  /** One more element appends its own result. */
  lemma ConcatMapSnoc<T, U>(xs: seq<T>, x: T, f: T -> seq<U>)
    ensures ConcatMap(xs + [x], f) == ConcatMap(xs, f) + f(x)
  {
    ConcatMapAppend(xs, [x], f);
    assert ConcatMap([x], f) == f(x) + ConcatMap([x][1..], f);
    assert [x][1..] == [];
  }

  /** Every element of the result comes from the result of some element of the input. */
  lemma {:induction false} ConcatMapMember<T, U>(xs: seq<T>, f: T -> seq<U>, u: U)
    requires u in ConcatMap(xs, f)
    ensures exists x :: x in xs && u in f(x)
    decreases |xs|
  {
    if u !in f(xs[0]) {
      ConcatMapMember(xs[1..], f, u);
      var x :| x in xs[1..] && u in f(x);
      assert x in xs;
    }
  }

  /** Handling one event, with the name lookup fixed. */
  function RouteWith(lookup: string -> Option<string>): MessagingEvent -> seq<Action> {
    (event: MessagingEvent) => Route(event, lookup)
  }

  /** What a sequence of events triggers, event after event. */
  function EventsActions(events: seq<MessagingEvent>, lookup: string -> Option<string>): seq<Action> {
    ConcatMap(events, RouteWith(lookup))
  }

  /** The events of one page entry. */
  function EntryEvents(entry: PageEntry): seq<MessagingEvent> {
    entry.messaging
  }

  /** The events of a batch, entry after entry, each entry's events in order. */
  function Events(entries: seq<PageEntry>): seq<MessagingEvent> {
    ConcatMap(entries, EntryEvents)
  }

  /** Handling one entry's events, with the name lookup fixed. */
  function EntryWith(lookup: string -> Option<string>): PageEntry -> seq<Action> {
    (entry: PageEntry) => EventsActions(entry.messaging, lookup)
  }

  /** What a batch of entries triggers, entry after entry. */
  function EntriesActions(entries: seq<PageEntry>, lookup: string -> Option<string>): seq<Action> {
    ConcatMap(entries, EntryWith(lookup))
  }

  /** One more event appends what it triggers. */
  lemma EventsActionsSnoc(events: seq<MessagingEvent>, e: MessagingEvent, lookup: string -> Option<string>)
    ensures EventsActions(events + [e], lookup) == EventsActions(events, lookup) + Route(e, lookup)
  {
    ConcatMapSnoc(events, e, RouteWith(lookup));
  }

  /** One more entry appends what its events trigger. */
  lemma EntriesActionsSnoc(entries: seq<PageEntry>, e: PageEntry, lookup: string -> Option<string>)
    ensures EntriesActions(entries + [e], lookup)
         == EntriesActions(entries, lookup) + EventsActions(e.messaging, lookup)
  {
    ConcatMapSnoc(entries, e, EntryWith(lookup));
  }

  /**
   * A batch is handled as the flat stream of its events: entry order first,
   * then each entry's messaging order.
   */
  lemma {:induction false} BatchIsFlatStream(entries: seq<PageEntry>, lookup: string -> Option<string>)
    ensures EntriesActions(entries, lookup) == EventsActions(Events(entries), lookup)
    decreases |entries|
  {
    if entries != [] {
      BatchIsFlatStream(entries[1..], lookup);
      ConcatMapAppend(entries[0].messaging, Events(entries[1..]), RouteWith(lookup));
    }
  }

  /** Every action of a run of events is addressed to the sender of one of those events. */
  lemma EventsRecipients(events: seq<MessagingEvent>, lookup: string -> Option<string>)
    ensures forall a :: a in EventsActions(events, lookup) ==>
      exists e :: e in events && a.recipient == e.sender
  {
    forall a | a in EventsActions(events, lookup)
      ensures exists e :: e in events && a.recipient == e.sender
    {
      ConcatMapMember(events, RouteWith(lookup), a);
      var e :| e in events && a in Route(e, lookup);
      RouteRecipient(e, lookup, a);
    }
  }

  /** Presence actions stay paired across a whole run of events. */
  lemma {:induction false} EventsPaired(events: seq<MessagingEvent>, lookup: string -> Option<string>)
    ensures PresencePaired(EventsActions(events, lookup))
    decreases |events|
  {
    if events != [] {
      RoutePaired(events[0], lookup);
      EventsPaired(events[1..], lookup);
      PairedConcat(Route(events[0], lookup), EventsActions(events[1..], lookup));
    }
  }

  /**
   * Across a whole batch, every action goes to a sender of the batch, and
   * every "mark seen" is directly followed by its "typing on".
   */
  lemma BatchWellFormed(entries: seq<PageEntry>, lookup: string -> Option<string>)
    ensures PresencePaired(EntriesActions(entries, lookup))
    ensures forall a :: a in EntriesActions(entries, lookup) ==>
      exists e :: e in Events(entries) && a.recipient == e.sender
  {
    BatchIsFlatStream(entries, lookup);
    EventsPaired(Events(entries), lookup);
    EventsRecipients(Events(entries), lookup);
  }

  /** The body of the inner `forEach`: classify one event and hand it to its handler. */
  method HandleEvent(event: MessagingEvent, lookup: string -> Option<string>)
    returns (triggered: seq<Action>)
    ensures triggered == Route(event, lookup)
  {
    if event.postback.Some? {
      triggered := HandlePostback(event.sender, event.postback.value, lookup(event.sender));
    } else if event.message.Some? {
      if event.message.value.quickReply.Some? {
        triggered := HandlePostback(event.sender, event.message.value.quickReply.value, lookup(event.sender));
      } else {
        triggered := MessageActions(event.sender, event.message.value);
      }
    } else {
      triggered := [];
    }
  }

  /** The body of the outer `forEach`: handle one entry's events in order. */
  method HandleEntry(messaging: seq<MessagingEvent>, lookup: string -> Option<string>)
    returns (sent: seq<Action>)
    ensures sent == EventsActions(messaging, lookup)
  {
    sent := [];
    var j := 0;
    while j < |messaging|
      invariant 0 <= j <= |messaging|
      invariant sent == EventsActions(messaging[..j], lookup)
    {
      var triggered := HandleEvent(messaging[j], lookup);
      EventsActionsSnoc(messaging[..j], messaging[j], lookup);
      assert messaging[..j + 1] == messaging[..j] + [messaging[j]];
      sent := sent + triggered;
      j := j + 1;
    }
    assert messaging[..j] == messaging;
  }

  /**
   * The POST handler. A body whose object is not "page" is refused with 404
   * and nothing is sent; an empty batch gets no answer at all; otherwise every
   * event of every entry is dispatched in order and the answer is
   * 200 "EVENT_RECEIVED". `lookup` gives the outcome of the first-name lookup.
   */
  method ReceiveWebhook(body: Envelope, lookup: string -> Option<string>)
    returns (response: Response, sent: seq<Action>)
    ensures body.objectType != Some("page") ==> response == Status(404) && sent == []
    ensures body.objectType == Some("page") && body.entry == [] ==> response == NoResponse && sent == []
    ensures body.objectType == Some("page") && body.entry != [] ==>
      response == Text(200, EVENT_RECEIVED) && sent == EntriesActions(body.entry, lookup)
  {
    sent := [];
    if body.objectType != Some("page") {
      return Status(404), sent;
    }
    if |body.entry| <= 0 {
      return NoResponse, sent;
    }
    var i := 0;
    while i < |body.entry|
      invariant 0 <= i <= |body.entry|
      invariant sent == EntriesActions(body.entry[..i], lookup)
    {
      var triggered := HandleEntry(body.entry[i].messaging, lookup);
      EntriesActionsSnoc(body.entry[..i], body.entry[i], lookup);
      assert body.entry[..i + 1] == body.entry[..i] + [body.entry[i]];
      sent := sent + triggered;
      i := i + 1;
    }
    assert body.entry[..i] == body.entry;
    response := Text(200, EVENT_RECEIVED);
  }

  /** JavaScript truthiness of a query parameter: present and not empty. */
  predicate Truthy(q: Option<string>) {
    q.Some? && q.value != ""
  }

  /**
   * The GET handler's subscription handshake. `verifyToken` is the configured
   * verification token (absent when unset). It answers only when mode and
   * token are both given: 200 with the challenge echoed when the mode is
   * "subscribe" and the token is the configured one, 403 otherwise.
   */
  function Verify(mode: Option<string>, token: Option<string>, challenge: Option<string>,
                  verifyToken: Option<string>): (r: Response)
    ensures r.NoResponse? <==> !Truthy(mode) || !Truthy(token)
    ensures r.Text? <==> mode == Some("subscribe") && Truthy(token) && token == verifyToken
    ensures r.Text? ==> r.code == 200 && r.body == challenge.GetOr("")
    ensures r.Status? ==> r.code == 403
  {
    if Truthy(mode) && Truthy(token) then
      if mode == Some("subscribe") && token == verifyToken then
        Text(200, challenge.GetOr(""))
      else
        Status(403)
    else
      NoResponse
  }

  /** The handshake succeeds exactly for the configured token and echoes the challenge unchanged. */
  lemma HandshakeEchoes(secret: string, challenge: string)
    requires secret != ""
    ensures Verify(Some("subscribe"), Some(secret), Some(challenge), Some(secret)) == Text(200, challenge)
    ensures forall t :: t != secret && t != "" ==>
      Verify(Some("subscribe"), Some(t), Some(challenge), Some(secret)) == Status(403)
  {
  }
}
