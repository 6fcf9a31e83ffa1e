/**
 * The conversation of the bot: the ten payload keys its postback switch
 * recognises, the reply each key selects, and the conversation graph that
 * the quick replies of those replies form.
 */
module Conversation {
  import opened Wrappers

  /** The conversation nodes, one per payload key the switch recognises. */
  datatype Payload =
    | GetStarted
    | TmYes | TmNo
    | IbctYes | IbctNo
    | JoinYes | JoinNo
    | TalkYes | TalkNo
    | MenuTimings

  /** The payload string that names each node on the wire. */
  function Key(p: Payload): string {
    match p
    case GetStarted => "Get Started"
    case TmYes => "TM_YES"
    case TmNo => "TM_NO"
    case IbctYes => "IBCT_YES"
    case IbctNo => "IBCT_NO"
    case JoinYes => "JOIN_YES"
    case JoinNo => "JOIN_NO"
    case TalkYes => "TALK_YES"
    case TalkNo => "TALK_NO"
    case MenuTimings => "MENU_TIMINGS"
  }

  /** The postback switch: which node, if any, an inbound payload string selects. */
  function Parse(s: string): (r: Option<Payload>)
    ensures r.Some? ==> Key(r.value) == s
    ensures r.None? ==> forall p: Payload :: Key(p) != s
  {
    if s == "Get Started" then Some(GetStarted)
    else if s == "TM_YES" then Some(TmYes)
    else if s == "TM_NO" then Some(TmNo)
    else if s == "IBCT_YES" then Some(IbctYes)
    else if s == "IBCT_NO" then Some(IbctNo)
    else if s == "TALK_YES" then Some(TalkYes)
    else if s == "TALK_NO" then Some(TalkNo)
    else if s == "JOIN_YES" then Some(JoinYes)
    else if s == "JOIN_NO" then Some(JoinNo)
    else if s == "MENU_TIMINGS" then Some(MenuTimings)
    else None
  }

  /** Every node's key is recognised, and recognised as that node. */
  lemma ParseKey(p: Payload)
    ensures Parse(Key(p)) == Some(p)
  {
  }

  /** A quick-reply button: the title the user sees and the payload it posts back. */
  datatype QuickReply = QuickReply(title: string, payload: string)

  /** The body of an outbound message: its text and its quick replies, in order. */
  datatype Reply = Reply(text: string, quickReplies: seq<QuickReply>)

  const YES_TITLE := "Yes!"
  const NO_TITLE := "No, thanks."

  const GREETING_TEXT := "I am Titan, the official messenger bot of IBC Titans. Would you like to know about Toastmasters?"
  const TM_YES_TEXT := "Toastmasters International is a non-profit educational organization that teaches public speaking and leadership skills through a worldwide network of clubs. It was started by Ralph C. Smedley on October 22, 1924. For more information, visit: https://www.toastmasters.org/about. Would you like to know about IBC Titans?"
  const TM_NO_TEXT := "That's ok my friend, would you like to know about IBC Titans?"
  const IBCT_YES_TEXT := "IBC Titans is a corporate club from Oracle, Krishna Magnum Building, Bengaluru. It is a part of Toastmasters International and started in April 2014. For more information visit: https://ibctitans.wordpress.com/. We meet every Thursday from 12.20 PM - 2 PM. Would you like to join our meeting?"
  const TALK_OFFER_TEXT := "No problem, my friend. Would you like to talk to any of our club members?"
  const JOIN_YES_LEAD := "That's wonderful. This is our Zoom meeting link: "
  const JOIN_YES_TAIL := ". Looking forward to see you in our next meeting...!!!"
  const JOIN_YES_TEXT := JOIN_YES_LEAD + MEETING_LINK + JOIN_YES_TAIL
  const TALK_YES_TEXT := "Great, this is the contact of our club's Vice-President Public Relations, Chaitanya Sai Ganne. He is my creator and a very great person to talk to. Please call him on: +91-9439961772. He would love to talk to you."
  const TALK_NO_TEXT := "No problem, my friend. Please enter your message, I will try to answer it or one of our members will reply back to you shortly."
  const TIMINGS_LEAD := "We meet every Thursday online on Zoom from 12.20 PM - 2 PM. Zoom link: "
  const TIMINGS_TEXT := TIMINGS_LEAD + MEETING_LINK + "."

  const MEETING_LINK := "bit.ly/ibctonline"

  /** The two buttons every branching reply offers: "Yes!" leads to `yes`, "No, thanks." to `no`. */
  function YesNo(yes: Payload, no: Payload): seq<QuickReply> {
    [QuickReply(YES_TITLE, Key(yes)), QuickReply(NO_TITLE, Key(no))]
  }

  /**
   * The greeting text. `name` is the outcome of the first-name lookup:
   * `Some(n)` when it succeeded, `None` when it failed.
   */
  function Greeting(name: Option<string>): (text: string)
    ensures name.None? ==> text == GREETING_TEXT
    ensures name.Some? ==> text == "Hi " + name.value + ". " + GREETING_TEXT
  {
    var prefix := match name
      case Some(n) => "Hi " + n + ". "
      case None => "";
    prefix + GREETING_TEXT
  }

  /** The rule table: the reply each recognised payload selects. */
  function ReplyFor(p: Payload, name: Option<string>): (r: Reply)
    ensures Terminal(p) <==> r.quickReplies == []
    ensures !Terminal(p) ==>
      |r.quickReplies| == 2 && r.quickReplies[0].title == YES_TITLE && r.quickReplies[1].title == NO_TITLE
  {
    match p
    case GetStarted => Reply(Greeting(name), YesNo(TmYes, TmNo))
    case TmYes => Reply(TM_YES_TEXT, YesNo(IbctYes, IbctNo))
    case TmNo => Reply(TM_NO_TEXT, YesNo(IbctYes, IbctNo))
    case IbctYes => Reply(IBCT_YES_TEXT, YesNo(JoinYes, JoinNo))
    case IbctNo => Reply(TALK_OFFER_TEXT, YesNo(TalkYes, TalkNo))
    case JoinYes => Reply(JOIN_YES_TEXT, [])
    case JoinNo => Reply(TALK_OFFER_TEXT, YesNo(TalkYes, TalkNo))
    case TalkYes => Reply(TALK_YES_TEXT, [])
    case TalkNo => Reply(TALK_NO_TEXT, [])
    case MenuTimings => Reply(TIMINGS_TEXT, [])
  }

  /** The nodes where the conversation ends: their replies offer no further choice. */
  predicate Terminal(p: Payload) {
    p == JoinYes || p == TalkYes || p == TalkNo || p == MenuTimings
  }

  /**
   * The conversation graph, stated on its own: for a branching node, the
   * node that "yes" leads to and the node that "no" leads to.
   */
  function Choices(p: Payload): Option<(Payload, Payload)> {
    match p
    case GetStarted => Some((TmYes, TmNo))
    case TmYes => Some((IbctYes, IbctNo))
    case TmNo => Some((IbctYes, IbctNo))
    case IbctYes => Some((JoinYes, JoinNo))
    case IbctNo => Some((TalkYes, TalkNo))
    case JoinNo => Some((TalkYes, TalkNo))
    case _ => None
  }

  /** The rule table's quick replies are exactly the edges of the conversation graph. */
  lemma RepliesFollowGraph(p: Payload, name: Option<string>)
    ensures Choices(p).None? ==> ReplyFor(p, name).quickReplies == []
    ensures Choices(p).Some? ==>
      ReplyFor(p, name).quickReplies == YesNo(Choices(p).value.0, Choices(p).value.1)
  {
  }

  /**
   * The four terminal nodes reply with no quick replies; every other node
   * replies with exactly two, "Yes!" then "No, thanks.".
   */
  lemma ReplyShape(p: Payload, name: Option<string>)
    ensures Terminal(p) <==> ReplyFor(p, name).quickReplies == []
    ensures !Terminal(p) ==>
      var qr := ReplyFor(p, name).quickReplies;
      |qr| == 2 && qr[0].title == YES_TITLE && qr[1].title == NO_TITLE
  {
  }

  /** Graph closure: every payload a reply offers is one the switch recognises. */
  lemma GraphClosed(p: Payload, name: Option<string>, i: nat)
    requires i < |ReplyFor(p, name).quickReplies|
    ensures Parse(ReplyFor(p, name).quickReplies[i].payload).Some?
  {
    RepliesFollowGraph(p, name);
    var (yes, no) := Choices(p).value;
    ParseKey(yes);
    ParseKey(no);
  }

  /**
   * The node reached from `p` when the user taps the buttons `picks` in turn
   * (true for "Yes!", false for "No, thanks."), following the payloads the
   * rule table actually offers; `None` once a tap is asked of a reply that
   * has no such button or offers a payload the switch does not know.
   */
  function Follow(p: Payload, picks: seq<bool>, name: Option<string>): Option<Payload>
    decreases |picks|
  {
    if picks == [] then Some(p)
    else
      var qr := ReplyFor(p, name).quickReplies;
      if |qr| != 2 then None
      else match Parse(qr[if picks[0] then 0 else 1].payload)
        case None => None
        case Some(q) => Follow(q, picks[1..], name)
  }

  /** One tap moves along the graph edge it names; a terminal node accepts no tap. */
  lemma FollowStep(p: Payload, picks: seq<bool>, name: Option<string>)
    requires picks != []
    ensures Choices(p).None? ==> Follow(p, picks, name).None?
    ensures Choices(p).Some? ==>
      var (yes, no) := Choices(p).value;
      Follow(p, picks, name) == Follow(if picks[0] then yes else no, picks[1..], name)
  {
    RepliesFollowGraph(p, name);
    if Choices(p).Some? {
      var (yes, no) := Choices(p).value;
      ParseKey(yes);
      ParseKey(no);
    }
  }

  /** The longest number of taps from a node to the end of the conversation. */
  function Rank(p: Payload): nat {
    match p
    case GetStarted => 4
    case TmYes => 3
    case TmNo => 3
    case IbctYes => 2
    case IbctNo => 1
    case JoinNo => 1
    case _ => 0
  }

  /**
   * The conversation graph has no cycle: from any node, more taps than its
   * rank lead nowhere, so every conversation ends after at most four choices.
   */
  lemma {:induction false} ConversationEnds(p: Payload, picks: seq<bool>, name: Option<string>)
    requires |picks| > Rank(p)
    ensures Follow(p, picks, name).None?
    decreases |picks|
  {
    RepliesFollowGraph(p, name);
    if Choices(p).Some? {
      var (yes, no) := Choices(p).value;
      FollowStep(p, picks, name);
      ConversationEnds(if picks[0] then yes else no, picks[1..], name);
    }
  }

  /** The timings node is never reached by tapping through the conversation; only the menu posts it. */
  lemma {:induction false} TimingsOnlyFromMenu(p: Payload, picks: seq<bool>, name: Option<string>)
    requires p != MenuTimings
    ensures Follow(p, picks, name) != Some(MenuTimings)
    decreases |picks|
  {
    if picks != [] {
      RepliesFollowGraph(p, name);
      if Choices(p).Some? {
        var (yes, no) := Choices(p).value;
        FollowStep(p, picks, name);
        TimingsOnlyFromMenu(if picks[0] then yes else no, picks[1..], name);
      }
    }
  }

  /** One tap from "Get Started" reaches TM_YES or TM_NO. */
  lemma ReachTm(b: bool, name: Option<string>)
    ensures Follow(GetStarted, [b], name) == Some(if b then TmYes else TmNo)
  {
    FollowStep(GetStarted, [b], name);
  }

  /** Two taps from "Get Started" reach IBCT_YES or IBCT_NO. */
  lemma ReachIbct(b: bool, name: Option<string>)
    ensures Follow(GetStarted, [true, b], name) == Some(if b then IbctYes else IbctNo)
  {
    FollowStep(GetStarted, [true, b], name);
    assert [true, b][1..] == [b];
    FollowStep(TmYes, [b], name);
  }

  /** Three taps through IBCT_YES reach JOIN_YES or JOIN_NO. */
  lemma ReachJoin(b: bool, name: Option<string>)
    ensures Follow(GetStarted, [true, true, b], name) == Some(if b then JoinYes else JoinNo)
  {
    FollowStep(GetStarted, [true, true, b], name);
    assert [true, true, b][1..] == [true, b];
    FollowStep(TmYes, [true, b], name);
    assert [true, b][1..] == [b];
    FollowStep(IbctYes, [b], name);
  }

  /** Three taps through IBCT_NO reach TALK_YES or TALK_NO. */
  lemma ReachTalk(b: bool, name: Option<string>)
    ensures Follow(GetStarted, [true, false, b], name) == Some(if b then TalkYes else TalkNo)
  {
    FollowStep(GetStarted, [true, false, b], name);
    assert [true, false, b][1..] == [false, b];
    FollowStep(TmYes, [false, b], name);
    assert [false, b][1..] == [b];
    FollowStep(IbctNo, [b], name);
  }

  /** Every node other than the timings node can be reached from "Get Started". */
  lemma ReachableFromGetStarted(q: Payload, name: Option<string>)
    requires q != MenuTimings
    ensures exists picks: seq<bool> :: Follow(GetStarted, picks, name) == Some(q)
  {
    if q == GetStarted {
      assert Follow(GetStarted, [], name) == Some(q);
    } else if q == TmYes || q == TmNo {
      ReachTm(q == TmYes, name);
    } else if q == IbctYes || q == IbctNo {
      ReachIbct(q == IbctYes, name);
    } else if q == JoinYes || q == JoinNo {
      ReachJoin(q == JoinYes, name);
    } else {
      ReachTalk(q == TalkYes, name);
    }
  }

  /** `sub` occurs somewhere in `s`. */
  predicate Contains(s: string, sub: string) {
    exists i :: 0 <= i <= |s| && OccursAt(s, sub, i)
  }

  /** `sub` occurs in `s` starting at index `i`. */
  predicate OccursAt(s: string, sub: string, i: int) {
    0 <= i <= |s| - |sub| && s[i..i + |sub|] == sub
  }

  /** Both replies that end in a meeting carry the meeting link. */
  lemma MeetingLinkGiven(name: Option<string>)
    ensures Contains(ReplyFor(JoinYes, name).text, MEETING_LINK)
    ensures Contains(ReplyFor(MenuTimings, name).text, MEETING_LINK)
  {
    MiddleOccurs(JOIN_YES_LEAD, MEETING_LINK, JOIN_YES_TAIL);
    MiddleOccurs(TIMINGS_LEAD, MEETING_LINK, ".");
  }

  /** A string occurs in any string that has it in the middle. */
  lemma MiddleOccurs(lead: string, sub: string, tail: string)
    ensures Contains(lead + sub + tail, sub)
  {
    var s := lead + sub + tail;
    assert s[|lead|..|lead| + |sub|] == sub;
    assert OccursAt(s, sub, |lead|);
  }
}
