/**
 * The conversation router: one session per phone number, created on first
 * contact, and a decision per message between a first greeting, an answer
 * generated from the best-matching knowledge-base entries, and the fixed
 * replies. The language model and the message sender are collaborators
 * whose answers are inputs.
 */
module Bot {
  import opened Wrappers
  import opened Text
  import opened FaqEntry
  import opened FaqSearch
  import opened Faq
  import opened OpenAiClient
  import opened WhatsAppClient
  import opened BotReplies

  /** Per-user state. `lastMessageTime` is only ever reset to nothing and
      `topics` is never filled. */
  datatype Session = Session(greeted: bool, messageCount: nat, lastMessageTime: Option<int>, topics: seq<string>)

  const NewSession := Session(false, 0, None, [])

  /** The session of `phone`, or a fresh one. */
  function SessionOf(sessions: map<string, Session>, phone: string): Session {
    if phone in sessions then sessions[phone] else NewSession
  }

  /** The intents answered from the knowledge base with the fallback reply as default. */
  predicate IsQuestionFamily(intent: string) {
    intent == "question" || intent == "support" || intent == "order" || intent == "complaint"
  }

  /** The first greeting of a user who has not been greeted yet. */
  predicate GreetsFirst(sessions: map<string, Session>, assistant: Assistant, phone: string, message: string) {
    ClassifyIntent(assistant, message) == "greeting" && !SessionOf(sessions, phone).greeted
  }

  /** A non-empty answer generated from at most `maxResults` matching entries, if any. */
  function FaqAnswer(data: seq<FaqItem>, assistant: Assistant, message: string, maxResults: int): (r: Option<string>)
    ensures r.Some? ==> r.value != [] && Search(data, message, maxResults) != []
    ensures r.Some? ==> r == GenerateFaqResponse(assistant, message, Search(data, message, maxResults))
    ensures Search(data, message, maxResults) == [] ==> r.None?
    ensures var g := GenerateFaqResponse(assistant, message, Search(data, message, maxResults));
      Search(data, message, maxResults) != [] && g.Some? && g.value != [] ==> r == g
  {
    var found := Search(data, message, maxResults);
    if found == [] then None
    else match GenerateFaqResponse(assistant, message, found)
      case Some(answer) => if answer != [] then Some(answer) else None
      case None => None
  }

  /** The question-family path that ends in a generated answer: the only one that counts a message. */
  predicate CountsMessage(sessions: map<string, Session>, data: seq<FaqItem>, assistant: Assistant, phone: string, message: string) {
    !GreetsFirst(sessions, assistant, phone, message)
    && IsQuestionFamily(ClassifyIntent(assistant, message))
    && FaqAnswer(data, assistant, message, 3).Some?
  }

  datatype Outcome = Outcome(reply: string, sessions: map<string, Session>)

  /** The reply to one message. */
  function ReplyTo(sessions: map<string, Session>, data: seq<FaqItem>, assistant: Assistant, replies: Replies,
                   phone: string, message: string, name: Option<string>): string
  {
    var intent := ClassifyIntent(assistant, message);
    if intent == "greeting" && !SessionOf(sessions, phone).greeted then GenerateGreeting(assistant, name)
    else if IsQuestionFamily(intent) then
      match FaqAnswer(data, assistant, message, 3)
      case Some(answer) => answer
      case None => replies.fallback
    else
      match FaqAnswer(data, assistant, message, 2)
      case Some(answer) => answer
      case None => replies.generalHelp
  }

  /** A session with one more answered message. */
  function Counted(s: Session): (r: Session)
    ensures r.messageCount == s.messageCount + 1 && r.greeted == s.greeted && r.topics == s.topics
  {
    s.(messageCount := s.messageCount + 1, lastMessageTime := None)
  }

  /** The sender's session after one message: marked greeted on the first
      greeting, counted on a generated answer to a question, otherwise as before. */
  function SessionAfter(sessions: map<string, Session>, data: seq<FaqItem>, assistant: Assistant,
                        phone: string, message: string): Session
  {
    var session := SessionOf(sessions, phone);
    if GreetsFirst(sessions, assistant, phone, message) then session.(greeted := true)
    else if CountsMessage(sessions, data, assistant, phone, message) then Counted(session)
    else session
  }

  /** The reply to one message and the session store after it: only the
      sender's session is created or changed. */
  function Respond(sessions: map<string, Session>, data: seq<FaqItem>, assistant: Assistant, replies: Replies,
                   phone: string, message: string, name: Option<string>): (o: Outcome)
    ensures o.sessions.Keys == sessions.Keys + {phone}
    ensures forall p :: p in sessions && p != phone ==> o.sessions[p] == sessions[p]
  {
    Outcome(ReplyTo(sessions, data, assistant, replies, phone, message, name),
            sessions[phone := SessionAfter(sessions, data, assistant, phone, message)])
  }

  /** The first-greeting path, in the shape the router takes it. */
  lemma GreetingPath(sessions: map<string, Session>, data: seq<FaqItem>, assistant: Assistant, replies: Replies,
                     phone: string, message: string, name: Option<string>, mid: map<string, Session>)
    requires ClassifyIntent(assistant, message) == "greeting" && !SessionOf(sessions, phone).greeted
    requires mid == sessions[phone := SessionOf(sessions, phone)]
    ensures ReplyTo(sessions, data, assistant, replies, phone, message, name) == GenerateGreeting(assistant, name)
    ensures mid[phone := SessionOf(sessions, phone).(greeted := true)]
         == sessions[phone := SessionAfter(sessions, data, assistant, phone, message)]
  {
    var s := SessionOf(sessions, phone);
    assert GreetsFirst(sessions, assistant, phone, message);
    assert SessionAfter(sessions, data, assistant, phone, message) == s.(greeted := true);
    Restore(sessions, phone, mid, s.(greeted := true));
  }

  /** The question-family path, in the shape the router takes it. */
  lemma QuestionPath(sessions: map<string, Session>, data: seq<FaqItem>, assistant: Assistant, replies: Replies,
                     phone: string, message: string, name: Option<string>)
    requires !(ClassifyIntent(assistant, message) == "greeting" && !SessionOf(sessions, phone).greeted)
    requires IsQuestionFamily(ClassifyIntent(assistant, message))
    ensures ReplyTo(sessions, data, assistant, replies, phone, message, name)
         == match FaqAnswer(data, assistant, message, 3) case Some(answer) => answer case None => replies.fallback
    ensures FaqAnswer(data, assistant, message, 3).Some? ==>
      SessionAfter(sessions, data, assistant, phone, message) == Counted(SessionOf(sessions, phone))
    ensures FaqAnswer(data, assistant, message, 3).None? ==>
      SessionAfter(sessions, data, assistant, phone, message) == SessionOf(sessions, phone)
  {
  }

  /** Storing a session over the one that was just looked up. */
  lemma Restore(sessions: map<string, Session>, phone: string, mid: map<string, Session>, x: Session)
    requires mid == sessions[phone := SessionOf(sessions, phone)]
    ensures SessionOf(mid, phone) == SessionOf(sessions, phone)
    ensures mid[phone := x] == sessions[phone := x]
  {
  }

  /** Every other path, in the shape the router takes it. */
  lemma OtherPath(sessions: map<string, Session>, data: seq<FaqItem>, assistant: Assistant, replies: Replies,
                  phone: string, message: string, name: Option<string>, mid: map<string, Session>)
    requires !(ClassifyIntent(assistant, message) == "greeting" && !SessionOf(sessions, phone).greeted)
    requires !IsQuestionFamily(ClassifyIntent(assistant, message))
    requires mid == sessions[phone := SessionOf(sessions, phone)]
    ensures ReplyTo(sessions, data, assistant, replies, phone, message, name)
         == match FaqAnswer(data, assistant, message, 2) case Some(answer) => answer case None => replies.generalHelp
    ensures mid == sessions[phone := SessionAfter(sessions, data, assistant, phone, message)]
  {
  }

  /** The first greeting is answered with the greeting and marks the user greeted. */
  lemma RespondGreetsFirst(sessions: map<string, Session>, data: seq<FaqItem>, assistant: Assistant, replies: Replies,
                           phone: string, message: string, name: Option<string>)
    requires GreetsFirst(sessions, assistant, phone, message)
    ensures var o := Respond(sessions, data, assistant, replies, phone, message, name);
      o.reply == GenerateGreeting(assistant, name) && o.sessions[phone].greeted
  {
  }

  /** A user is greeted after a message exactly when they were before or the
      message was classified as a greeting; nothing resets the flag. */
  lemma RespondGreetedFlag(sessions: map<string, Session>, data: seq<FaqItem>, assistant: Assistant, replies: Replies,
                           phone: string, message: string, name: Option<string>)
    ensures Respond(sessions, data, assistant, replies, phone, message, name).sessions[phone].greeted
        <==> SessionOf(sessions, phone).greeted || ClassifyIntent(assistant, message) == "greeting"
  {
  }

  /** Question, support, order and complaint messages get an answer generated
      from at most three entries, or the fallback reply. */
  lemma RespondQuestionFamily(sessions: map<string, Session>, data: seq<FaqItem>, assistant: Assistant, replies: Replies,
                              phone: string, message: string, name: Option<string>)
    requires !GreetsFirst(sessions, assistant, phone, message)
    requires IsQuestionFamily(ClassifyIntent(assistant, message))
    ensures FaqAnswer(data, assistant, message, 3).None? ==>
      Respond(sessions, data, assistant, replies, phone, message, name).reply == replies.fallback
    ensures FaqAnswer(data, assistant, message, 3).Some? ==>
      Respond(sessions, data, assistant, replies, phone, message, name).reply == FaqAnswer(data, assistant, message, 3).value
  {
  }

  /** Every other message, including a repeated greeting and unknown labels,
      gets an answer generated from at most two entries, or the general help. */
  lemma RespondOther(sessions: map<string, Session>, data: seq<FaqItem>, assistant: Assistant, replies: Replies,
                     phone: string, message: string, name: Option<string>)
    requires !GreetsFirst(sessions, assistant, phone, message)
    requires !IsQuestionFamily(ClassifyIntent(assistant, message))
    ensures FaqAnswer(data, assistant, message, 2).None? ==>
      Respond(sessions, data, assistant, replies, phone, message, name).reply == replies.generalHelp
    ensures FaqAnswer(data, assistant, message, 2).Some? ==>
      Respond(sessions, data, assistant, replies, phone, message, name).reply == FaqAnswer(data, assistant, message, 2).value
    ensures Respond(sessions, data, assistant, replies, phone, message, name).sessions
         == sessions[phone := SessionOf(sessions, phone)]
  {
  }

  /** The message counter moves by one on the counted path and not otherwise. */
  lemma RespondMessageCount(sessions: map<string, Session>, data: seq<FaqItem>, assistant: Assistant, replies: Replies,
                            phone: string, message: string, name: Option<string>)
    ensures Respond(sessions, data, assistant, replies, phone, message, name).sessions[phone].messageCount
         == SessionOf(sessions, phone).messageCount + (if CountsMessage(sessions, data, assistant, phone, message) then 1 else 0)
  {
  }

  // ---------------------------------------------------------------- totals over the store

  /** Sum of the message counters of all sessions. */
  ghost function TotalMessages(m: map<string, Session>): nat
    decreases |m|
  {
    if m == map[] then 0
    else
      assert exists k :: k in m by {
        assert m.Keys != {};
        var k :| k in m.Keys;
      }
      var k :| k in m;
      m[k].messageCount + TotalMessages(m - {k})
  }

  /** The total does not depend on the order the sessions are visited in. */
  lemma {:induction false} TotalMessagesRemove(m: map<string, Session>, k: string)
    requires k in m
    ensures TotalMessages(m) == m[k].messageCount + TotalMessages(m - {k})
    decreases |m|
  {
    var j :| j in m && TotalMessages(m) == m[j].messageCount + TotalMessages(m - {j});
    if j != k {
      assert (m - {j}).Keys == m.Keys - {j};
      assert (m - {k}).Keys == m.Keys - {k};
      TotalMessagesRemove(m - {j}, k);
      TotalMessagesRemove(m - {k}, j);
      assert m - {j} - {k} == m - {k} - {j};
    }
  }

  /** Replacing one session changes the total by the difference of its counters. */
  lemma TotalMessagesUpdate(m: map<string, Session>, k: string, s: Session)
    ensures TotalMessages(m[k := s]) + SessionOf(m, k).messageCount == TotalMessages(m) + s.messageCount
  {
    TotalMessagesRemove(m[k := s], k);
    assert m[k := s] - {k} == m - {k};
    if k in m {
      TotalMessagesRemove(m, k);
    } else {
      assert m - {k} == m;
    }
  }

  /** Across all users, one message adds one to the total exactly on the counted path. */
  lemma RespondTotalMessages(sessions: map<string, Session>, data: seq<FaqItem>, assistant: Assistant, replies: Replies,
                             phone: string, message: string, name: Option<string>)
    ensures TotalMessages(Respond(sessions, data, assistant, replies, phone, message, name).sessions)
         == TotalMessages(sessions) + (if CountsMessage(sessions, data, assistant, phone, message) then 1 else 0)
  {
    RespondMessageCount(sessions, data, assistant, replies, phone, message, name);
    TotalMessagesUpdate(sessions, phone, SessionAfter(sessions, data, assistant, phone, message));
  }

  /** Two users with five and three counted messages make eight in total. */
  lemma TotalMessagesTwoUsers(m: map<string, Session>)
    requires m == map["123" := Session(false, 5, None, []), "456" := Session(false, 3, None, [])]
    ensures |m| == 2 && TotalMessages(m) == 8
  {
    TotalMessagesRemove(m, "123");
    var rest := m - {"123"};
    assert rest == map["456" := Session(false, 3, None, [])];
    TotalMessagesRemove(rest, "456");
    assert rest - {"456"} == map[];
  }

  // ---------------------------------------------------------------- incoming messages

  /** What the bot takes from a webhook: sender, stripped text and contact name. */
  datatype Incoming = Incoming(phone: string, text: string, name: Option<string>)

  /** The contact name as the greeting uses it. */
  function NameOf(contactName: Option<Json>): Option<string> {
    match contactName
    case Some(JStr(n)) => Some(n)
    case _ => None
  }

  /** The text message a webhook carries, if it carries one with non-empty text. */
  function ReadIncoming(webhook: Json): (r: Option<Incoming>)
    ensures ExtractMessageData(webhook).None? ==> r.None?
    ensures r.Some? ==> ExtractMessageData(webhook).value.msgType == JStr("text")
    ensures r.Some? ==> exists t :: ExtractMessageData(webhook).value.text == JStr(t) && t != [] && r.value.text == Strip(t)
    ensures ExtractMessageData(webhook).Some? ==>
      var d := ExtractMessageData(webhook).value;
      d.msgType == JStr("text") && d.text.JStr? && d.text.s != [] && d.from.JStr? ==>
        r == Some(Incoming(d.from.s, Strip(d.text.s), NameOf(d.contactName)))
  {
    match ExtractMessageData(webhook)
    case None => None
    case Some(d) =>
      if d.msgType != JStr("text") || !Truthy(d.text) || !d.text.JStr? || !d.from.JStr? then None
      else Some(Incoming(d.from.s, Strip(d.text.s), NameOf(d.contactName)))
  }

  class WhatsAppBot {
    const faq: FaqManager
    const assistant: Assistant
    const replies: Replies
    var userSessions: map<string, Session>

    constructor(faq: FaqManager, assistant: Assistant)
      ensures this.faq == faq && this.assistant == assistant && replies == Fixed
      ensures userSessions == map[]
    {
      this.faq := faq;
      this.assistant := assistant;
      replies := Fixed;
      userSessions := map[];
    }

    /** The session of `phone`, created and stored on first contact; no other session changes. */
    method GetUserSession(phone: string) returns (session: Session)
      modifies this
      ensures session == SessionOf(old(userSessions), phone)
      ensures userSessions == old(userSessions)[phone := session]
    {
      if phone !in userSessions {
        userSessions := userSessions[phone := NewSession];
      }
      session := userSessions[phone];
    }

    /** Counts one answered message for `phone`. */
    method UpdateUserStats(phone: string, message: string, faqMatches: nat)
      modifies this
      ensures userSessions == old(userSessions)[phone := Counted(SessionOf(old(userSessions), phone))]
    {
      var session := GetUserSession(phone);
      userSessions := userSessions[phone := Counted(session)];
    }

    /** Answers one message and updates the sender's session. */
    method ProcessUserMessage(phone: string, message: string, name: Option<string>) returns (reply: string)
      modifies this
      ensures reply == ReplyTo(old(userSessions), faq.faqData, assistant, replies, phone, message, name)
      ensures userSessions == old(userSessions)[phone := SessionAfter(old(userSessions), faq.faqData, assistant, phone, message)]
    {
      ghost var before := userSessions;
      ghost var data := faq.faqData;
      ghost var after := SessionAfter(before, data, assistant, phone, message);
      var session := GetUserSession(phone);
      ghost var mid := userSessions;
      var intent := ClassifyIntent(assistant, message);
      if intent == "greeting" && !session.greeted {
        GreetingPath(before, data, assistant, replies, phone, message, name, mid);
        reply := GenerateGreeting(assistant, name);
        userSessions := userSessions[phone := session.(greeted := true)];
        assert userSessions == before[phone := after];
      } else if IsQuestionFamily(intent) {
        QuestionPath(before, data, assistant, replies, phone, message, name);
        var matches;
        reply, matches := AnswerQuestion(message);
        if matches > 0 {
          UpdateUserStats(phone, message, matches);
          Restore(before, phone, mid, Counted(SessionOf(mid, phone)));
        } else {
          Restore(before, phone, mid, SessionOf(before, phone));
        }
        assert userSessions == before[phone := after];
      } else {
        OtherPath(before, data, assistant, replies, phone, message, name, mid);
        reply := AnswerOther(message);
        assert userSessions == before[phone := after];
      }
    }

    /** The question-family branch: an answer from at most three entries, or
        the fallback reply; `matches` is the number of entries the answer was
        generated from, and none when there is no answer. */
    method AnswerQuestion(message: string) returns (reply: string, matches: nat)
      ensures matches > 0 <==> FaqAnswer(faq.faqData, assistant, message, 3).Some?
      ensures reply == match FaqAnswer(faq.faqData, assistant, message, 3)
        case Some(answer) => answer
        case None => replies.fallback
    {
      var relevant := faq.SearchFaq(message, 3);
      if relevant != [] {
        var answer := GenerateFaqResponse(assistant, message, relevant);
        if answer.Some? && answer.value != [] {
          return answer.value, |relevant|;
        }
      }
      return replies.fallback, 0;
    }

    /** Every other branch: an answer from at most two entries, or the general help. */
    method AnswerOther(message: string) returns (reply: string)
      ensures reply == match FaqAnswer(faq.faqData, assistant, message, 2)
        case Some(answer) => answer
        case None => replies.generalHelp
    {
      var relevant := faq.SearchFaq(message, 2);
      if relevant != [] {
        var answer := GenerateFaqResponse(assistant, message, relevant);
        if answer.Some? && answer.value != [] {
          return answer.value;
        }
      }
      return replies.generalHelp;
    }

    /** Handles one webhook: nothing happens without a non-empty text message;
        otherwise the message is answered, a non-empty reply is handed to the
        sender as `outgoing` (recipient, text), and the result is whether it
        was sent successfully (`sent` is the sender's outcome). */
    method HandleMessage(webhook: Json, sent: bool) returns (handled: bool, outgoing: Option<(string, string)>)
      modifies this
      ensures ReadIncoming(webhook).None? ==> !handled && outgoing.None? && userSessions == old(userSessions)
      ensures ReadIncoming(webhook).Some? ==>
                var m := ReadIncoming(webhook).value;
                var o := Respond(old(userSessions), faq.faqData, assistant, replies, m.phone, m.text, m.name);
                userSessions == o.sessions
                && outgoing == (if o.reply != [] then Some((m.phone, o.reply)) else None)
                && handled == (o.reply != [] && sent)
    {
      var data := ExtractMessageData(webhook);
      if data.None? {
        return false, None;
      }
      var d := data.value;
      if d.msgType != JStr("text") || !Truthy(d.text) {
        return false, None;
      }
      if !d.text.JStr? || !d.from.JStr? {
        return false, None;
      }
      var response := ProcessUserMessage(d.from.s, Strip(d.text.s), NameOf(d.contactName));
      if response != [] {
        return sent, Some((d.from.s, response));
      }
      return false, None;
    }

    /** Number of users, total answered messages and number of entries. */
    method GetBotStats() returns (totalUsers: nat, totalMessages: nat, faqItems: nat)
      ensures totalUsers == |userSessions|
      ensures totalMessages == TotalMessages(userSessions)
      ensures faqItems == |faq.faqData|
    {
      totalUsers := |userSessions|;
      totalMessages := 0;
      var rest := userSessions;
      while rest != map[]
        invariant totalMessages + TotalMessages(rest) == TotalMessages(userSessions)
        decreases |rest|
      {
        var k :| k in rest;
        TotalMessagesRemove(rest, k);
        totalMessages := totalMessages + rest[k].messageCount;
        assert (rest - {k}).Keys == rest.Keys - {k};
        rest := rest - {k};
      }
      var items, _ := faq.GetFaqStats();
      faqItems := items;
    }
  }
}
