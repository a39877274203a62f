/**
 * Reading an incoming message out of a WhatsApp webhook payload. The payload
 * is decoded JSON; Python's `None` and JSON `null` are the same value here.
 * Every step that the client would take on a value of the wrong shape (an
 * index into something that is not a list, `.get` on something that is not
 * an object) raises inside the client and is turned into "no message".
 */
module WhatsAppClient {
  import opened Wrappers

  /** Decoded JSON (numbers are integers here). */
  datatype Json =
    | JNull
    | JBool(b: bool)
    | JNum(n: int)
    | JStr(s: string)
    | JArr(items: seq<Json>)
    | JObj(fields: map<string, Json>)

  /** Python truthiness of a decoded value. */
  predicate Truthy(j: Json) {
    match j
    case JNull => false
    case JBool(b) => b
    case JNum(n) => n != 0
    case JStr(s) => s != []
    case JArr(items) => items != []
    case JObj(fields) => fields != map[]
  }

  /** `obj.get(key, default)`. */
  function Get(obj: map<string, Json>, key: string, default: Json): Json {
    if key in obj then obj[key] else default
  }

  /** `xs[0]` followed by `.get`: the first element when `xs` is a non-empty
      list whose first element is an object; anything else fails. */
  function FirstObject(xs: Json): (r: Option<map<string, Json>>)
    ensures r.Some? <==> xs.JArr? && xs.items != [] && xs.items[0].JObj?
    ensures r.Some? ==> r.value == xs.items[0].fields
  {
    if xs.JArr? && xs.items != [] && xs.items[0].JObj? then Some(xs.items[0].fields) else None
  }

  /** The fields the bot reads from one message. `contactName` is absent when
      the payload carries no contacts, and may be `JNull` when it does. */
  datatype MessageData = MessageData(
    messageId: Json,
    from: Json,
    timestamp: Json,
    msgType: Json,
    text: Json,
    contactName: Option<Json>)

  /** The first message of the first change of the first entry. */
  function ExtractMessageData(webhook: Json): (r: Option<MessageData>)
    ensures !webhook.JObj? || !Truthy(Get(webhook.fields, "entry", JNull)) ==> r.None?
    ensures r.Some? ==> FirstObject(webhook.fields["entry"]).Some?
    ensures r.Some? ==> r == ExtractFromEntry(FirstObject(webhook.fields["entry"]).value)
  {
    if !webhook.JObj? then None
    else
      var entries := Get(webhook.fields, "entry", JNull);
      if !Truthy(entries) then None
      else match FirstObject(entries)
        case None => None
        case Some(entry) => ExtractFromEntry(entry)
  }

  /** The first message of the first change of one entry. */
  function ExtractFromEntry(entry: map<string, Json>): (r: Option<MessageData>)
    ensures !Truthy(Get(entry, "changes", JArr([]))) ==> r.None?
  {
    var changes := Get(entry, "changes", JArr([]));
    if !Truthy(changes) then None
    else match FirstObject(changes)
      case None => None
      case Some(change) =>
        var value := Get(change, "value", JObj(map[]));
        if !value.JObj? then None else ExtractFromValue(value.fields)
  }

  /** The first message of one change's value, with the first contact's name. */
  function ExtractFromValue(value: map<string, Json>): (r: Option<MessageData>)
    ensures !Truthy(Get(value, "messages", JArr([]))) ==> r.None?
    ensures r.Some? ==> r.value.msgType != JStr("text") ==> r.value.text == JNull
    ensures r.Some? ==> (r.value.contactName.Some? <==> Truthy(Get(value, "contacts", JArr([]))))
  {
    var messages := Get(value, "messages", JArr([]));
    if !Truthy(messages) then None
    else match FirstObject(messages)
      case None => None
      case Some(message) =>
        var msgType := Get(message, "type", JNull);
        var textObj := Get(message, "text", JObj(map[]));
        if msgType == JStr("text") && !textObj.JObj? then None
        else
          var text := if msgType == JStr("text") then Get(textObj.fields, "body", JNull) else JNull;
          var data := MessageData(Get(message, "id", JNull), Get(message, "from", JNull),
                                  Get(message, "timestamp", JNull), msgType, text, None);
          var contacts := Get(value, "contacts", JArr([]));
          if !Truthy(contacts) then Some(data)
          else match FirstObject(contacts)
            case None => None
            case Some(contact) =>
              var profile := Get(contact, "profile", JObj(map[]));
              if !profile.JObj? then None
              else Some(data.(contactName := Some(Get(profile.fields, "name", JNull))))
  }

  /** The message read is a function of the first message object alone,
      together with the first contact: the id, sender, timestamp and type are
      its fields, and the text is its `text.body` exactly for text messages. */
  lemma ExtractReadsFirstMessage(value: map<string, Json>, message: map<string, Json>, rest: seq<Json>)
    requires Get(value, "messages", JArr([])) == JArr([JObj(message)] + rest)
    requires ExtractFromValue(value).Some?
    ensures var d := ExtractFromValue(value).value;
      d.messageId == Get(message, "id", JNull)
      && d.from == Get(message, "from", JNull)
      && d.timestamp == Get(message, "timestamp", JNull)
      && d.msgType == Get(message, "type", JNull)
      && (d.msgType == JStr("text") ==> "text" in message ==> message["text"].JObj? && d.text == Get(message["text"].fields, "body", JNull))
      && (d.msgType == JStr("text") ==> "text" !in message ==> d.text == JNull)
  {
  }

  /** The contact name is the `profile.name` of the first contact object, and
      `None` is there only when the value carries no contacts. */
  lemma ExtractReadsFirstContact(value: map<string, Json>, contact: map<string, Json>, more: seq<Json>)
    requires Get(value, "contacts", JArr([])) == JArr([JObj(contact)] + more)
    requires ExtractFromValue(value).Some?
    ensures var d := ExtractFromValue(value).value;
      ("profile" in contact ==> contact["profile"].JObj? && d.contactName == Some(Get(contact["profile"].fields, "name", JNull)))
      && ("profile" !in contact ==> d.contactName == Some(JNull))
  {
  }

  /** Entries after the first are never read. */
  lemma OnlyFirstEntry(fields: map<string, Json>, entry: Json, rest1: seq<Json>, rest2: seq<Json>)
    ensures ExtractMessageData(JObj(fields["entry" := JArr([entry] + rest1)]))
         == ExtractMessageData(JObj(fields["entry" := JArr([entry] + rest2)]))
  {
  }

  /** Changes after the first are never read. */
  lemma OnlyFirstChange(entry: map<string, Json>, change: Json, rest1: seq<Json>, rest2: seq<Json>)
    ensures ExtractFromEntry(entry["changes" := JArr([change] + rest1)])
         == ExtractFromEntry(entry["changes" := JArr([change] + rest2)])
  {
  }

  /** Messages after the first, and contacts after the first, are never read. */
  lemma OnlyFirstMessageAndContact(value: map<string, Json>, message: Json, rest1: seq<Json>, rest2: seq<Json>,
                                   contact: Json, more1: seq<Json>, more2: seq<Json>)
    ensures ExtractFromValue(value["messages" := JArr([message] + rest1)]["contacts" := JArr([contact] + more1)])
         == ExtractFromValue(value["messages" := JArr([message] + rest2)]["contacts" := JArr([contact] + more2)])
  {
  }

  /** A well-formed text message with one contact. */
  lemma ExtractTextMessageWithContact(webhook: Json, value: map<string, Json>, message: map<string, Json>)
    requires message == map[
      "id" := JStr("test_id"),
      "from" := JStr("1234567890"),
      "timestamp" := JStr("1234567890"),
      "type" := JStr("text"),
      "text" := JObj(map["body" := JStr("Тестовое сообщение")])]
    requires value == map[
      "messages" := JArr([JObj(message)]),
      "contacts" := JArr([JObj(map["profile" := JObj(map["name" := JStr("Тестовый пользователь")])])])]
    requires webhook == JObj(map["entry" := JArr([JObj(map["changes" := JArr([JObj(map["value" := JObj(value)])])])])])
    ensures ExtractMessageData(webhook)
      == Some(MessageData(JStr("test_id"), JStr("1234567890"), JStr("1234567890"), JStr("text"),
                          JStr("Тестовое сообщение"), Some(JStr("Тестовый пользователь"))))
  {
    ExtractTestValue(value, message);
    ExtractSingleValue(webhook, value);
  }

  lemma ExtractTestValue(value: map<string, Json>, message: map<string, Json>)
    requires message == map[
      "id" := JStr("test_id"),
      "from" := JStr("1234567890"),
      "timestamp" := JStr("1234567890"),
      "type" := JStr("text"),
      "text" := JObj(map["body" := JStr("Тестовое сообщение")])]
    requires value == map[
      "messages" := JArr([JObj(message)]),
      "contacts" := JArr([JObj(map["profile" := JObj(map["name" := JStr("Тестовый пользователь")])])])]
    ensures ExtractFromValue(value)
      == Some(MessageData(JStr("test_id"), JStr("1234567890"), JStr("1234567890"), JStr("text"),
                          JStr("Тестовое сообщение"), Some(JStr("Тестовый пользователь"))))
  {
  }

  /** A payload with one entry holding one change reads that change's value. */
  lemma ExtractSingleValue(webhook: Json, value: map<string, Json>)
    requires webhook == JObj(map["entry" := JArr([JObj(map["changes" := JArr([JObj(map["value" := JObj(value)])])])])])
    ensures ExtractMessageData(webhook) == ExtractFromValue(value)
  {
  }

  /** A payload without an "entry" key carries no message. */
  lemma ExtractWithoutEntry(webhook: Json)
    requires webhook == JObj(map["invalid" := JStr("data")])
    ensures ExtractMessageData(webhook).None?
  {
  }
}
