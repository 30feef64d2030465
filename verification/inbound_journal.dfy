/** The journal of authenticated inbound replies. The HMAC and the hashes are taken to be
    injective, so each is modelled by the document it is computed from. */
module InboundJournal {
  import opened Wrappers
  import opened Texts
  import opened Receipts

  datatype Claims = Claims(updateId: nat, messageId: nat, chatId: string, senderId: string, replyTo: nat, text: string)

  datatype UpdateHash = UpdateHash(claims: Claims)

  datatype MessageHash = MessageHash(messageId: nat, chatId: string, senderId: string, replyTo: nat, text: string)

  datatype Mac = Mac(secret: string, claims: Claims, consumedAt: Option<nat>)

  datatype Row = Row(claims: Claims, updateHash: UpdateHash, messageHash: MessageHash, mac: Mac, consumedAt: Option<nat>)

  /** The table, by its primary key. */
  type Rows = map<nat, Row>

  datatype Settings = Settings(secret: string, chatId: string, senders: set<string>)

  // ---------- Closed parsing of an update ----------

  /** A parsed webhook body. Bodies that are not JSON, or that repeat a key, have none. */
  datatype Json = Object(fields: map<string, Json>) | Number(number: int) | Text(text: string) | Flag(on: bool) | OtherJson

  const MAX_TEXT_CHARS := 4096

  function Field(doc: Json, name: string): Json {
    if doc.Object? && name in doc.fields then doc.fields[name] else OtherJson
  }

  predicate PositiveNumber(doc: Json) {
    doc.Number? && doc.number > 0
  }

  predicate WellFormed(body: Json) {
    var message := Field(body, "message");
    && body.Object? && body.fields.Keys == {"update_id", "message"}
    && PositiveNumber(Field(body, "update_id"))
    && PositiveNumber(Field(message, "message_id"))
    && PositiveNumber(Field(Field(message, "from"), "id"))
    && PositiveNumber(Field(Field(message, "chat"), "id"))
    && PositiveNumber(Field(Field(message, "reply_to_message"), "message_id"))
    && Field(message, "text").Text?
    && !Blank(Field(message, "text").text) && |Field(message, "text").text| <= MAX_TEXT_CHARS
    && Field(Field(message, "from"), "is_bot") == Flag(false)
    && Field(Field(message, "chat"), "type") in {Text("private"), Text("group"), Text("supergroup")}
  }

  /** `_claims_from_body`: the claims of a well-formed update of a trusted sender and chat. */
  function ClaimsFrom(s: Settings, body: Option<Json>): Option<Claims> {
    if body.None? || !WellFormed(body.value) then None
    else
      var message := Field(body.value, "message");
      var sender := Decimal(Field(Field(message, "from"), "id").number);
      var chat := Decimal(Field(Field(message, "chat"), "id").number);
      if sender !in s.senders || chat != s.chatId then None
      else
        Some(Claims(Field(body.value, "update_id").number, Field(message, "message_id").number, chat, sender,
                    Field(Field(message, "reply_to_message"), "message_id").number, Field(message, "text").text))
  }

  /** What a reply says: its numbers, its text, who sent it and where. */
  datatype Said = Said(updateId: int, messageId: int, chat: int, chatType: string, sender: int, bot: bool, replyTo: int, text: string)

  /** Whatever else the transport puts into the objects of an update. */
  datatype Extras = Extras(message: map<string, Json>, sender: map<string, Json>, chat: map<string, Json>, reply: map<string, Json>)

  /** The update a reply arrives as. Its top level is closed, the objects inside are open. */
  function BodyOf(r: Said, e: Extras): Json {
    Object(map["update_id" := Number(r.updateId), "message" := MessageOf(r, e)])
  }

  function MessageOf(r: Said, e: Extras): Json {
    Object(e.message + map[
      "message_id" := Number(r.messageId),
      "from" := Object(e.sender + map["id" := Number(r.sender), "is_bot" := Flag(r.bot)]),
      "chat" := Object(e.chat + map["id" := Number(r.chat), "type" := Text(r.chatType)]),
      "reply_to_message" := Object(e.reply + map["message_id" := Number(r.replyTo)]),
      "text" := Text(r.text)])
  }

  /** The reply is one that the configuration trusts, in a form the adapter accepts. */
  predicate Trusted(s: Settings, r: Said) {
    && r.updateId > 0 && r.messageId > 0 && r.chat > 0 && r.sender > 0 && r.replyTo > 0
    && !r.bot && r.chatType in {"private", "group", "supergroup"}
    && !Blank(r.text) && |r.text| <= 4096
    && Decimal(r.sender) in s.senders && Decimal(r.chat) == s.chatId
  }

  lemma OwnField(extra: map<string, Json>, own: map<string, Json>, name: string)
    requires name in own
    ensures Field(Object(extra + own), name) == own[name]
  {
  }

  lemma FieldsOf(r: Said, e: Extras)
    ensures var body, message := BodyOf(r, e), MessageOf(r, e);
      && Field(body, "update_id") == Number(r.updateId) && Field(body, "message") == message
      && Field(message, "message_id") == Number(r.messageId) && Field(message, "text") == Text(r.text)
      && Field(Field(message, "from"), "id") == Number(r.sender) && Field(Field(message, "from"), "is_bot") == Flag(r.bot)
      && Field(Field(message, "chat"), "id") == Number(r.chat) && Field(Field(message, "chat"), "type") == Text(r.chatType)
      && Field(Field(message, "reply_to_message"), "message_id") == Number(r.replyTo)
  {
    hide Field;
    var sender := map["id" := Number(r.sender), "is_bot" := Flag(r.bot)];
    var chat := map["id" := Number(r.chat), "type" := Text(r.chatType)];
    var reply := map["message_id" := Number(r.replyTo)];
    var own := map["message_id" := Number(r.messageId), "from" := Object(e.sender + sender), "chat" := Object(e.chat + chat),
                   "reply_to_message" := Object(e.reply + reply), "text" := Text(r.text)];
    var top := map["update_id" := Number(r.updateId), "message" := MessageOf(r, e)];
    assert map[] + top == top;
    OwnField(map[], top, "update_id");
    OwnField(map[], top, "message");
    OwnField(e.message, own, "message_id");
    OwnField(e.message, own, "text");
    OwnField(e.message, own, "from");
    OwnField(e.message, own, "chat");
    OwnField(e.message, own, "reply_to_message");
    OwnField(e.sender, sender, "id");
    OwnField(e.sender, sender, "is_bot");
    OwnField(e.chat, chat, "id");
    OwnField(e.chat, chat, "type");
    OwnField(e.reply, reply, "message_id");
  }

  /** A reply is admitted exactly when it is trusted, whatever else its update carries; and then
      with the numbers and the text that were sent. */
  lemma ReplyIsAdmitted(s: Settings, r: Said, e: Extras)
    ensures ClaimsFrom(s, Some(BodyOf(r, e))) ==
      if Trusted(s, r) then Some(Claims(r.updateId, r.messageId, Decimal(r.chat), Decimal(r.sender), r.replyTo, r.text))
      else None
  {
    hide MessageOf, Decimal, Blank;
    FieldsOf(r, e);
    assert BodyOf(r, e).fields.Keys == {"update_id", "message"};
  }

  /** An update with any other field at its top level is refused. */
  lemma TopLevelIsClosed(s: Settings, r: Said, e: Extras, name: string, value: Json)
    requires name !in {"update_id", "message"}
    ensures ClaimsFrom(s, Some(Object(BodyOf(r, e).fields[name := value]))) == None
  {
    assert name in BodyOf(r, e).fields[name := value].Keys;
  }

  // ---------- Rows ----------

  function MessageHashOf(c: Claims): MessageHash {
    MessageHash(c.messageId, c.chatId, c.senderId, c.replyTo, c.text)
  }

  function RowOf(secret: string, c: Claims, consumedAt: Option<nat>): Row {
    Row(c, UpdateHash(c), MessageHashOf(c), Mac(secret, c, consumedAt), consumedAt)
  }

  /** `_validated_claims`: the row is exactly what this adapter would have written. */
  function Validated(secret: string, row: Row): Option<Claims> {
    var c := row.claims;
    if c.updateId == 0 || c.messageId == 0 || c.replyTo == 0
       || row.updateHash != UpdateHash(c) || row.messageHash != MessageHashOf(c) || row.mac != Mac(secret, c, row.consumedAt)
    then None
    else Some(c)
  }

  function ReplyOf(c: Claims): Reply {
    Reply(c.chatId, c.senderId, c.messageId, c.replyTo, c.text)
  }

  /** The constraints the table declares. */
  ghost predicate Table(rows: Rows) {
    && (forall k :: k in rows ==> rows[k].claims.updateId == k)
    && (forall k, l :: k in rows && l in rows && rows[k].claims.messageId == rows[l].claims.messageId ==> k == l)
    && (forall k, l :: k in rows && l in rows && Answers(rows[k], rows[l].claims.chatId, rows[l].claims.replyTo) ==> k == l)
  }

  predicate Answers(row: Row, chatId: string, replyTo: nat) {
    row.claims.chatId == chatId && row.claims.replyTo == replyTo
  }

  /** Every row was written by this adapter, for a trusted sender in the configured chat. */
  ghost predicate Authentic(s: Settings, rows: Rows) {
    forall k :: k in rows ==>
      && Validated(s.secret, rows[k]).Some?
      && rows[k].claims.senderId in s.senders && rows[k].claims.chatId == s.chatId
  }

  ghost function RowFor(rows: Rows, chatId: string, replyTo: nat): (k: Option<nat>)
    ensures k.Some? ==> k.value in rows && Answers(rows[k.value], chatId, replyTo)
    ensures k.None? ==> forall l :: l in rows ==> !Answers(rows[l], chatId, replyTo)
  {
    if k :| k in rows && Answers(rows[k], chatId, replyTo) then Some(k) else None
  }

  // ---------- The operations, as functions of the table ----------

  predicate Collides(rows: Rows, c: Claims) {
    exists k :: k in rows && (rows[k].claims.messageId == c.messageId || Answers(rows[k], c.chatId, c.replyTo))
  }

  function Ingested(secret: string, rows: Rows, c: Claims): (Rows, bool) {
    if c.updateId in rows then (rows, rows[c.updateId].updateHash == UpdateHash(c))
    else if Collides(rows, c) then (rows, false)
    else (rows[c.updateId := RowOf(secret, c, None)], true)
  }

  ghost function Claimed(s: Settings, rows: Rows, chatId: string, replyTo: nat, now: nat): (Rows, Option<Reply>) {
    var k := RowFor(rows, chatId, replyTo);
    if chatId != s.chatId || replyTo == 0 || k.None? || rows[k.value].consumedAt.Some?
       || Validated(s.secret, rows[k.value]).None?
    then (rows, None)
    else
      var c := rows[k.value].claims;
      (rows[k.value := rows[k.value].(consumedAt := Some(now), mac := Mac(s.secret, c, Some(now)))], Some(ReplyOf(c)))
  }

  ghost function Consumed(s: Settings, rows: Rows, chatId: string, replyTo: nat): Option<Reply> {
    var k := RowFor(rows, chatId, replyTo);
    if chatId != s.chatId || replyTo == 0 || k.None? || rows[k.value].consumedAt.None?
       || Validated(s.secret, rows[k.value]).None?
    then None
    else Some(ReplyOf(rows[k.value].claims))
  }

  /** The row is exactly what the adapter writes for these claims: positive numbers, both hashes
      of the claims themselves, and the MAC under the secret over the claims and the state. */
  predicate Genuine(secret: string, row: Row) {
    && row.claims.updateId > 0 && row.claims.messageId > 0 && row.claims.replyTo > 0
    && row.updateHash.claims == row.claims
    && row.messageHash.messageId == row.claims.messageId && row.messageHash.chatId == row.claims.chatId
    && row.messageHash.senderId == row.claims.senderId && row.messageHash.replyTo == row.claims.replyTo
    && row.messageHash.text == row.claims.text
    && row.mac.secret == secret && row.mac.claims == row.claims && row.mac.consumedAt == row.consumedAt
  }

  /** A claim succeeds exactly for a genuine unconsumed row that answers this delivery in the
      configured chat, returns what that row says, and consumes that row and no other. */
  lemma ClaimIsGenuine(s: Settings, rows: Rows, chatId: string, replyTo: nat, now: nat)
    requires Table(rows)
    ensures var (after, reply) := Claimed(s, rows, chatId, replyTo, now);
      && (reply.Some? <==>
            && chatId == s.chatId && replyTo > 0
            && exists k :: k in rows && rows[k].claims.chatId == chatId && rows[k].claims.replyTo == replyTo
                           && rows[k].consumedAt == None && Genuine(s.secret, rows[k]))
      && (reply.None? ==> after == rows)
      && (reply.Some? ==>
            exists k :: k in rows && rows[k].claims.chatId == chatId && rows[k].claims.replyTo == replyTo
                        && reply.value.chatId == chatId && reply.value.replyTo == replyTo
                        && reply.value.senderId == rows[k].claims.senderId
                        && reply.value.messageId == rows[k].claims.messageId && reply.value.text == rows[k].claims.text
                        && after == rows[k := after[k]] && after[k].claims == rows[k].claims
                        && after[k].consumedAt == Some(now) && Genuine(s.secret, after[k]))
  {
    var k := RowFor(rows, chatId, replyTo);
    if l :| l in rows && rows[l].claims.chatId == chatId && rows[l].claims.replyTo == replyTo {
      assert Answers(rows[l], chatId, replyTo);
      assert k.Some? && Answers(rows[k.value], chatId, replyTo);
    }
  }

  /** A recovery returns exactly the claims of a genuine consumed row of the delivery. */
  lemma RecoveryIsGenuine(s: Settings, rows: Rows, chatId: string, replyTo: nat)
    requires Table(rows)
    ensures var reply := Consumed(s, rows, chatId, replyTo);
      && (reply.Some? <==>
            && chatId == s.chatId && replyTo > 0
            && exists k :: k in rows && rows[k].claims.chatId == chatId && rows[k].claims.replyTo == replyTo
                           && rows[k].consumedAt != None && Genuine(s.secret, rows[k]))
      && (reply.Some? ==>
            exists k :: k in rows && rows[k].claims.chatId == chatId && rows[k].claims.replyTo == replyTo
                        && reply.value == Reply(chatId, rows[k].claims.senderId, rows[k].claims.messageId, replyTo,
                                                rows[k].claims.text))
  {
    var k := RowFor(rows, chatId, replyTo);
    if l :| l in rows && rows[l].claims.chatId == chatId && rows[l].claims.replyTo == replyTo {
      assert Answers(rows[l], chatId, replyTo);
      assert k.Some? && Answers(rows[k.value], chatId, replyTo);
    }
  }

  // ---------- What the operations keep ----------

  /** Rows are never removed or rewritten, except for the one step from unconsumed to consumed. */
  ghost predicate OnlyConsumes(secret: string, rows: Rows, later: Rows) {
    forall k :: k in rows ==>
      && k in later
      && (later[k] == rows[k] ||
          (rows[k].consumedAt.None? && exists t :: later[k] == RowOf(secret, rows[k].claims, Some(t))))
  }

  lemma OnlyConsumesTransitive(secret: string, a: Rows, b: Rows, c: Rows)
    requires OnlyConsumes(secret, a, b) && OnlyConsumes(secret, b, c)
    ensures OnlyConsumes(secret, a, c)
  {
  }

  lemma IngestKeepsTable(secret: string, rows: Rows, c: Claims)
    requires Table(rows)
    ensures Table(Ingested(secret, rows, c).0)
  {
    hide Validated, MessageHashOf;
  }

  lemma IngestKeeps(s: Settings, rows: Rows, c: Claims)
    requires Table(rows) && Authentic(s, rows)
    requires c.updateId > 0 && c.messageId > 0 && c.replyTo > 0 && c.senderId in s.senders && c.chatId == s.chatId
    ensures var after := Ingested(s.secret, rows, c).0;
      Table(after) && Authentic(s, after) && OnlyConsumes(s.secret, rows, after)
  {
    hide Table, Collides;
    IngestKeepsTable(s.secret, rows, c);
  }

  lemma ClaimKeeps(s: Settings, rows: Rows, chatId: string, replyTo: nat, now: nat)
    requires Table(rows) && Authentic(s, rows)
    ensures var after := Claimed(s, rows, chatId, replyTo, now).0;
      Table(after) && Authentic(s, after) && OnlyConsumes(s.secret, rows, after)
  {
    var k := RowFor(rows, chatId, replyTo);
    if Claimed(s, rows, chatId, replyTo, now).1.Some? {
      assert Claimed(s, rows, chatId, replyTo, now).0[k.value] == RowOf(s.secret, rows[k.value].claims, Some(now));
    }
  }

  /** Re-ingesting an accepted update changes nothing and is accepted again; a different
      update that reuses its number, its message or its place in the thread is refused. */
  lemma IngestIsIdempotent(s: Settings, rows: Rows, c: Claims, d: Claims, later: Rows)
    requires Table(rows) && Authentic(s, rows) && Ingested(s.secret, rows, c).1
    requires Table(later) && Authentic(s, later) && OnlyConsumes(s.secret, Ingested(s.secret, rows, c).0, later)
    ensures Ingested(s.secret, later, c) == (later, true)
    ensures d != c && (d.updateId == c.updateId || d.messageId == c.messageId || (d.chatId == c.chatId && d.replyTo == c.replyTo)) ==>
      Ingested(s.secret, later, d).0 == later && (d.updateId !in later ==> !Ingested(s.secret, later, d).1)
    ensures d != c && d.updateId == c.updateId ==> !Ingested(s.secret, later, d).1
  {
    assert c.updateId in later && later[c.updateId].claims == c;
    if d.messageId == c.messageId || (d.chatId == c.chatId && d.replyTo == c.replyTo) {
      assert Collides(later, d);
    }
  }

  /** Two rows for the same delivery are the same row, now and later. */
  lemma RowForIsStable(s: Settings, rows: Rows, later: Rows, chatId: string, replyTo: nat)
    requires Table(rows) && Table(later) && OnlyConsumes(s.secret, rows, later)
    requires RowFor(rows, chatId, replyTo).Some?
    ensures RowFor(later, chatId, replyTo) == RowFor(rows, chatId, replyTo)
    ensures var k := RowFor(rows, chatId, replyTo).value; k in later && later[k].claims == rows[k].claims
  {
    var k := RowFor(rows, chatId, replyTo).value;
    assert Answers(later[k], chatId, replyTo);
  }

  /** A claim succeeds once: from then on every claim fails and every recovery returns the
      reply that was claimed. */
  lemma ClaimedOnce(s: Settings, rows: Rows, later: Rows, chatId: string, replyTo: nat, now: nat, then_: nat)
    requires Table(rows) && Authentic(s, rows) && Table(later) && Authentic(s, later)
    requires Claimed(s, rows, chatId, replyTo, now).1.Some?
    requires OnlyConsumes(s.secret, Claimed(s, rows, chatId, replyTo, now).0, later)
    ensures Claimed(s, later, chatId, replyTo, then_) == (later, None)
    ensures Consumed(s, later, chatId, replyTo) == Claimed(s, rows, chatId, replyTo, now).1
  {
    var after := Claimed(s, rows, chatId, replyTo, now).0;
    ClaimKeeps(s, rows, chatId, replyTo, now);
    RowForIsStable(s, rows, after, chatId, replyTo);
    RowForIsStable(s, after, later, chatId, replyTo);
  }

  lemma ClaimedWasFresh(s: Settings, rows: Rows, chatId: string, replyTo: nat, now: nat)
    requires Claimed(s, rows, chatId, replyTo, now).1.Some?
    ensures Claimed(s, rows, chatId, replyTo, now).1.value.replyTo == replyTo
    ensures Consumed(s, rows, chatId, replyTo) == None
  {
  }

  /** A consumed reply stays the one that every later recovery returns. */
  lemma ConsumedIsStable(s: Settings, rows: Rows, later: Rows, chatId: string, replyTo: nat)
    requires Table(rows) && Table(later) && Authentic(s, rows) && Authentic(s, later) && OnlyConsumes(s.secret, rows, later)
    requires Consumed(s, rows, chatId, replyTo).Some?
    ensures Consumed(s, later, chatId, replyTo) == Consumed(s, rows, chatId, replyTo)
  {
    RowForIsStable(s, rows, later, chatId, replyTo);
  }

  // ---------- The adapter ----------

  class Adapter {
    const settings: Settings
    var rows: Rows

    /** The constraints of the database; nothing is assumed about what the rows contain. */
    ghost predicate Valid()
      reads this
    {
      Table(rows)
    }

    constructor (settings: Settings)
      ensures Valid() && this.settings == settings && rows == map[]
    {
      this.settings := settings;
      rows := map[];
    }

    /** Journals one update; false for anything unauthenticated, malformed or conflicting. */
    method IngestWebhook(body: Option<Json>, header: Option<string>) returns (ok: bool)
      requires Valid()
      modifies this
      ensures Valid()
      ensures var c := ClaimsFrom(settings, body);
        if settings.secret == "" || header != Some(settings.secret) || c.None? then !ok && rows == old(rows)
        else (rows, ok) == Ingested(settings.secret, old(rows), c.value)
    {
      if settings.secret == "" || header != Some(settings.secret) {
        return false;
      }
      var parsed := ClaimsFrom(settings, body);
      if parsed.None? {
        return false;
      }
      var c := parsed.value;
      if c.updateId in rows {
        return rows[c.updateId].updateHash == UpdateHash(c);
      }
      if exists k :: k in rows && (rows[k].claims.messageId == c.messageId || Answers(rows[k], c.chatId, c.replyTo)) {
        return false;
      }
      rows := rows[c.updateId := Row(c, UpdateHash(c), MessageHashOf(c), Mac(settings.secret, c, None), None)];
      return true;
    }

    /** The row of one delivery, as the unique index finds it. */
    method Lookup(chatId: string, replyTo: nat) returns (k: Option<nat>)
      requires Valid()
      ensures k == RowFor(rows, chatId, replyTo)
    {
      if exists l :: l in rows && Answers(rows[l], chatId, replyTo) {
        var l :| l in rows && Answers(rows[l], chatId, replyTo);
        return Some(l);
      }
      return None;
    }

    /** Consumes the fresh reply of one delivery. */
    method ClaimVerifiedReply(chatId: string, replyTo: nat, now: nat) returns (r: Option<Reply>)
      requires Valid()
      modifies this
      ensures Valid()
      ensures settings.secret == "" ==> r == None && rows == old(rows)
      ensures settings.secret != "" ==> (rows, r) == Claimed(settings, old(rows), chatId, replyTo, now)
    {
      if settings.secret == "" || chatId != settings.chatId || replyTo == 0 {
        return None;
      }
      var k := Lookup(chatId, replyTo);
      if k.None? || rows[k.value].consumedAt.Some? {
        return None;
      }
      var row := rows[k.value];
      var claims := Validated(settings.secret, row);
      if claims.None? {
        return None;
      }
      rows := rows[k.value := row.(consumedAt := Some(now), mac := Mac(settings.secret, claims.value, Some(now)))];
      return Some(ReplyOf(claims.value));
    }

    /** The reply a claim has consumed, if the row still carries a valid MAC. */
    method ReadConsumedReply(chatId: string, replyTo: nat) returns (r: Option<Reply>)
      requires Valid()
      ensures settings.secret == "" ==> r == None
      ensures settings.secret != "" ==> r == Consumed(settings, rows, chatId, replyTo)
    {
      if settings.secret == "" || chatId != settings.chatId || replyTo == 0 {
        return None;
      }
      var k := Lookup(chatId, replyTo);
      if k.None? || rows[k.value].consumedAt.None? {
        return None;
      }
      var claims := Validated(settings.secret, rows[k.value]);
      return if claims.None? then None else Some(ReplyOf(claims.value));
    }

    /** Confirms a stored reply against the journal without consuming anything. */
    method RevalidateReply(document: Reply) returns (r: Option<Reply>)
      requires Valid()
      ensures r == Some(document) || r == None
      ensures r.Some? <==> settings.secret != "" && Consumed(settings, rows, document.chatId, document.replyTo) == Some(document)
    {
      var reply := ReadConsumedReply(document.chatId, document.replyTo);
      return if reply == Some(document) then reply else None;
    }
  }
}
