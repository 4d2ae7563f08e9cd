/** The Telegram bot (backend/app/telegram.py): reading a message's text and link, the web link
    sent back for a tool, and the webhook's routing, including the redemption of a `/start`
    link token. Sending messages and the background research task run outside this model;
    the webhook's reply says what it would start. */
module Telegram {
  import opened Wrappers
  import opened Strings
  import opened FlowState
  import opened Store
  import Canonical

  // ---------------------------------------------------------------------------
  // _web_link_for_tool

  /** The web base: `web_base_url`, else the first allowed origin, else "". */
  function WebBase(webBaseUrl: Option<string>, allowedOrigins: seq<string>): string
  {
    if Given(webBaseUrl) then webBaseUrl.value else if |allowedOrigins| > 0 then allowedOrigins[0] else ""
  }

  /** `_web_link_for_tool`: the base with a trailing "/" and `?tool=<id>`, or "" without a base. */
  function WebLinkForTool(webBaseUrl: Option<string>, allowedOrigins: seq<string>, toolId: string): (link: string)
    ensures var base := WebBase(webBaseUrl, allowedOrigins);
      (link == "" <==> base == "")
      && (base != "" ==>
            StartsWith(link, base) && EndsWith(link, "/?tool=" + toolId)
            && (!EndsWith(base, "/") ==> |link| == |base| + 1 + |"?tool="| + |toolId|)
            && (EndsWith(base, "/") ==> |link| == |base| + |"?tool="| + |toolId|))
  {
    var base := WebBase(webBaseUrl, allowedOrigins);
    if base == "" then ""
    else
      var b := if EndsWith(base, "/") then base else base + "/";
      assert b[..|base|] == base;
      assert b[|b| - 1] == '/';
      var link := b + "?tool=" + toolId;
      assert link[..|base|] == b[..|base|];
      assert link[|link| - |"/?tool=" + toolId|..] == "/?tool=" + toolId by {
        assert link[|b| - 1..] == [b[|b| - 1]] + "?tool=" + toolId;
      }
      link
  }

  // ---------------------------------------------------------------------------
  // _extract_text_and_url

  /** A message entity. `offset` and `length` are `None` when `int(...)` raises on them; a
      missing key stands for 0. */
  datatype Entity = Entity(kind: string, offset: Option<int>, length: Option<int>)

  /** The parts of a Telegram message the bot reads: text or caption ("" when absent), their
      entities, the chat id (0 when absent), the sender, and whether it carries a photo the bot
      can download. */
  datatype Message = Message(text: string, caption: string, entities: seq<Entity>, captionEntities: seq<Entity>,
                             chatId: int, username: string, firstName: string, hasPhoto: bool)

  /** `message.get("text") or message.get("caption") or ""`. */
  function RawText(m: Message): string
  {
    if m.text != "" then m.text else m.caption
  }

  /** `message.get("entities") or message.get("caption_entities") or []`. */
  function EntitiesOf(m: Message): seq<Entity>
  {
    if |m.entities| > 0 then m.entities else m.captionEntities
  }

  /** Python's slice index: negatives count from the end, then clamped to `[0, n]`. */
  function SliceIndex(i: int, n: nat): (k: nat)
    ensures k <= n
    ensures 0 <= i <= n ==> k == i
  {
    var j := if i < 0 then i + n else i;
    if j < 0 then 0 else if j > n then n else j
  }

  /** `r` is a contiguous piece of `s`: a prefix of one of its suffixes. */
  predicate PieceOf(r: string, s: string)
  {
    exists i :: 0 <= i <= |s| && r <= s[i..]
  }

  /** Python's `s[a:b]`. */
  function PySlice(s: string, a: int, b: int): (r: string)
    ensures |r| <= |s|
    ensures 0 <= a <= b <= |s| ==> r == s[a..b]
    ensures PieceOf(r, s)
  {
    var i := SliceIndex(a, |s|);
    var j := SliceIndex(b, |s|);
    if i < j then (assert s[i..j] <= s[i..]; s[i..j]) else (assert [] <= s[0..]; [])
  }

  /** The entity `_extract_text_and_url` uses: a "url" entity whose offset and length convert. */
  predicate IsUrlEntity(e: Entity)
  {
    e.kind == "url" && e.offset.Some? && e.length.Some?
  }

  /** The index of the first usable "url" entity. */
  function FirstUrlEntity(ents: seq<Entity>): (r: Option<nat>)
    ensures r.Some? ==> r.value < |ents| && IsUrlEntity(ents[r.value])
                        && forall j :: 0 <= j < r.value ==> !IsUrlEntity(ents[j])
    ensures r.None? ==> forall j :: 0 <= j < |ents| ==> !IsUrlEntity(ents[j])
  {
    if |ents| == 0 then None
    else if IsUrlEntity(ents[0]) then Some(0)
    else match FirstUrlEntity(ents[1..])
      case None => None
      case Some(k) => Some(k + 1)
  }

  /** The first whitespace-separated token of a text that starts with "http". */
  function FirstToken(text: string): (w: string)
    requires StartsWith(text, "http")
    ensures w == SplitWs(text)[0]
    ensures StartsWith(w, "http") && IsWord(w) && w == text[..|w|]
  {
    assert forall i :: 0 <= i < 4 ==> text[i] == "http"[i];
    WordPrefixAtLeast(text, 4);
    var w := WordPrefix(text);
    assert w[..4] == text[..4];
    w
  }

  /** A text whose first `k` characters are not whitespace has a first word of at least `k`. */
  lemma {:induction false} WordPrefixAtLeast(s: string, k: nat)
    requires k <= |s| && forall i :: 0 <= i < k ==> !IsSpace(s[i])
    ensures |WordPrefix(s)| >= k
  {
    if k > 0 {
      WordPrefixAtLeast(s[1..], k - 1);
    }
  }

  /** The slice of the text the first usable "url" entity marks, when the text is not empty. */
  function EntityUrl(text: string, ents: seq<Entity>): (url: Option<string>)
    ensures url.Some? ==> PieceOf(url.value, text)
    ensures url.Some? <==> text != "" && FirstUrlEntity(ents).Some?
  {
    if text == "" then None
    else match FirstUrlEntity(ents)
      case None => None
      case Some(k) => Some(PySlice(text, ents[k].offset.value, ents[k].offset.value + ents[k].length.value))
  }

  /** The URL `_extract_text_and_url` reports for the stripped text and the entities. */
  function UrlOf(text: string, ents: seq<Entity>): (url: Option<string>)
  {
    var fromEntity := EntityUrl(text, ents);
    if !Given(fromEntity) && StartsWith(text, "http") then Some(FirstToken(text)) else fromEntity
  }

  /** The URL is always a piece of the text: the entity's slice, or the first token of a text
      that starts with "http". */
  lemma UrlInText(text: string, ents: seq<Entity>)
    ensures var url := UrlOf(text, ents);
      url.Some? ==> |url.value| <= |text| && PieceOf(url.value, text)
    ensures !Given(UrlOf(text, ents)) ==> !StartsWith(text, "http")
    ensures FirstUrlEntity(ents).None? && StartsWith(text, "http") ==> UrlOf(text, ents) == Some(SplitWs(text)[0])
  {
    if !Given(EntityUrl(text, ents)) && StartsWith(text, "http") {
      var w := FirstToken(text);
      assert w <= text[0..];
    }
  }

  /** `_extract_text_and_url`: the stripped text, and the first usable "url" entity's slice of
      it, else the first token when the text starts with "http". */
  method ExtractTextAndUrl(m: Message) returns (text: string, url: Option<string>)
    ensures text == Strip(RawText(m))
    ensures url == UrlOf(text, EntitiesOf(m))
  {
    text := Strip(RawText(m));
    url := None;
    var ents := EntitiesOf(m);
    if text != "" {
      var i := 0;
      while i < |ents|
        invariant 0 <= i <= |ents|
        invariant forall j :: 0 <= j < i ==> !IsUrlEntity(ents[j])
      {
        var e := ents[i];
        if e.kind == "url" && e.offset.Some? && e.length.Some? {
          url := Some(PySlice(text, e.offset.value, e.offset.value + e.length.value));
          assert FirstUrlEntity(ents) == Some(i);
          break;
        }
        i := i + 1;
      }
    }
    if !Given(url) && StartsWith(text, "http") {
      url := Some(FirstToken(text));
    }
  }

  // ---------------------------------------------------------------------------
  // telegram_webhook

  /** An update: its message, else its edited message (`None` for a missing or empty one). */
  datatype Update = Update(message: Option<Message>, editedMessage: Option<Message>)

  /** The webhook's answers; `Accepted` names what the background research is started with:
      a URL or a name, and the site user the chat is linked to. `Screenshot` is the photo
      path, which is not part of this model. */
  datatype Reply = NoMessage | NoChat | LinkUsed | LinkExpired | Linked | AckStart | AckHelp | Screenshot | Ack
                 | Accepted(url: Option<string>, name: Option<string>, userId: Option<string>)

  function MessageOf(u: Update): Option<Message>
  {
    if u.message.Some? then u.message else u.editedMessage
  }

  /** The token of `/start TOKEN`: `raw_text.split(maxsplit=1)` has a second part exactly when
      the stripped text holds whitespace; the token is that part, stripped. */
  function StartToken(raw: string): (tok: Option<string>)
    ensures tok.Some? <==> |WordPrefix(raw)| < |raw|
  {
    var w := WordPrefix(raw);
    if |w| == |raw| then None else Some(Strip(raw[|w|..]))
  }

  /** Redeeming a link token from chat `chatId`: an unknown token is acknowledged like a plain
      `/start`; a used one and one past `expires_at` are refused; otherwise the chat is linked
      to the token's user and the token is marked used. */
  function Redeem(tb: Tables, token: string, chatId: int, username: string, firstName: string, now: int)
    : (r: (Tables, Reply))
    ensures r.1 in {AckStart, LinkUsed, LinkExpired, Linked}
    ensures token !in tb.linkTokens ==> r.1 == AckStart
    ensures r.1 == Linked <==> token in tb.linkTokens && !tb.linkTokens[token].used && tb.linkTokens[token].expiresAt >= now
    ensures r.1 == LinkUsed <==> token in tb.linkTokens && tb.linkTokens[token].used
    ensures r.1 != Linked ==> r.0 == tb
    ensures r.1 == Linked ==>
      r.0 == tb.(telegramUsers := r.0.telegramUsers, linkTokens := r.0.linkTokens)
      && r.0.linkTokens.Keys == tb.linkTokens.Keys && r.0.linkTokens[token].used
      && r.0.linkTokens[token].userId == tb.linkTokens[token].userId
      && (forall k :: k in tb.linkTokens && k != token ==> r.0.linkTokens[k] == tb.linkTokens[k])
      && chatId in r.0.telegramUsers
      && r.0.telegramUsers[chatId] == TelegramUser(username, firstName, tb.linkTokens[token].userId)
      && (forall c :: c != chatId ==> (c in r.0.telegramUsers <==> c in tb.telegramUsers))
      && (forall c :: c in tb.telegramUsers && c != chatId ==> r.0.telegramUsers[c] == tb.telegramUsers[c])
  {
    if token !in tb.linkTokens then (tb, AckStart)
    else
      var row := tb.linkTokens[token];
      if row.used then (tb, LinkUsed)
      else if row.expiresAt < now then (tb, LinkExpired)
      else
        (tb.(telegramUsers := tb.telegramUsers[chatId := TelegramUser(username, firstName, row.userId)],
             linkTokens := tb.linkTokens[token := row.(used := true)]),
         Linked)
  }

  /** A token links a chat at most once: once redeemed, every later redemption is refused. */
  lemma RedeemAtMostOnce(tb: Tables, token: string, chatId: int, username: string, firstName: string, now: int,
                         chatId': int, username': string, firstName': string, now': int)
    requires Redeem(tb, token, chatId, username, firstName, now).1 == Linked
    ensures var tb' := Redeem(tb, token, chatId, username, firstName, now).0;
      Redeem(tb', token, chatId', username', firstName', now') == (tb', LinkUsed)
  {
  }

  /** The linked site user of a chat, if any. */
  function LinkedUser(tb: Tables, chatId: int): (u: Option<string>)
    ensures u.Some? ==> chatId in tb.telegramUsers && u.value == tb.telegramUsers[chatId].linkedUserId && u.value != ""
    ensures u.None? ==> chatId !in tb.telegramUsers || tb.telegramUsers[chatId].linkedUserId == ""
  {
    if chatId in tb.telegramUsers && tb.telegramUsers[chatId].linkedUserId != "" then
      Some(tb.telegramUsers[chatId].linkedUserId)
    else None
  }

  /** `telegram_webhook` on the non-photo path. */
  method Webhook(db: Database, secret: Option<string>, pathToken: string, update: Update, now: int)
    returns (r: Result<Reply>)
    requires db.Valid()
    modifies db
    ensures db.Valid()
    ensures r.Err? <==> !Given(secret) || pathToken != secret.value
    // Only a successful redemption writes.
    ensures r != Ok(Linked) ==> db.tables == old(db.tables)
    ensures r.Ok? ==> (r.value == NoMessage <==> MessageOf(update).None?)
    ensures r.Ok? && MessageOf(update).Some? ==> (r.value == NoChat <==> MessageOf(update).value.chatId == 0)
    ensures r.Ok? && MessageOf(update).Some? && MessageOf(update).value.chatId != 0 ==>
      var m := MessageOf(update).value;
      var raw := Strip(RawText(m));
      var tok := StartToken(raw);
      (StartsWith(raw, "/start") && tok.None? ==> r.value == AckStart)
      && (StartsWith(raw, "/start") && tok.Some? ==>
            (db.tables, r.value) == Redeem(old(db.tables), tok.value, m.chatId, m.username, m.firstName, now))
      && (!StartsWith(raw, "/start") && StartsWith(raw, "/help") ==> r.value == AckHelp)
      && (!StartsWith(raw, "/start") && !StartsWith(raw, "/help") ==> TextReply(r.value, m, old(db.tables)))
  {
    if !Given(secret) || pathToken != secret.value {
      return Err("403: Forbidden");
    }
    var msg := MessageOf(update);
    if msg.None? {
      return Ok(NoMessage);
    }
    var m := msg.value;
    if m.chatId == 0 {
      return Ok(NoChat);
    }
    var raw := Strip(RawText(m));
    if StartsWith(raw, "/start") {
      var tok := StartToken(raw);
      if tok.Some? {
        var res := Redeem(db.tables, tok.value, m.chatId, m.username, m.firstName, now);
        db.tables := res.0;
        return Ok(res.1);
      }
      return Ok(AckStart);
    }
    if StartsWith(raw, "/help") {
      return Ok(AckHelp);
    }
    if m.hasPhoto {
      return Ok(Screenshot);
    }
    var text, url := ExtractTextAndUrl(m);
    var name: Option<string> := None;
    if Given(url) {
      var c := Canonical.CanonicalizeUrl(url.value);
      if c.Ok? {
        url := Some(c.value);
      }
    } else {
      name := Some(text);
    }
    if Given(url) {
      return Ok(Accepted(url, None, LinkedUser(db.tables, m.chatId)));
    } else if Given(name) {
      return Ok(Accepted(None, name, LinkedUser(db.tables, m.chatId)));
    }
    return Ok(Ack);
  }

  /** The reply to a plain message: a screenshot goes to the photo path; a detected URL is
      researched in canonical form (as detected when it does not parse); otherwise the whole
      text is the tool name; an empty text is only acknowledged. */
  ghost predicate TextReply(r: Reply, m: Message, tb: Tables)
  {
    var text := Strip(RawText(m));
    var url := UrlOf(text, EntitiesOf(m));
    if m.hasPhoto then r == Screenshot
    else if Given(url) then
      r.Accepted? && r.name.None? && r.userId == LinkedUser(tb, m.chatId)
      && r.url == (match Canonical.CanonicalizeUrl(url.value) case Ok(c) => Some(c) case Err(_) => url)
    else if text != "" then r == Accepted(None, Some(text), LinkedUser(tb, m.chatId))
    else r == Ack
  }
}
