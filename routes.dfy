/**
 * The REST requests built by the HTTP methods of `Session` in
 * src/client/session.rs: for each operation, the verb, the URI and the
 * rate-limit key handed to the HTTP client.  The base URL (`DISCORD_URL`
 * of the http module) is a parameter; request bodies are serialised JSON
 * and are not modelled.
 */
module Routes {
  import opened PercentEncoding

  datatype Verb = Get | Post | Put | Patch | Delete

  /** One REST operation of `Session`, with the arguments that shape its request. */
  datatype Operation =
    | GetChannel(channelId: string)
    | EditChannel(channelId: string)
    | DeleteChannel(channelId: string)
    | GetMessagesAround(channelId: string, messageId: string, limit: byte)
    | GetMessagesBefore(channelId: string, messageId: string, limit: byte)
    | GetMessagesAfter(channelId: string, messageId: string, limit: byte)
    | GetMessage(channelId: string, messageId: string)
    | SendMessage(channelId: string)
    | AddReaction(channelId: string, messageId: string, emoji: seq<byte>)
    | RemoveOwnReaction(channelId: string, messageId: string, emoji: seq<byte>)
    | RemoveUserReaction(channelId: string, messageId: string, user: string, emoji: seq<byte>)
    | GetReactions(channelId: string, messageId: string, emoji: seq<byte>)
    | RemoveAllReactions(channelId: string, messageId: string)
    | RemoveAllEmojiReactions(channelId: string, messageId: string, emoji: seq<byte>)
    | EditMessage(channelId: string)
    | DeleteMessage(channelId: string, messageId: string)
    | DeleteManyMessages(channelId: string)
    | EditChannelPermissions(channelId: string)

  datatype Request = Request(verb: Verb, uri: string, rateLimitKey: string)

  /** The operations on a message's reactions. */
  predicate IsReaction(op: Operation)
  {
    || op.AddReaction? || op.RemoveOwnReaction? || op.RemoveUserReaction?
    || op.GetReactions? || op.RemoveAllReactions? || op.RemoveAllEmojiReactions?
  }

  /** Bucket shared by a channel and its messages. */
  function ChannelsKey(channelId: string): string
  {
    "channels:" + channelId
  }

  /** Bucket shared by the reactions on a channel's messages. */
  function EmojiKey(channelId: string): string
  {
    "channel:" + channelId + ":emoji"
  }

  /** Decimal text of a number, as `{}` formats an integer. */
  function Decimal(n: nat): (r: string)
    ensures |r| > 0
    decreases n
  {
    if n < 10 then [('0' as int + n) as char]
    else Decimal(n / 10) + [('0' as int + n % 10) as char]
  }

  /**
   * The rate-limit key each `Session` method passes to the HTTP client:
   * reaction operations use the channel's emoji bucket, all others the
   * channel's bucket.
   */
  function RateLimitKey(op: Operation): (k: string)
    ensures !IsReaction(op) ==> k == ChannelsKey(op.channelId)
    ensures IsReaction(op) ==> k == EmojiKey(op.channelId)
  {
    match op
    case GetChannel(c) => "channels:" + c
    case EditChannel(c) => "channels:" + c
    case DeleteChannel(c) => "channels:" + c
    case GetMessagesAround(c, _, _) => "channels:" + c
    case GetMessagesBefore(c, _, _) => "channels:" + c
    case GetMessagesAfter(c, _, _) => "channels:" + c
    case GetMessage(c, _) => "channels:" + c
    case SendMessage(c) => "channels:" + c
    case AddReaction(c, _, _) => "channel:" + c + ":emoji"
    case RemoveOwnReaction(c, _, _) => "channel:" + c + ":emoji"
    case RemoveUserReaction(c, _, _, _) => "channel:" + c + ":emoji"
    case GetReactions(c, _, _) => "channel:" + c + ":emoji"
    case RemoveAllReactions(c, _) => "channel:" + c + ":emoji"
    case RemoveAllEmojiReactions(c, _, _) => "channel:" + c + ":emoji"
    case EditMessage(c) => "channels:" + c
    case DeleteMessage(c, _) => "channels:" + c
    case DeleteManyMessages(c) => "channels:" + c
    case EditChannelPermissions(c) => "channels:" + c
  }

  /**
   * The verb of each `Session` method's request and the path it appends to
   * the base URL, written as the source writes them, including its quirks:
   * `get_message` uses `/channel/`, `edit_message` posts to `/messages` with
   * no message id, and `edit_channel_permissions` issues a GET whose
   * overwrite id is empty.
   */
  function Endpoint(op: Operation): (Verb, string)
  {
    match op
    case GetChannel(c) => (Get, "/channels/" + c)
    case EditChannel(c) => (Patch, "/channels/" + c)
    case DeleteChannel(c) => (Delete, "/channels/" + c)
    case GetMessagesAround(c, m, limit) =>
      (Get, "/channels/" + c + "/messages?around=" + m + "&limit=" + Decimal(limit as nat))
    case GetMessagesBefore(c, m, limit) =>
      (Get, "/channels/" + c + "/messages?before=" + m + "&limit=" + Decimal(limit as nat))
    case GetMessagesAfter(c, m, limit) =>
      (Get, "/channels/" + c + "/messages?after=" + m + "&limit=" + Decimal(limit as nat))
    case GetMessage(c, m) => (Get, "/channel/" + c + "/messages/" + m)
    case SendMessage(c) => (Post, "/channels/" + c + "/messages")
    case AddReaction(c, m, e) =>
      (Put, "/channels/" + c + "/messages/" + m + "/reactions/" + PercentEncode(e) + "/@me")
    case RemoveOwnReaction(c, m, e) =>
      (Delete, "/channels/" + c + "/messages/" + m + "/reactions/" + PercentEncode(e) + "/@me")
    case RemoveUserReaction(c, m, u, e) =>
      (Delete, "/channels/" + c + "/messages/" + m + "/reactions/" + PercentEncode(e) + "/" + u)
    case GetReactions(c, m, e) =>
      (Get, "/channels/" + c + "/messages/" + m + "/reactions/" + PercentEncode(e))
    case RemoveAllReactions(c, m) => (Delete, "/channels/" + c + "/messages/" + m + "/reactions")
    case RemoveAllEmojiReactions(c, m, e) =>
      (Delete, "/channels/" + c + "/messages/" + m + "/reactions/" + PercentEncode(e))
    case EditMessage(c) => (Post, "/channels/" + c + "/messages")
    case DeleteMessage(c, m) => (Delete, "/channels/" + c + "/messages/" + m)
    case DeleteManyMessages(c) => (Post, "/channels/" + c + "/messages/bulk-delete")
    case EditChannelPermissions(c) => (Get, "/channels/" + c + "/permissions/" + "")
  }

  /** The request a `Session` method hands to the HTTP client. */
  function RequestFor(base: string, op: Operation): (r: Request)
    ensures |r.uri| >= |base| && r.uri[..|base|] == base
    ensures r.rateLimitKey == RateLimitKey(op)
  {
    Request(Endpoint(op).0, base + Endpoint(op).1, RateLimitKey(op))
  }

  /** A "channels:" key never equals a "channel:…:emoji" key, whatever the two channels. */
  lemma KeyFamiliesDisjoint(c: string, d: string)
    ensures ChannelsKey(c) != EmojiKey(d)
  {
    assert ChannelsKey(c)[7] == 's';
    assert EmojiKey(d)[7] == ':';
  }

  lemma ChannelsKeyInjective(c: string, d: string)
    requires ChannelsKey(c) == ChannelsKey(d)
    ensures c == d
  {
    assert c == ChannelsKey(c)[9..];
    assert d == ChannelsKey(d)[9..];
  }

  lemma EmojiKeyInjective(c: string, d: string)
    requires EmojiKey(c) == EmojiKey(d)
    ensures c == d
  {
    assert c == EmojiKey(c)[8..|EmojiKey(c)| - 6];
    assert d == EmojiKey(d)[8..|EmojiKey(d)| - 6];
  }

  /**
   * Two requests share a rate-limit bucket exactly when they address the same
   * channel and are both reaction operations or both not: the message id, the
   * verb and the other arguments play no part.
   */
  lemma SameBucket(op1: Operation, op2: Operation)
    ensures RateLimitKey(op1) == RateLimitKey(op2)
        <==> op1.channelId == op2.channelId && IsReaction(op1) == IsReaction(op2)
  {
    var k1, k2 := RateLimitKey(op1), RateLimitKey(op2);
    if k1 == k2 {
      if IsReaction(op1) && IsReaction(op2) {
        EmojiKeyInjective(op1.channelId, op2.channelId);
      } else if !IsReaction(op1) && !IsReaction(op2) {
        ChannelsKeyInjective(op1.channelId, op2.channelId);
      } else if IsReaction(op1) {
        KeyFamiliesDisjoint(op2.channelId, op1.channelId);
      } else {
        KeyFamiliesDisjoint(op1.channelId, op2.channelId);
      }
    }
  }

  /**
   * Every URI names its channel right after the base URL: under `/channels/`
   * for all operations but `get_message`, which uses `/channel/`.
   */
  lemma PathNamesChannel(op: Operation)
    ensures var path, c := Endpoint(op).1, op.channelId;
      if op.GetMessage? then
        |path| >= |"/channel/" + c| && path[..|"/channel/" + c|] == "/channel/" + c
      else
        |path| >= |"/channels/" + c| && path[..|"/channels/" + c|] == "/channels/" + c
  {
  }
}
