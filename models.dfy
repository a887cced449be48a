/**
 * The gateway values the client exchanges with the gateway connection:
 * outbound commands, inbound events, the dispatch payload kinds the client
 * routes to handlers, its configuration and its errors.  Their definitions
 * live in modules of the repository that are not part of this model
 * (models::gateway, error, client::config); only what the client reads of
 * them is kept, and payloads other than Ready's session id are dropped.
 */
module Models {
  import opened Wrappers

  newtype u64 = x: int | 0 <= x < 0x1_0000_0000_0000_0000

  /** Errors; only `AuthenticationFailed` is told apart by the client. */
  datatype DiscordError = AuthenticationFailed | OtherError(description: string)

  /** The gateway settings the client reads from its `Config`. */
  datatype Config = Config(
    gatewayShardId: nat,
    gatewayNumShards: nat,
    gatewayLargeThreshold: nat,
    gatewayGuildsSubscriptions: bool)

  /** The commands the client itself sends (heartbeats are sent by the heartbeater). */
  datatype Command =
    | Identify(token: string, largeThreshold: nat, guildSubscriptions: bool, shard: seq<nat>)
    | Resume(token: string, sessionId: string, lastSequence: Option<u64>)

  /** The dispatch kinds, other than Ready, that `start` routes to a handler. */
  datatype EventKind =
    | ChannelCreate | ChannelUpdate | ChannelDelete | ChannelPinsUpdate
    | GuildCreate | GuildUpdate | GuildDelete | GuildBanAdd | GuildBanRemove
    | GuildEmojisUpdate | GuildIntegrationsUpdate | GuildMemberAdd | GuildMemberUpdate
    | GuildMemberRemove | GuildMembersChunk | GuildRoleCreate | GuildRoleUpdate | GuildRoleDelete
    | MessageCreate | MessageUpdate | MessageDelete | MessageDeleteBulk
    | MessageReactionAdd | MessageReactionRemove | MessageReactionRemoveAll
    | PresenceUpdate | TypingStart | UserUpdate

  /** A slot of the handler table: the Ready handler or the handler of one kind. */
  datatype Handler = OnReady | On(kind: EventKind)

  /** A dispatched event: Ready, a routed kind, or a kind `start` ignores. */
  datatype DispatchEvent =
    | Ready(sessionId: string)
    | Routed(kind: EventKind)
    | Unrouted

  datatype Event =
    | Dispatch(payload: DispatchEvent)
    | ReconnectRequested
    | InvalidSession(resumable: bool)
    | HeartbeatAck
    | Close(reason: DiscordError)
    | Hello(heartbeatInterval: nat)
}
