/** Server-side sessions and the plugin's session registry (server/session.go). */
module Sessions {
  import opened Wrappers
  import opened ChannelStates

  /** Capacity of each session's inbound and outbound WebSocket message queue. */
  const WsChSize: nat := 10

  /** A WebSocket message. */
  type Frame = seq<bv8>

  /** A message queue (a buffered Go channel): its capacity and the messages
      waiting in it. */
  datatype Queue = Queue(capacity: nat, items: seq<Frame>)

  /** An opaque reference to a connection or media object owned by a foreign
      library (WebSocket connection, WebRTC track, WebRTC peer connection). */
  type Handle = nat

  /** One connected participant. */
  datatype Session = Session(
    userID: string,
    channelID: string,
    isMuted: bool,
    isSpeaking: bool,
    wsIn: Queue,
    wsOut: Queue,
    wsConn: Option<Handle>,
    outTrack: Option<Handle>,
    outConn: Option<Handle>)

  /** A new session for `userID` in `channelID`: not muted, not speaking, two
      empty queues of capacity WsChSize, and no connection or media handle yet. */
  function NewUserSession(userID: string, channelID: string): (s: Session)
    ensures s.userID == userID && s.channelID == channelID
    ensures !s.isMuted && !s.isSpeaking
    ensures s.wsIn == Queue(10, []) && s.wsOut == Queue(10, [])
    ensures s.wsConn.None? && s.outTrack.None? && s.outConn.None?
  {
    Session(userID, channelID, false, false,
            Queue(WsChSize, []), Queue(WsChSize, []), None, None, None)
  }

  /** The record stored under `channelID`, None when there is none (the nil
      state a store transform receives). */
  function Lookup(store: map<string, ChannelState>, channelID: string): Option<ChannelState>
  {
    if channelID in store then Some(store[channelID]) else None
  }

  /** The plugin's state that the session operations touch: the registry of
      live sessions by user id, and the per-channel records of the key-value
      store. */
  class Plugin {
    var sessions: map<string, Session>
    var channels: map<string, ChannelState>

    /** Every stored channel record keeps the call invariant. */
    ghost predicate Valid()
      reads this
    {
      forall c :: c in channels ==> WellFormed(channels[c])
    }

    constructor(initial: map<string, ChannelState>)
      requires forall c :: c in initial ==> WellFormed(initial[c])
      ensures Valid()
      ensures sessions == map[] && channels == initial
    {
      sessions := map[];
      channels := initial;
    }

    /** One atomic read-modify-write of the record of `channelID`: the
        transform sees the stored record (or None) and, when it succeeds, its
        result replaces the record; when it fails the store is unchanged. */
    method KvSetAtomicChannelState(channelID: string,
                                   transform: Option<ChannelState> -> Result<ChannelState, StoreError>)
      returns (r: Result<ChannelState, StoreError>)
      modifies this`channels
      ensures r == transform(Lookup(old(channels), channelID))
      ensures channels == if r.Ok? then old(channels)[channelID := r.value] else old(channels)
    {
      r := transform(Lookup(channels, channelID));
      if r.Ok? {
        channels := channels[channelID := r.value];
      }
    }

    /** Registers `userSession` under `userID` (replacing any earlier entry),
        then adds the user to the call of `channelID`. The registry entry is
        written even when the store transaction fails. On success the result
        is the record now stored. */
    method AddUserSession(userID: string, channelID: string, userSession: Session,
                          newID: string, now: int)
      returns (r: Result<ChannelState, StoreError>)
      requires Valid()
      modifies this
      ensures Valid()
      ensures sessions == old(sessions)[userID := userSession]
      ensures r == AddTransform(Lookup(old(channels), channelID), userID, newID, now)
      ensures r.Err? <==> channelID !in old(channels)
      ensures channels == if r.Ok? then old(channels)[channelID := r.value] else old(channels)
    {
      sessions := sessions[userID := userSession];
      r := KvSetAtomicChannelState(channelID, (s: Option<ChannelState>) => AddTransform(s, userID, newID, now));
    }

    /** Drops the registry entry of `userID`, then removes the user from the
        call of `channelID`. The entry is dropped even when the store
        transaction fails. On success the result is the record now stored. */
    method RemoveUserSession(userID: string, channelID: string)
      returns (r: Result<ChannelState, StoreError>)
      requires Valid()
      modifies this
      ensures Valid()
      ensures sessions == old(sessions) - {userID}
      ensures r == RemoveTransform(Lookup(old(channels), channelID), userID)
      ensures r.Err? <==> channelID !in old(channels) || old(channels)[channelID].call.None?
      ensures channels == if r.Ok? then old(channels)[channelID := r.value] else old(channels)
    {
      sessions := sessions - {userID};
      r := KvSetAtomicChannelState(channelID, (s: Option<ChannelState>) => RemoveTransform(s, userID));
    }
  }
}
