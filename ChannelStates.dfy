/** The per-channel call record kept in the plugin's key-value store, and the
    two state transforms that joining and leaving apply to it atomically
    (server/session.go, the closures handed to kvSetAtomicChannelState). */
module ChannelStates {
  import opened Wrappers

  /** An active call: its generated id, its start time in Unix milliseconds and
      the set of member user ids (a Go map used as a set). */
  datatype CallState = CallState(id: string, startAt: int, users: set<string>)

  /** The stored record of one channel; `call` is None while no call is active. */
  datatype ChannelState = ChannelState(call: Option<CallState>)

  /** The two errors the transforms raise. */
  datatype StoreError = ChannelStateMissing | CallStateMissing

  /** The text of each error, as the store transaction surfaces it. */
  function Message(e: StoreError): string
  {
    match e
    case ChannelStateMissing => "channel state is missing from store"
    case CallStateMissing => "call state is missing from channel state"
  }

  /** The members of the channel's call; nobody when no call is active. */
  function UsersOf(st: ChannelState): set<string>
  {
    if st.call.Some? then st.call.value.users else {}
  }

  /** The record invariant: a call record exists only while it has members. */
  predicate WellFormed(st: ChannelState)
  {
    st.call.Some? ==> st.call.value.users != {}
  }

  /** The join transform. A missing channel record is an error; a channel with
      no active call gets a fresh call (id `newID`, start `now`, no members);
      then `userID` is added to the members. `newID` and `now` stand for the
      id generator and the clock. */
  function AddTransform(state: Option<ChannelState>, userID: string, newID: string, now: int)
    : (r: Result<ChannelState, StoreError>)
    ensures r.Err? <==> state.None?
    ensures r.Err? ==> r.error == ChannelStateMissing
    ensures r.Err? ==> Message(r.error) == "channel state is missing from store"
    ensures r.Ok? ==> r.value.call.Some? && WellFormed(r.value)
    ensures r.Ok? ==> UsersOf(r.value) == UsersOf(state.value) + {userID}
    ensures r.Ok? && state.value.call.Some? ==>
              r.value.call.value.id == state.value.call.value.id &&
              r.value.call.value.startAt == state.value.call.value.startAt
    ensures r.Ok? && state.value.call.None? ==>
              r.value.call.value.id == newID && r.value.call.value.startAt == now
  {
    match state
    case None => Err(ChannelStateMissing)
    case Some(st) =>
      var call := if st.call.None? then CallState(newID, now, {}) else st.call.value;
      Ok(st.(call := Some(call.(users := call.users + {userID}))))
  }

  /** The leave transform. A missing channel record or a channel with no active
      call is an error; otherwise `userID` is removed from the members and the
      call is cleared once nobody is left. */
  function RemoveTransform(state: Option<ChannelState>, userID: string)
    : (r: Result<ChannelState, StoreError>)
    ensures state.None? ==> r == Err(ChannelStateMissing)
    ensures state.Some? && state.value.call.None? ==> r == Err(CallStateMissing)
    ensures state.None? ==> Message(r.error) == "channel state is missing from store"
    ensures state.Some? && state.value.call.None? ==>
              Message(r.error) == "call state is missing from channel state"
    ensures r.Ok? <==> state.Some? && state.value.call.Some?
    ensures r.Ok? ==> WellFormed(r.value)
    ensures r.Ok? ==> UsersOf(r.value) == UsersOf(state.value) - {userID}
    ensures r.Ok? ==> (r.value.call.None? <==> UsersOf(state.value) - {userID} == {})
    ensures r.Ok? && r.value.call.Some? ==>
              r.value.call.value.id == state.value.call.value.id &&
              r.value.call.value.startAt == state.value.call.value.startAt
  {
    match state
    case None => Err(ChannelStateMissing)
    case Some(st) =>
      match st.call
      case None => Err(CallStateMissing)
      case Some(call) =>
        var users := call.users - {userID};
        if users == {} then Ok(st.(call := None))
        else Ok(st.(call := Some(call.(users := users))))
  }

  /** Joining twice is harmless: adding a member already in the call returns
      the record unchanged. */
  lemma AddIsIdempotent(st: ChannelState, userID: string, newID: string, now: int)
    requires userID in UsersOf(st)
    ensures AddTransform(Some(st), userID, newID, now) == Ok(st)
  {
    var call := st.call.value;
    assert call.users + {userID} == call.users;
  }

  /** Leaving undoes joining: on a well-formed record the user was not in,
      a join followed by a leave gives back the original record (including
      "no call" when the join had created one). */
  lemma RemoveUndoesAdd(st: ChannelState, userID: string, newID: string, now: int)
    requires WellFormed(st) && userID !in UsersOf(st)
    ensures AddTransform(Some(st), userID, newID, now).Ok?
    ensures RemoveTransform(Some(AddTransform(Some(st), userID, newID, now).value), userID) == Ok(st)
  {
  }

  /** Two joins to the same channel by different users, each with the id and
      start time its own transaction would give a new call, leave both in the
      call whatever their order: no join is lost. When a call was already
      active the two orders give the same record; when none was, the call
      carries the id and start time of whichever join ran first. */
  lemma JoinsLoseNoMember(st: ChannelState, a: string, idA: string, tA: int,
                     b: string, idB: string, tB: int)
    ensures var ab := AddTransform(Some(AddTransform(Some(st), a, idA, tA).value), b, idB, tB).value;
            var ba := AddTransform(Some(AddTransform(Some(st), b, idB, tB).value), a, idA, tA).value;
            && UsersOf(ab) == UsersOf(ba) == UsersOf(st) + {a, b}
            && (st.call.Some? ==> ab == ba)
            && (st.call.None? ==>
                  ab.call.value.id == idA && ab.call.value.startAt == tA &&
                  ba.call.value.id == idB && ba.call.value.startAt == tB)
  {
  }
}
