/** Call membership over a sequence of joins and leaves applied one after
    another to one channel's record, each as its own store transaction: a
    transaction whose transform fails leaves the record as it was. */
module Membership {
  import opened Wrappers
  import opened ChannelStates

  /** One user joining (with the id and time a new call would get) or leaving. */
  datatype Event = Join(userID: string, newID: string, now: int) | Leave(userID: string)

  /** The transform one event applies. */
  function Step(st: ChannelState, e: Event): Result<ChannelState, StoreError>
  {
    match e
    case Join(u, id, now) => AddTransform(Some(st), u, id, now)
    case Leave(u) => RemoveTransform(Some(st), u)
  }

  /** The record after every event in turn, a failed event changing nothing.
      Starting from a well-formed record, every record reached is well-formed. */
  function Run(st: ChannelState, events: seq<Event>): (r: ChannelState)
    ensures WellFormed(st) ==> WellFormed(r)
    decreases |events|
  {
    if events == [] then st
    else
      var next := match Step(st, events[0]) case Ok(s) => s case Err(_) => st;
      Run(next, events[1..])
  }

  /** Reference meaning of the events: who is in the call, computed on sets
      alone. */
  function Replay(users: set<string>, events: seq<Event>): set<string>
    decreases |events|
  {
    if events == [] then users
    else
      var e := events[0];
      var next := if e.Join? then users + {e.userID} else users - {e.userID};
      Replay(next, events[1..])
  }

  /** The stored call has exactly the members the events say, and a call is
      active exactly when that set is non-empty. */
  lemma {:induction false} RunMatchesReplay(st: ChannelState, events: seq<Event>)
    requires WellFormed(st)
    ensures UsersOf(Run(st, events)) == Replay(UsersOf(st), events)
    ensures Run(st, events).call.Some? <==> Replay(UsersOf(st), events) != {}
    decreases |events|
  {
    if events != [] {
      var next := match Step(st, events[0]) case Ok(s) => s case Err(_) => st;
      var e := events[0];
      var users := if e.Join? then UsersOf(st) + {e.userID} else UsersOf(st) - {e.userID};
      assert UsersOf(next) == users;
      RunMatchesReplay(next, events[1..]);
    }
  }

  /** A leave fails exactly when no call is active at that point, which on a
      well-formed record means nobody is in the call. */
  lemma LeaveFailsOnlyWithoutMembers(st: ChannelState, u: string)
    requires WellFormed(st)
    ensures Step(st, Leave(u)).Err? <==> UsersOf(st) == {}
    ensures Step(st, Leave(u)).Err? ==> Step(st, Leave(u)).error == CallStateMissing
  {
  }

  /** The walk-through of a channel "general" with no call: A joins, B joins,
      A leaves, B leaves; the call is created with {A}, grows to {A, B},
      shrinks to {B} keeping its id and start, and is cleared at the end. The
      id and time B's join would give a new call are ignored. */
  lemma GeneralChannelScenario(callID: string, t0: int, otherID: string, t1: int)
    ensures var s0 := ChannelState(None);
            var s1 := Step(s0, Join("A", callID, t0));
            && s1.Ok? && s1.value.call == Some(CallState(callID, t0, {"A"}))
            && var s2 := Step(s1.value, Join("B", otherID, t1));
            && s2.Ok? && s2.value.call == Some(CallState(callID, t0, {"A", "B"}))
            && var s3 := Step(s2.value, Leave("A"));
            && s3.Ok? && s3.value.call == Some(CallState(callID, t0, {"B"}))
            && Step(s3.value, Leave("B")) == Ok(s0)
  {
    var s0 := ChannelState(None);
    var s1 := Step(s0, Join("A", callID, t0));
    assert {} + {"A"} == {"A"};
    assert s1 == Ok(ChannelState(Some(CallState(callID, t0, {"A"}))));
    var s2 := Step(s1.value, Join("B", otherID, t1));
    assert {"A"} + {"B"} == {"A", "B"};
    assert s2 == Ok(ChannelState(Some(CallState(callID, t0, {"A", "B"}))));
    var s3 := Step(s2.value, Leave("A"));
    assert "A" != "B" by { assert "A"[0] != "B"[0]; }
    assert {"A", "B"} - {"A"} == {"B"};
    assert s3 == Ok(ChannelState(Some(CallState(callID, t0, {"B"}))));
    assert {"B"} - {"B"} == {};
  }
}
