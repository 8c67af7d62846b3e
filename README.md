# Call membership of the Mattermost Calls plugin, in Dafny

This project models the server-side call-membership logic of the Calls plugin
(`server/session.go`): the plugin's registry of live sessions, keyed by user
id, and the two transforms that a join and a leave apply atomically to a
channel's record in the key-value store. A channel record holds an optional
call: its generated id, its start time and the set of its members.

- `Wrappers.dfy` — `Option` (Go's nil pointers) and `Result` (Go's
  `(value, error)` returns).
- `ChannelStates.dfy` — the channel and call records, the join transform
  (`AddTransform`) and leave transform (`RemoveTransform`), the invariant "a
  call record exists only while it has members" (`WellFormed`), and lemmas:
  joining is idempotent, leaving undoes joining, and both users of two joins
  end up in the call whichever join runs first (the two records are equal
  only when a call was already active).
- `Membership.dfy` — any sequence of joins and leaves on one channel, each
  applied as its own transaction (`Run`), compared with a plain set
  computation of who should be in the call (`Replay`), plus the
  "general" channel walk-through.
- `Sessions.dfy` — the session value built by `newUserSession`, and the
  `Plugin` class whose `sessions` map is the registry and whose `channels`
  map stands for the store. `AddUserSession` and `RemoveUserSession` write
  the registry first and then run the transform once through
  `KvSetAtomicChannelState`; a failing transform leaves the store unchanged,
  while the registry write stays.

The id generator (`model.NewId()`) and the clock (`time.Now().UnixMilli()`)
are parameters (`newID`, `now`) of the join operations.

A join to a channel record that has no call creates the call; only a missing
channel record is an error (`server/session.go:55-64`).

## Model

| member | source | states |
|---|---|---|
| `ChannelStates.AddTransform` | server/session.go:54-68 | fails (ChannelStateMissing, text "channel state is missing from store") exactly when the channel record is missing; otherwise a call is always present afterwards, its members are the old members plus the user, an existing call keeps its id and start time, and a channel without a call gets the supplied fresh id and start time; the result keeps the call invariant |
| `ChannelStates.RemoveTransform` | server/session.go:80-96 | fails with ChannelStateMissing ("channel state is missing from store") on a missing record and with CallStateMissing ("call state is missing from channel state") when no call is active, and succeeds otherwise; on success the members are the old members minus the user, the call is cleared exactly when that set is empty, a remaining call keeps its id and start time, and the result keeps the call invariant |
| `ChannelStates.AddIsIdempotent` | server/session.go:65 | joining with a user already in the call returns the record unchanged |
| `ChannelStates.RemoveUndoesAdd` | server/session.go:54-96 | on a well-formed record without the user, a join followed by a leave of that user returns exactly the original record, including "no call" when the join created the call |
| `ChannelStates.JoinsLoseNoMember` | server/session.go:58-65 | two joins of different users, each with its own fresh id and start time, leave the old members plus both users in either order (no join is lost); with a call already active both orders give the same record, and without one the new call carries the id and start time of the join that ran first |
| `Membership.Run` | server/session.go:54-96 | any sequence of joins and leaves, a failing one leaving the record unchanged, keeps the invariant "call present only with members" |
| `Membership.RunMatchesReplay` | server/session.go:54-96 | after any sequence of joins and leaves, the stored members equal the set obtained by adding each joiner and removing each leaver, and a call is active exactly when that set is non-empty |
| `Membership.LeaveFailsOnlyWithoutMembers` | server/session.go:84-92 | on a well-formed record, a leave fails exactly when nobody is in the call, and then with CallStateMissing |
| `Membership.GeneralChannelScenario` | server/session.go:54-96 | from no call: A joins (call created with {A}), B joins ({A, B}, same id and start), A leaves ({B}), B leaves (call cleared, record back to its start) |
| `Sessions.NewUserSession` | server/session.go:38-45 | a new session has the given user and channel ids, is neither muted nor speaking, has two empty queues of capacity 10, and no connection or media handles |
| `Sessions.Plugin.KvSetAtomicChannelState` | server/session.go:54-54 | the transform is applied once to the stored record (None when absent); on success its result is stored under the channel, on error the store is unchanged |
| `Sessions.Plugin.AddUserSession` | server/session.go:47-71 | the registry maps the user to the given session and every other entry is unchanged, even when the store transaction fails; the result is the join transform of the stored record, it fails exactly when the channel record is missing, the returned snapshot is what is stored, and every stored record keeps the call invariant |
| `Sessions.Plugin.RemoveUserSession` | server/session.go:73-99 | the registry loses the user's entry and every other entry is unchanged, even when the store transaction fails; the result is the leave transform of the stored record, it fails exactly when the record or its call is missing, the returned snapshot is what is stored, and every stored record keeps the call invariant |

## Left out

- Locking (`p.mut`, the session's own `mut`) and concurrency between registry updates and store transactions: operations are modelled as sequential steps. Concurrent joins are covered only through `JoinsLoseNoMember`: whatever the order of two join transactions, both users end up in the call; which new call id and start time win depends on the order.
- The compare-and-swap and retry loop inside `kvSetAtomicChannelState`, whose body is not part of this model: it is modelled as applying the transform once, and its own conflict errors are not modelled.
- Other fields of the stored channel record: `channelState` is defined outside server/session.go; only its `Call` field, which the transforms read and write, is modelled.
- `model.NewId()` and `time.Now().UnixMilli()`: passed in as `newID` and `now`.
- WebSocket and WebRTC objects (`wsConn`, `outTrack`, `outConn`) are opaque handles; queue traffic is not modelled, only each queue's capacity and its (empty) contents at creation.
- Logging (`LogDebug`).
- Pointer identity and aliasing: sessions are values, so "the registry holds the passed session" means an equal value; Go's shallow copy `st = *state` copies the `Call` pointer, so the returned snapshot shares the whole call record (id, start time and members) with the state handed back to the store; the model treats the snapshot as an independent value.
- The snapshot returned beside an error: the model returns only the error. In Go, the snapshot is zero-valued when the transform's single run failed, but a store error after a successful run of the transform would come back together with that run's snapshot; store errors of that kind are not modelled.
