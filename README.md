# netwrok session core, modelled in Dafny

This project models the session core of the netwrok server (`src/netwrok/client.py`):
one `Client` per websocket connection, and the two objects all sessions share: the
`Client.clients` directory (member id to live session) and the `Client.register`
presence register (`LocalPresenceRegister`) built over that same directory.

The model has four parts.

- **Authorisation guards.** `require_auth`, `require_role`, `require_clan_role` and
  `require_alliance_role` are functions of the session's fields. Each returns `Pass` or
  `Fail(AuthException)` instead of raising. Each is proved to succeed exactly when its
  condition holds.
- **Directory and presence bookkeeping.** `on_authenticated`, `close`, `whisper` and
  `LocalPresenceRegister.notify` work on the shared `Directory`. The presence register's
  own storage is external, so the model records the `add`, `remove` and
  `register_interest` calls in a log. `Presence.Watched` reads the interest graph off that log.
- **Room membership.** `join`, `leave` and the room loop of `close` work on `Room` objects.
  A `Room` holds a member set.
- **Outbound envelopes.** `send`, `_send` and `rndId` build an `Envelope`
  (`name`, `type`, `id`, `args`). The websocket is the session's `sent` log plus an `open`
  flag. `open` is false when the websocket refuses the write (`InvalidState`).

Each coroutine is modelled as one sequential step. The random draw of `rndId`, the `uid`
and the contact list returned by `contacts.fetch` are parameters.

Files: `wire.dfy` (module `Wire`: envelope, hex formatting, `rndId`), `presence.dfy`
(module `Presence`: register call log, interest lemmas), `sessions.dfy` (module
`Sessions`: `Room`, `Directory`, `LocalPresenceRegister`, `Client`), `scenarios.dfy`
(module `Scenarios`: client programs that run whole exchanges).

Where the code departs from its evident intent, the model has two members. The
`…AsWritten` member models the code as written, and the other member models the intended
behaviour, which the rest of the model uses. Both are listed under "## Findings".
`close` is meant to unregister only its own login, so that a newer login for the same
member stays listed. The code removes the entry whoever holds it. `Close` models the
intended behaviour and `CloseAsWritten` the code.

## Model

| member | source | states |
|---|---|---|
| `Sessions.Client.constructor` | src/netwrok/client.py:38-53 | A new session is unauthenticated and alive. It has no rooms, no roles and nothing sent. `memberId`, `clanId` and `allianceId` are all -1. It shares the given directory and register. |
| `Sessions.Client.RequireAuth` | src/netwrok/client.py:69-72 | Passes iff `authenticated`. Otherwise fails with `AuthException`. |
| `Sessions.Client.RequireRole` | src/netwrok/client.py:74-78 | Passes iff `authenticated` and the role is in `roles`. Otherwise fails with `AuthException`. |
| `Sessions.Client.RequireClanRole` | src/netwrok/client.py:80-85 | Passes iff `authenticated`, `"Clan " + role` is in `roles` and the clan id matches. Otherwise fails with `AuthException`, so a matching role under another clan id fails. |
| `Sessions.Client.RequireAllianceRole` | src/netwrok/client.py:87-92 | The same as the clan guard, with the `"Alliance "` prefix and `allianceId`. |
| `Sessions.ScopesDisjoint` | src/netwrok/client.py:80-92 | A clan-scoped role string never equals an alliance-scoped one. |
| `Sessions.ClanRolesGrantNoAllianceRole` | src/netwrok/client.py:87-92 | A session holding only clan roles fails every alliance guard. |
| `Sessions.ScopedGuardImpliesRole` | src/netwrok/client.py:74-92 | Passing a scoped guard implies passing `RequireRole` for the prefixed role string. |
| `Sessions.ClanLeaderExample` | src/netwrok/client.py:80-85 | Member 42 with `["Clan Leader"]` in clan 7 passes `RequireClanRole(7, "Leader")` and fails `RequireClanRole(8, "Leader")`. |
| `Sessions.Client.Join` | src/netwrok/client.py:59-62 | The room gains this session and `rooms` gains the room. Nothing else changes. Every held room still holds the session. |
| `Sessions.Client.Leave` | src/netwrok/client.py:64-67 | Intended leave: the room loses this session and `rooms` loses the room. Leaving a room not joined changes nothing. Nothing else changes. |
| `Sessions.Client.LeaveAsWritten` | src/netwrok/client.py:64-67 | Leave as written: the room loses this session, then `set.pop(room)` fails with `TypeError`. `rooms` is unchanged. |
| `Scenarios.JoinLeaveRoundTrip` | src/netwrok/client.py:59-67 | A join followed by an intended leave restores `rooms` and the room's members. |
| `Scenarios.LeaveAsWrittenSplitsMembership` | src/netwrok/client.py:64-67 | After a join and the leave as written, the session holds a room that does not hold it. |
| `Sessions.Client.OnAuthenticated` | src/netwrok/client.py:94-100 | The directory maps `memberId` to this session, replacing any prior entry. Other keys are unchanged. The register log gains `add(memberId)` and then one `register_interest(memberId, id)` per contact, in contact order. |
| `Presence.InterestCalls` | src/netwrok/client.py:99-100 | One interest call per contact, at the contact's position, naming that contact's id. |
| `Presence.WatchedIffInterest` | src/netwrok/client.py:100 | A subscriber watches `w` iff the log holds `register_interest(subscriber, w)`. |
| `Presence.WatchedInterestCalls` | src/netwrok/client.py:99-100 | The interest calls for a contact list register exactly the contacts' ids. |
| `Presence.SeededInterests` | src/netwrok/client.py:96-100 | After `on_authenticated`, the member watches what it watched before plus exactly its contacts' ids. |
| `Presence.SeedingExample` | src/netwrok/client.py:96-100 | Member 5 with contacts 9 and 11 watches {9, 11}. |
| `Scenarios.SeedPresenceFromContacts` | src/netwrok/client.py:94-100 | Logging in member 5 with contacts 9 and 11 on an empty server leaves member 5 watching {9, 11}. |
| `Sessions.LocalPresenceRegister.Notify` | src/netwrok/client.py:22-24 | Intended notify: a presence task is scheduled iff the listener is in the directory. The task targets that listener's session and carries the event and contact unchanged. |
| `Sessions.LocalPresenceRegister.NotifyAsWritten` | src/netwrok/client.py:22-24 | Notify as written fails with `AttributeError` iff the listener is in the directory, so no listed listener is ever notified. |
| `Scenarios.NotifyListedMember` | src/netwrok/client.py:22-24 | For a logged-in member, notify as written fails with `AttributeError`. The intended notify schedules a task for that member's session. |
| `Scenarios.NotifyFollowsLifecycle` | src/netwrok/client.py:22-24 | After member 9 logs in, notify schedules a task for its session. After that session closes, notify schedules nothing. |
| `Sessions.Client.Transmit` | src/netwrok/client.py:114-123 | Intended `_send`. A dead session changes nothing. With the websocket open, exactly one envelope `(name, type, id, args)` is appended. With it refused, nothing is sent and the session is closed, with the full effect of `Close`. |
| `Sessions.Client.TransmitAsWritten` | src/netwrok/client.py:114-123 | `_send` as written: a refused write fails with `NameError` and does not close the session. The other cases are as intended. |
| `Sessions.Client.Send` | src/netwrok/client.py:107-109 | `send` is `_send` with type `"ev"` and the id `RndId(draw)`. The args are kept in order. |
| `Sessions.Client.Whisper` | src/netwrok/client.py:125-130 | Unauthenticated: fails with `AuthException` and changes nothing. Target id not listed: fails with `KeyError` and changes nothing. Otherwise passes, and the target is sent a `"whispers"` event with args `[msg, sender memberId] + rest`, unless the target is dead or its websocket refuses the write. When the target is dead or the write goes through, the directory, the presence log and the target's rooms are unchanged. In every case the target's member id, authentication, roles, clan id, alliance id and room set keep their values. |
| `Scenarios.WhisperDelivers` | src/netwrok/client.py:125-130 | A whisper from member 1 to member 2 leaves member 2 exactly one `"whispers"` envelope with args `("hi", 1)`. Member 2 stays logged in, listed and in no room. |
| `Scenarios.WhisperNeedsAuth` | src/netwrok/client.py:126-128 | An unauthenticated whisper fails with `AuthException` and the target receives nothing. |
| `Sessions.Client.Close` | src/netwrok/client.py:132-139 | Intended close. The register log gains `remove(memberId)` and `dead` is set. The directory entry is dropped only if it is this session. Every room in `rooms` loses this session. Afterwards the session is `Closed()`. A second close leaves the directory and the rooms as they were. |
| `Sessions.Client.CloseAsWritten` | src/netwrok/client.py:132-139 | Close as written: `remove(memberId)` is logged, `dead` is set, and the key `memberId` is gone from the directory whoever held it. No room is touched. |
| `Scenarios.CloseTwice` | src/netwrok/client.py:132-139 | Closing a logged-in, joined session twice leaves it closed, unlisted and out of its room. |
| `Scenarios.StaleCloseAsWritten` | src/netwrok/client.py:136-137 | As written, closing an older login for member 5 unlists a newer, live login for member 5. |
| `Scenarios.StaleCloseKeepsNewerLogin` | src/netwrok/client.py:136-137 | As intended, the newer login for member 5 stays listed. |
| `Scenarios.CloseAsWrittenKeepsRoomMember` | src/netwrok/client.py:138-139 | As written, a closed session remains a member of the room it joined. |
| `Scenarios.CloseLeavesRooms` | src/netwrok/client.py:138-139 | As intended, a closed session is no longer a member of the room it joined. |
| `Scenarios.TransportFailureAsWritten` | src/netwrok/client.py:120-123 | As written, a refused write fails with `NameError` and the session stays alive. |
| `Scenarios.TransportFailureCloses` | src/netwrok/client.py:120-123 | As intended, a refused write leaves the session dead, with nothing sent and no directory entry. |
| `Wire.RndId` | src/netwrok/client.py:111-112 | Intended `rndId`: always exactly 8 upper-case hex digits. |
| `Wire.RndIdRoundTrip` | src/netwrok/client.py:111-112 | The draw is recovered from its id: reading the id as hex and then as a signed 32-bit value gives back the draw. |
| `Wire.RndIdInjective` | src/netwrok/client.py:111-112 | Distinct draws give distinct ids. |
| `Wire.PaddedHex` | src/netwrok/client.py:112 | `%0wX` of a value below 16^w is exactly w hex digits, and they read back as the value. |
| `Wire.RndIdAsWritten` | src/netwrok/client.py:111-112 | `rndId` as written: `"%08X"` of the signed draw. The id is at least 8 characters, and it starts with `-` exactly when the draw is negative. |
| `Wire.RndIdAsWrittenNonNegative` | src/netwrok/client.py:111-112 | `rndId` as written renders a non-negative draw as 8 zero-padded upper-case hex digits that hold the draw. That is the same id as the intended one. |
| `Wire.RndIdAsWrittenNegative` | src/netwrok/client.py:111-112 | `rndId` as written renders a negative draw as a `-` followed by hex digits that read back as the draw's magnitude, so the id is not a hex token. |
| `Wire.RndIdAsWrittenMinimum` | src/netwrok/client.py:111-112 | `rndId` as written renders the draw -2147483648 as `"-80000000"`, which is 9 characters. |

## Left out

- Asyncio scheduling (`yield from`, `asyncio.async`) is left out. Each coroutine is one sequential step. The scheduled presence task is returned by `Notify`, and its delivery is not modelled.
- `notify_presence_change` is left out. It is not reachable under the name `notify` uses, and it refers to an undefined `self`.
- `process_return` is left out. It writes to `self.requests`, which is never initialised.
- `close_all`, `ws.close` and websocket framing are left out. `ws.send` is an append to `sent`. Its only failure modelled is `InvalidState`, as `open == false`. Other exceptions from `ws.send` are not modelled.
- `json.dumps` and `logging` are left out. An envelope is a datatype, and its arguments are strings or integers only.
- Randomness is left out. The draw of `random.randint` and the md5 `uid` are parameters. `Wire.IsInt32` states the draw's range.
- `contacts.fetch` is left out. Its result is the `contacts` parameter, and its failure is not modelled.
- The internals of `presence.PresenceRegister` are left out. Its `add`, `remove` and `register_interest` calls are logged. `Presence.Watched` reads only the interest calls, because what `add` and `remove` do to the graph is not shown.
- The internals of `room.Room` are left out. A room is a member set, and `add` and `remove` are set insertion and removal.
- The `__init__` fields `session`, `handle`, `clan_name`, `alliance_name` and `member_info` are left out, because the core never reads them.
- The external auth flow that sets `authenticated`, `memberId`, `roles`, `clanId` and `allianceId` is left out. The scenarios assign those fields directly. `on_authenticated` itself does not set `authenticated`.
- Sessions.Client.Whisper: when the target's websocket refuses the write, Whisper states only that the target is dead and was sent nothing. The directory, register and room effects of the target's close are stated by `Send` and `Close`.
- Envelope decoding and its protocol errors are left out, because `client.py` has no decoder.

## Findings

| source | as written | input that shows it | evidently intended | confidence | as-written member | corrected member |
|---|---|---|---|---|---|---|
| src/netwrok/client.py:112 | `"%08X"` of a signed draw prints a `-` sign and the magnitude | draw -1 gives `"-0000001"`; draw -2147483648 gives `"-80000000"` (9 characters) | an 8-hex-digit token for every draw (the 32-bit pattern) | not executed; high | `Wire.RndIdAsWrittenMinimum` | `Wire.RndIdRoundTrip` |
| src/netwrok/client.py:67 | `self.rooms.pop(room)` raises `TypeError` after the room has already dropped the session | join a room, then leave it | discard the room from `self.rooms` | not executed; high | `Scenarios.LeaveAsWrittenSplitsMembership` | `Scenarios.JoinLeaveRoundTrip` |
| src/netwrok/client.py:136-137 | close pops `memberId` whoever is registered under it | two logins for member 5; the older one closes | remove the entry only if it is this session | not executed; medium | `Scenarios.StaleCloseAsWritten` | `Scenarios.StaleCloseKeepsNewerLogin` |
| src/netwrok/client.py:139 | `r.remove(self)` is not awaited, so the coroutine never runs | join a room, then close | every joined room drops the session | not executed; medium (assumes `Room.remove` is a coroutine, as the `yield from` at line 66 suggests; `room.py` is not part of this model) | `Scenarios.CloseAsWrittenKeepsRoomMember` | `Scenarios.CloseLeavesRooms` |
| src/netwrok/client.py:24 | calls `notify_presence`, which `Client` does not define, and raises `AttributeError` | notify with a listed listener | schedule the listener's presence handler | not executed; high | `Sessions.LocalPresenceRegister.NotifyAsWritten` | `Sessions.LocalPresenceRegister.Notify` |
| src/netwrok/client.py:122 | the except clause names `websockets`, which is not imported, so a refused write raises `NameError` and the session is not closed | a websocket that raises `InvalidState` on send | close the session | not executed; high | `Scenarios.TransportFailureAsWritten` | `Scenarios.TransportFailureCloses` |
