// Client programs that drive the session model through whole exchanges: the behaviour the
// session core is meant to have, and the inputs on which the code as written departs from it.
module Scenarios {
  import opened Wire
  import opened Presence
  import opened Sessions

  /** A fresh directory and register, wired together as the Client class attributes are. */
  method NewServer() returns (d: Directory, reg: LocalPresenceRegister)
    ensures fresh(d) && fresh(reg) && reg.clients == d && d.clients == map[] && reg.calls == []
  {
    d := new Directory();
    reg := new LocalPresenceRegister(d);
  }

  /** A fresh session that the upstream auth flow has authenticated as member, then on_authenticated. */
  method LogIn(d: Directory, reg: LocalPresenceRegister, member: int, contacts: seq<Contact>) returns (c: Client)
    requires reg.clients == d
    requires forall o :: o in d.clients.Values ==> o.clients == d && o.register == reg
    modifies d, reg
    ensures fresh(c) && c.clients == d && c.register == reg && c.Coherent()
    ensures c.authenticated && !c.dead && c.memberId == member && c.rooms == {} && c.sent == []
    ensures d.clients == old(d.clients)[member := c]
    ensures reg.calls == old(reg.calls) + [Added(member)] + InterestCalls(member, contacts)
  {
    c := new Client(d, reg, "uid");
    c.authenticated := true;
    c.memberId := member;
    c.OnAuthenticated(contacts);
  }

  /** Member 5 with contacts 9 and 11 logs in on an empty server and then watches {9, 11}. */
  method SeedPresenceFromContacts() returns (reg: LocalPresenceRegister)
    ensures Watched(reg.calls, 5) == {9, 11}
  {
    var d;
    d, reg := NewServer();
    var c := LogIn(d, reg, 5, [Contact(9), Contact(11)]);
    SeedingExample();
    assert [] + [Added(5)] == [Added(5)];
  }

  /** A whisper from member 1 reaches member 2 as a "whispers" event carrying (msg, 1). */
  method WhisperDelivers(draw: int) returns (target: Client, r: Outcome)
    requires IsInt32(draw)
    ensures r == Pass
    ensures target.sent == [Envelope("whispers", EVENT, RndId(draw), [Str("hi"), Int(1)])]
    ensures target.memberId == 2 && target.authenticated && target.rooms == {} && target.Listed()
  {
    var d, reg := NewServer();
    var sender := LogIn(d, reg, 1, []);
    target := LogIn(d, reg, 2, []);
    r := sender.Whisper(2, Str("hi"), [], draw, true);
    assert [Str("hi"), Int(1)] + [] == [Str("hi"), Int(1)];
  }

  /** An unauthenticated session cannot whisper, and the would-be target receives nothing. */
  method WhisperNeedsAuth(draw: int) returns (target: Client, r: Outcome)
    requires IsInt32(draw)
    ensures r == Fail(AuthException) && target.sent == []
  {
    var d, reg := NewServer();
    target := LogIn(d, reg, 2, []);
    var anonymous := new Client(d, reg, "anonymous");
    r := anonymous.Whisper(2, Str("hi"), [], draw, true);
  }

  /** Joining and then leaving a room restores both sides of the membership. */
  method JoinLeaveRoundTrip(c: Client, room: Room)
    requires room !in c.rooms && c !in room.members
    modifies c`rooms, room
    ensures c.rooms == old(c.rooms) && room.members == old(room.members)
  {
    c.Join(room);
    c.Leave(room);
  }

  /** Closing twice fails nowhere; the second close leaves directory and room where the first did. */
  method CloseTwice() returns (c: Client, room: Room)
    ensures c.Closed() && c !in room.members && 7 !in c.clients.clients
  {
    var d, reg := NewServer();
    c := LogIn(d, reg, 7, []);
    room := new Room();
    c.Join(room);
    c.Close();
    c.Close();
  }

  /** As written, closing an older session for member 5 evicts the newer login for member 5,
      which stays alive but can no longer be found. */
  method StaleCloseAsWritten() returns (older: Client, newer: Client)
    ensures older.dead && !newer.dead && newer.memberId == 5 && 5 !in newer.clients.clients
  {
    var d, reg := NewServer();
    older := LogIn(d, reg, 5, []);
    newer := LogIn(d, reg, 5, []);
    older.CloseAsWritten();
  }

  /** As intended, the newer login for member 5 stays listed when the older one closes. */
  method StaleCloseKeepsNewerLogin() returns (older: Client, newer: Client)
    ensures older.dead && !newer.dead && newer.Listed()
  {
    var d, reg := NewServer();
    older := LogIn(d, reg, 5, []);
    newer := LogIn(d, reg, 5, []);
    older.Close();
  }

  /** As written, the un-awaited room removal leaves a closed session in the room it joined. */
  method CloseAsWrittenKeepsRoomMember() returns (c: Client, room: Room)
    ensures c.dead && c in room.members
  {
    var d, reg := NewServer();
    c := LogIn(d, reg, 3, []);
    room := new Room();
    c.Join(room);
    c.CloseAsWritten();
  }

  /** As intended, closing takes the session out of every room it joined. */
  method CloseLeavesRooms() returns (c: Client, room: Room)
    ensures c.dead && c !in room.members
  {
    var d, reg := NewServer();
    c := LogIn(d, reg, 3, []);
    room := new Room();
    c.Join(room);
    c.Close();
  }

  /** As written, leave raises after the room has dropped the session, so the session still
      holds a room that no longer holds it. */
  method LeaveAsWrittenSplitsMembership() returns (c: Client, room: Room, r: Outcome)
    ensures r == Fail(TypeError) && room in c.rooms && c !in room.members && !c.InRooms()
  {
    var d, reg := NewServer();
    c := new Client(d, reg, "uid");
    room := new Room();
    c.Join(room);
    r := c.LeaveAsWritten(room);
  }

  /** As written, a refused websocket write raises NameError out of _send and the session stays open. */
  method TransportFailureAsWritten() returns (c: Client, r: Outcome)
    ensures r == Fail(NameError) && !c.dead && c.sent == []
  {
    var d, reg := NewServer();
    c := LogIn(d, reg, 4, []);
    r := c.TransmitAsWritten(EVENT, "00000000", "ping", [], false);
  }

  /** As intended, a refused websocket write closes the session and unlists it. */
  method TransportFailureCloses(draw: int) returns (c: Client)
    requires IsInt32(draw)
    ensures c.dead && c.sent == [] && 4 !in c.clients.clients
  {
    var d, reg := NewServer();
    c := LogIn(d, reg, 4, []);
    c.Send("ping", [], draw, false);
  }

  /** As written, notifying a listed member raises AttributeError; as intended it schedules
      the presence task for that member's session. */
  method NotifyListedMember() returns (c: Client, asWritten: Outcome, intended: Option<PresenceTask>)
    ensures asWritten == Fail(AttributeError)
    ensures intended == Some(PresenceTask(c, "online", 11))
  {
    var d, reg := NewServer();
    c := LogIn(d, reg, 9, []);
    asWritten := reg.NotifyAsWritten("online", 9, 11);
    intended := reg.Notify("online", 9, 11);
  }

  /** Notify follows the directory: a logged-in member is notified, and after it closes it is not. */
  method NotifyFollowsLifecycle() returns (c: Client, online: Option<PresenceTask>, offline: Option<PresenceTask>)
    ensures online == Some(PresenceTask(c, "online", 11))
    ensures offline == None
  {
    var d, reg := NewServer();
    c := LogIn(d, reg, 9, []);
    online := reg.Notify("online", 9, 11);
    c.Close();
    offline := reg.Notify("offline", 9, 11);
  }
}
