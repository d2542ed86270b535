// The per-connection session of src/netwrok/client.py and the two process-wide objects
// every session shares: the Client.clients directory and the Client.register presence register.
// Each coroutine is one sequential step; the websocket is the session's log of sent envelopes.
module Sessions {
  import opened Wire
  import opened Presence

  /** What a session operation raises. AuthException and KeyError are raised by the code as
      intended; the other three are raised only by the code as written (see the *AsWritten members). */
  datatype Error = AuthException | KeyError(key: int) | TypeError | NameError | AttributeError

  datatype Outcome = Pass | Fail(error: Error)

  datatype Option<T> = None | Some(value: T)

  const CLAN_PREFIX: string := "Clan "
  const ALLIANCE_PREFIX: string := "Alliance "

  /** A room: an external membership container, of which only the member set is modelled. */
  class Room {
    var members: set<Client>

    constructor ()
      ensures members == {}
    {
      members := {};
    }

    method Add(c: Client)
      modifies this
      ensures members == old(members) + {c}
    {
      members := members + {c};
    }

    method Remove(c: Client)
      modifies this
      ensures members == old(members) - {c}
    {
      members := members - {c};
    }
  }

  /** The shared dictionary Client.clients: member id to the session registered under it. */
  class Directory {
    var clients: map<int, Client>

    constructor ()
      ensures clients == map[]
    {
      clients := map[];
    }
  }

  /** The unit of work notify hands to the event loop: deliver (event, contact) to listener. */
  datatype PresenceTask = PresenceTask(listener: Client, event: string, contact: int)

  /** Client.register: a presence register over the same directory as Client.clients. */
  class LocalPresenceRegister {
    const clients: Directory
    var calls: seq<Call>

    constructor (clients: Directory)
      ensures this.clients == clients && calls == []
    {
      this.clients := clients;
      calls := [];
    }

    method Add(member: int)
      modifies this
      ensures calls == old(calls) + [Added(member)]
    {
      calls := calls + [Added(member)];
    }

    method Remove(member: int)
      modifies this
      ensures calls == old(calls) + [Removed(member)]
    {
      calls := calls + [Removed(member)];
    }

    method RegisterInterest(subscriber: int, watched: int)
      modifies this
      ensures calls == old(calls) + [Interest(subscriber, watched)]
    {
      calls := calls + [Interest(subscriber, watched)];
    }

    /** notify as intended: a task for the listener's session is scheduled exactly when the
        listener is in the directory, and it carries the event and the contact unchanged. */
    function Notify(event: string, listener: int, contact: int): (task: Option<PresenceTask>)
      reads clients
      ensures task.Some? <==> listener in clients.clients
      ensures task.Some? ==>
                task.value.listener == clients.clients[listener]
                && task.value.event == event && task.value.contact == contact
    {
      if listener in clients.clients then Some(PresenceTask(clients.clients[listener], event, contact))
      else None
    }

    /** notify as written: looking up notify_presence, which Client does not define, raises
        before anything is scheduled, so a registered listener is never notified. */
    function NotifyAsWritten(event: string, listener: int, contact: int): (r: Outcome)
      reads clients
      ensures r.Fail? <==> listener in clients.clients
      ensures r.Fail? ==> r.error == AttributeError
    {
      if listener in clients.clients then Fail(AttributeError) else Pass
    }
  }

  class Client {
    const clients: Directory
    const register: LocalPresenceRegister
    const uid: string
    var rooms: set<Room>
    var authenticated: bool
    var dead: bool
    var memberId: int
    var roles: seq<string>
    var clanId: int
    var allianceId: int
    /** Every envelope handed to this session's websocket, oldest first. */
    var sent: seq<Envelope>

    /** Every listed session shares this session's directory and register (they are class attributes). */
    ghost predicate Coherent()
      reads clients
    {
      forall c :: c in clients.clients.Values ==> c.clients == clients && c.register == register
    }

    /** The directory entry for memberId is this session. */
    ghost predicate Listed()
      reads this, clients
    {
      memberId in clients.clients && clients.clients[memberId] == this
    }

    /** Every room this session holds holds this session. */
    ghost predicate InRooms()
      reads this, rooms
    {
      forall r :: r in rooms ==> this in r.members
    }

    /** The state close leaves behind: dead, not listed, and in none of its rooms. */
    ghost predicate Closed()
      reads this, clients, rooms
    {
      dead && !Listed() && forall r :: r in rooms ==> this !in r.members
    }

    /** The uid is drawn by the caller (md5 of os.urandom in the source). */
    constructor (clients: Directory, register: LocalPresenceRegister, uid: string)
      requires register.clients == clients
      ensures this.clients == clients && this.register == register && this.uid == uid
      ensures rooms == {} && !authenticated && !dead && sent == []
      ensures memberId == -1 && roles == [] && clanId == -1 && allianceId == -1
    {
      this.clients := clients;
      this.register := register;
      this.uid := uid;
      rooms := {};
      authenticated := false;
      dead := false;
      memberId := -1;
      roles := [];
      clanId := -1;
      allianceId := -1;
      sent := [];
    }

    method Join(room: Room)
      modifies this`rooms, room
      ensures rooms == old(rooms) + {room}
      ensures room.members == old(room.members) + {this}
      ensures old(InRooms()) ==> InRooms()
    {
      room.Add(this);
      rooms := rooms + {room};
    }

    /** leave as intended: discard the room on both sides; leaving a room not joined changes nothing. */
    method Leave(room: Room)
      modifies this`rooms, room
      ensures rooms == old(rooms) - {room}
      ensures room.members == old(room.members) - {this}
      ensures old(InRooms()) ==> InRooms()
    {
      room.Remove(this);
      rooms := rooms - {room};
    }

    /** leave as written: the room drops this session, then set.pop(room) raises TypeError
        (pop takes no argument), so this.rooms keeps the room. */
    method LeaveAsWritten(room: Room) returns (r: Outcome)
      modifies room
      ensures r == Fail(TypeError)
      ensures room.members == old(room.members) - {this}
      ensures rooms == old(rooms)
    {
      room.Remove(this);
      r := Fail(TypeError);
    }

    function RequireAuth(): (r: Outcome)
      reads this
      ensures r == Pass <==> authenticated
      ensures r != Pass ==> r == Fail(AuthException)
    {
      if !authenticated then Fail(AuthException) else Pass
    }

    function RequireRole(role: string): (r: Outcome)
      reads this
      ensures r == Pass <==> authenticated && role in roles
      ensures r != Pass ==> r == Fail(AuthException)
    {
      var auth := RequireAuth();
      if auth.Fail? then auth
      else if role !in roles then Fail(AuthException)
      else Pass
    }

    function RequireClanRole(clanId: int, role: string): (r: Outcome)
      reads this
      ensures r == Pass <==> authenticated && CLAN_PREFIX + role in roles && clanId == this.clanId
      ensures r != Pass ==> r == Fail(AuthException)
    {
      var auth := RequireAuth();
      if auth.Fail? then auth
      else if CLAN_PREFIX + role !in roles || clanId != this.clanId then Fail(AuthException)
      else Pass
    }

    function RequireAllianceRole(allianceId: int, role: string): (r: Outcome)
      reads this
      ensures r == Pass <==> authenticated && ALLIANCE_PREFIX + role in roles && allianceId == this.allianceId
      ensures r != Pass ==> r == Fail(AuthException)
    {
      var auth := RequireAuth();
      if auth.Fail? then auth
      else if ALLIANCE_PREFIX + role !in roles || allianceId != this.allianceId then Fail(AuthException)
      else Pass
    }

    /** The contact list is what contacts.fetch returned for this session. */
    method OnAuthenticated(contacts: seq<Contact>)
      requires Coherent()
      modifies clients, register
      ensures clients.clients == old(clients.clients)[memberId := this]
      ensures register.calls == old(register.calls) + [Added(memberId)] + InterestCalls(memberId, contacts)
      ensures Listed() && Coherent()
    {
      clients.clients := clients.clients[memberId := this];
      register.Add(memberId);
      var i := 0;
      while i < |contacts|
        invariant 0 <= i <= |contacts|
        invariant register.calls == old(register.calls) + [Added(memberId)] + InterestCalls(memberId, contacts[..i])
        modifies register
      {
        assert contacts[..i + 1][..i] == contacts[..i];
        register.RegisterInterest(memberId, contacts[i].id);
        i := i + 1;
      }
      assert contacts[..i] == contacts;
    }

    /** close as intended: unregister from presence, die, drop the directory entry only when it
        is this session (a newer login under the same id survives), and leave every room. */
    method Close()
      modifies this`dead, clients, register, rooms
      ensures dead
      ensures register.calls == old(register.calls) + [Removed(memberId)]
      ensures clients.clients == if old(Listed()) then old(clients.clients) - {memberId} else old(clients.clients)
      ensures forall r :: r in rooms ==> r.members == old(r.members) - {this}
      ensures Closed()
      ensures old(Closed()) ==>
                clients.clients == old(clients.clients) && forall r :: r in rooms ==> r.members == old(r.members)
      ensures old(Coherent()) ==> Coherent()
    {
      register.Remove(memberId);
      dead := true;
      if memberId in clients.clients && clients.clients[memberId] == this {
        clients.clients := clients.clients - {memberId};
      }
      var pending := rooms;
      while pending != {}
        invariant pending <= rooms
        invariant forall r :: r in rooms && r !in pending ==> r.members == old(r.members) - {this}
        invariant forall r :: r in pending ==> r.members == old(r.members)
        modifies rooms
        decreases pending
      {
        var r :| r in pending;
        r.Remove(this);
        pending := pending - {r};
      }
    }

    /** close as written: the directory entry for memberId is popped whoever it belongs to, and
        r.remove(self) is called without being awaited, so no room loses this session. */
    method CloseAsWritten()
      modifies this`dead, clients, register
      ensures dead
      ensures register.calls == old(register.calls) + [Removed(memberId)]
      ensures clients.clients == old(clients.clients) - {memberId}
    {
      register.Remove(memberId);
      dead := true;
      if memberId in clients.clients {
        clients.clients := clients.clients - {memberId};
      }
    }

    /** _send as intended. A dead session sends nothing; otherwise the envelope goes out when
        the websocket is open, and the session is closed when the websocket reports it is not. */
    method Transmit(kind: string, id: string, name: string, args: seq<Value>, open: bool)
      modifies this`sent, this`dead, clients, register, rooms
      ensures old(dead) ==> dead && sent == old(sent) && unchanged(clients, register) && unchanged(rooms)
      ensures !old(dead) && open ==>
                sent == old(sent) + [Envelope(name, kind, id, args)] && !dead
                && unchanged(clients, register) && unchanged(rooms)
      ensures !old(dead) && !open ==>
                sent == old(sent) && dead
                && register.calls == old(register.calls) + [Removed(memberId)]
                && clients.clients == (if old(Listed()) then old(clients.clients) - {memberId} else old(clients.clients))
                && (forall r :: r in rooms ==> r.members == old(r.members) - {this})
      ensures old(Coherent()) ==> Coherent()
    {
      if dead {
        return;
      }
      if open {
        sent := sent + [Envelope(name, kind, id, args)];
      } else {
        Close();
      }
    }

    /** _send as written: when the websocket is not open, naming websockets.exceptions in the
        except clause raises NameError (the module is not imported) and the session is not closed. */
    method TransmitAsWritten(kind: string, id: string, name: string, args: seq<Value>, open: bool) returns (r: Outcome)
      modifies this`sent
      ensures r == (if !old(dead) && !open then Fail(NameError) else Pass)
      ensures sent == if !dead && open then old(sent) + [Envelope(name, kind, id, args)] else old(sent)
    {
      r := Pass;
      if dead {
        return;
      }
      if open {
        sent := sent + [Envelope(name, kind, id, args)];
      } else {
        r := Fail(NameError);
      }
    }

    /** send: an event envelope whose id is rendered from the random draw. */
    method Send(name: string, args: seq<Value>, draw: int, open: bool)
      requires IsInt32(draw)
      modifies this`sent, this`dead, clients, register, rooms
      ensures old(dead) ==> dead && sent == old(sent) && unchanged(clients, register) && unchanged(rooms)
      ensures !old(dead) && open ==>
                sent == old(sent) + [Envelope(name, EVENT, RndId(draw), args)] && !dead
                && unchanged(clients, register) && unchanged(rooms)
      ensures !old(dead) && !open ==>
                sent == old(sent) && dead
                && register.calls == old(register.calls) + [Removed(memberId)]
                && clients.clients == (if old(Listed()) then old(clients.clients) - {memberId} else old(clients.clients))
                && (forall r :: r in rooms ==> r.members == old(r.members) - {this})
      ensures old(Coherent()) ==> Coherent()
    {
      Transmit(EVENT, RndId(draw), name, args, open);
    }

    /** The session listed under member id to, if any. */
    ghost function Target(to: int): set<Client>
      reads clients
    {
      if to in clients.clients then {clients.clients[to]} else {}
    }

    ghost function TargetRooms(to: int): set<Room>
      reads clients, clients.clients.Values
    {
      if to in clients.clients then clients.clients[to].rooms else {}
    }

    /** whisper: checks authentication before looking at the directory, fails with KeyError when
        no session is listed under to, and otherwise sends the target a "whispers" event whose
        arguments are the message, this session's member id, and the rest, in that order. */
    method Whisper(to: int, msg: Value, rest: seq<Value>, draw: int, open: bool) returns (r: Outcome)
      requires IsInt32(draw)
      requires Coherent()
      modifies clients, register, Target(to), TargetRooms(to)
      ensures !old(authenticated) ==> r == Fail(AuthException)
      ensures old(authenticated) && to !in old(clients.clients) ==> r == Fail(KeyError(to))
      ensures r.Fail? ==> unchanged(clients, register) && unchanged(Target(to)) && unchanged(TargetRooms(to))
      ensures old(authenticated) && to in old(clients.clients) ==>
                var t := old(clients.clients[to]);
                var e := Envelope("whispers", EVENT, RndId(draw), [msg, Int(old(memberId))] + rest);
                && r == Pass
                && t.dead == (old(t.dead) || !open)
                && t.sent == (if old(t.dead) || !open then old(t.sent) else old(t.sent) + [e])
      ensures old(authenticated) && to in old(clients.clients) && (old(clients.clients[to].dead) || open) ==>
                unchanged(clients, register) && unchanged(old(TargetRooms(to)))
      ensures forall t :: t in old(Target(to)) ==>
                t.memberId == old(t.memberId) && t.authenticated == old(t.authenticated) && t.roles == old(t.roles)
                && t.clanId == old(t.clanId) && t.allianceId == old(t.allianceId) && t.rooms == old(t.rooms)
      ensures Coherent()
    {
      r := RequireAuth();
      if r.Fail? {
        return;
      }
      if to !in clients.clients {
        return Fail(KeyError(to));
      }
      var target := clients.clients[to];
      target.Send("whispers", [msg, Int(memberId)] + rest, draw, open);
    }
  }

  /** A scoped role names its scope in its first letters, so a clan role is never an alliance role. */
  lemma ScopesDisjoint(clanRole: string, allianceRole: string)
    ensures CLAN_PREFIX + clanRole != ALLIANCE_PREFIX + allianceRole
  {
    assert (CLAN_PREFIX + clanRole)[0] != (ALLIANCE_PREFIX + allianceRole)[0];
  }

  predicate IsClanRole(role: string) {
    |role| >= |CLAN_PREFIX| && role[..|CLAN_PREFIX|] == CLAN_PREFIX
  }

  /** A session holding only clan roles is refused every alliance-scoped action. */
  lemma ClanRolesGrantNoAllianceRole(c: Client, allianceId: int, role: string)
    requires forall x :: x in c.roles ==> IsClanRole(x)
    ensures c.RequireAllianceRole(allianceId, role) == Fail(AuthException)
  {
    var scoped := ALLIANCE_PREFIX + role;
    assert scoped[..|CLAN_PREFIX|][0] == 'A';
    assert !IsClanRole(scoped);
  }

  /** Passing a scoped guard implies holding the scoped role string itself. */
  lemma ScopedGuardImpliesRole(c: Client, clanId: int, allianceId: int, role: string)
    ensures c.RequireClanRole(clanId, role) == Pass ==> c.RequireRole(CLAN_PREFIX + role) == Pass
    ensures c.RequireAllianceRole(allianceId, role) == Pass ==> c.RequireRole(ALLIANCE_PREFIX + role) == Pass
  {
  }

  /** Member 42 holding "Clan Leader" in clan 7 leads clan 7 and not clan 8. */
  lemma ClanLeaderExample(c: Client)
    requires c.authenticated && c.memberId == 42 && c.roles == ["Clan Leader"] && c.clanId == 7
    ensures c.RequireClanRole(7, "Leader") == Pass
    ensures c.RequireClanRole(8, "Leader") == Fail(AuthException)
  {
    assert CLAN_PREFIX + "Leader" == "Clan Leader";
  }
}
