// The calls the session core makes on the presence register (presence.PresenceRegister:
// add, remove, register_interest). The register's own storage is external; it is modelled
// by the log of these calls, and the interest graph is read off that log.
module Presence {

  datatype Call = Added(member: int) | Removed(member: int) | Interest(subscriber: int, watched: int)

  /** An entry of the contact list fetched for a member; only its "id" is used. */
  datatype Contact = Contact(id: int)

  function ContactIds(contacts: seq<Contact>): set<int> {
    set c | c in contacts :: c.id
  }

  /** The register_interest calls of on_authenticated's loop, one per contact, in contact order. */
  function InterestCalls(member: int, contacts: seq<Contact>): (calls: seq<Call>)
    ensures |calls| == |contacts|
    ensures forall i :: 0 <= i < |contacts| ==> calls[i] == Interest(member, contacts[i].id)
  {
    if contacts == [] then []
    else InterestCalls(member, contacts[..|contacts| - 1]) + [Interest(member, contacts[|contacts| - 1].id)]
  }

  /** The ids a subscriber has registered interest in, according to a call log. */
  function Watched(log: seq<Call>, subscriber: int): set<int> {
    if log == [] then {}
    else
      var last := log[|log| - 1];
      Watched(log[..|log| - 1], subscriber)
        + (if last.Interest? && last.subscriber == subscriber then {last.watched} else {})
  }

  /** Watched is exactly the set of targets of the subscriber's register_interest calls. */
  lemma {:induction false} WatchedIffInterest(log: seq<Call>, subscriber: int, w: int)
    ensures w in Watched(log, subscriber) <==> Interest(subscriber, w) in log
    decreases |log|
  {
    if log != [] {
      var front := log[..|log| - 1];
      assert log == front + [log[|log| - 1]];
      WatchedIffInterest(front, subscriber, w);
    }
  }

  /** Appending calls to the log adds their interests and forgets none. */
  lemma {:induction false} WatchedAppend(a: seq<Call>, b: seq<Call>, subscriber: int)
    ensures Watched(a + b, subscriber) == Watched(a, subscriber) + Watched(b, subscriber)
    decreases |b|
  {
    if b == [] {
      assert a + b == a;
    } else {
      var ab := a + b;
      assert ab[..|ab| - 1] == a + b[..|b| - 1];
      WatchedAppend(a, b[..|b| - 1], subscriber);
    }
  }

  /** The interest calls for a contact list register exactly the contacts' ids. */
  lemma {:induction false} WatchedInterestCalls(member: int, contacts: seq<Contact>)
    ensures Watched(InterestCalls(member, contacts), member) == ContactIds(contacts)
    decreases |contacts|
  {
    if contacts != [] {
      var front := contacts[..|contacts| - 1];
      var last := contacts[|contacts| - 1];
      WatchedAppend(InterestCalls(member, front), [Interest(member, last.id)], member);
      WatchedInterestCalls(member, front);
      assert contacts == front + [last];
      assert ContactIds(contacts) == ContactIds(front) + {last.id};
    }
  }

  /** What on_authenticated leaves in the log: the member watches everything it watched before
      plus exactly its contacts. */
  lemma SeededInterests(log: seq<Call>, member: int, contacts: seq<Contact>)
    ensures Watched(log + [Added(member)] + InterestCalls(member, contacts), member)
         == Watched(log, member) + ContactIds(contacts)
  {
    WatchedAppend(log + [Added(member)], InterestCalls(member, contacts), member);
    WatchedAppend(log, [Added(member)], member);
    WatchedInterestCalls(member, contacts);
    assert Watched([Added(member)], member) == {};
  }

  /** Member 5 with contacts 9 and 11, on an empty register, watches {9, 11}. */
  lemma SeedingExample()
    ensures Watched([Added(5)] + InterestCalls(5, [Contact(9), Contact(11)]), 5) == {9, 11}
  {
    SeededInterests([], 5, [Contact(9), Contact(11)]);
    assert [] + [Added(5)] == [Added(5)];
    assert ContactIds([Contact(9), Contact(11)]) == {9, 11};
  }
}
