/** The mediator demo: users of a chat room never talk to each other
    directly; a user sends through the room, and the room delivers to every
    registered user except the sender. A delivery is returned as the line the
    recipient writes instead of being printed. */
module Mediator {

  /** The registered users other than the sender, in registration order.
      Users are compared by identity, as the room compares colleagues. */
  function Others(users: seq<User>, sender: User): seq<User> {
    if users == [] then []
    else (if users[0] != sender then [users[0]] else []) + Others(users[1..], sender)
  }

  /** The lines written by the recipients of a message, in delivery order. */
  function Receipts(recipients: seq<User>, message: string): (lines: seq<string>)
    ensures |lines| == |recipients|
    ensures forall i :: 0 <= i < |recipients| ==> lines[i] == recipients[i].Receive(message)
  {
    if recipients == [] then []
    else [recipients[0].Receive(message)] + Receipts(recipients[1..], message)
  }

  /** Filtering distributes over registration order. */
  lemma {:induction false} OthersAppend(a: seq<User>, b: seq<User>, sender: User)
    ensures Others(a + b, sender) == Others(a, sender) + Others(b, sender)
    decreases |a|
  {
    if a == [] {
      assert a + b == b;
    } else {
      assert (a + b)[1..] == a[1..] + b;
      OthersAppend(a[1..], b, sender);
    }
  }

  /** A single user receives exactly when it is not the sender. */
  lemma OthersOne(u: User, sender: User)
    ensures Others([u], sender) == (if u != sender then [u] else [])
  {
    assert [u][1..] == [];
  }

  /** Exactly the registered users other than the sender receive. */
  lemma {:induction false} OthersMembers(users: seq<User>, sender: User, u: User)
    ensures u in Others(users, sender) <==> u in users && u != sender
    decreases |users|
  {
    if users != [] {
      OthersMembers(users[1..], sender, u);
      assert users == [users[0]] + users[1..];
    }
  }

  /** The sender never receives its own message. */
  lemma SenderExcluded(users: seq<User>, sender: User)
    ensures sender !in Others(users, sender)
  {
    OthersMembers(users, sender, sender);
  }

  /** An unregistered sender reaches every registered user, in order. */
  lemma {:induction false} UnregisteredSenderReachesAll(users: seq<User>, sender: User)
    requires sender !in users
    ensures Others(users, sender) == users
    decreases |users|
  {
    if users != [] {
      assert users == [users[0]] + users[1..];
      UnregisteredSenderReachesAll(users[1..], sender);
    }
  }

  /** A sender registered once reaches everyone else: one fewer than the
      room holds. */
  lemma {:induction false} RegisteredSenderMissesOne(users: seq<User>, sender: User)
    requires multiset(users)[sender] == 1
    ensures |Others(users, sender)| == |users| - 1
    decreases |users|
  {
    assert users == [users[0]] + users[1..];
    if users[0] == sender {
      assert sender !in users[1..];
      UnregisteredSenderReachesAll(users[1..], sender);
    } else {
      RegisteredSenderMissesOne(users[1..], sender);
    }
  }

  class ChatRoom {
    var users: seq<User>

    constructor ()
      ensures users == []
    {
      users := [];
    }

    /** Appends a user at the end of the room's list. */
    method Register(user: User)
      modifies this
      ensures users == old(users) + [user]
    {
      users := users + [user];
    }

    /** Delivers a message, unchanged, to every registered user except the
        sender, in registration order; the list of users stays as it is. */
    method SendMessage(message: string, sender: User) returns (recipients: seq<User>, received: seq<string>)
      ensures recipients == Others(users, sender)
      ensures received == Receipts(recipients, message)
    {
      recipients := [];
      received := [];
      var i := 0;
      while i < |users|
        invariant 0 <= i <= |users|
        invariant recipients == Others(users[..i], sender)
        invariant received == Receipts(recipients, message)
      {
        var user := users[i];
        assert users[..i + 1] == users[..i] + [user];
        OthersAppend(users[..i], [user], sender);
        OthersOne(user, sender);
        if user != sender {
          recipients := recipients + [user];
          received := received + [user.Receive(message)];
        }
        i := i + 1;
      }
      assert users[..i] == users;
    }
  }

  class User {
    const name: string
    const chatMed: ChatRoom

    constructor (name: string, chatMed: ChatRoom)
      ensures this.name == name && this.chatMed == chatMed
    {
      this.name := name;
      this.chatMed := chatMed;
    }

    /** The line a user writes on receiving a message. */
    function Receive(message: string): (line: string)
      ensures |line| == |name| + |message| + 19
      ensures line[..|name|] == name
      ensures line[|name|..|name| + 19] == " received message: "
      ensures line[|name| + 19..] == message
    {
      name + " received message: " + message
    }

    /** Announces the message, then hands it to the user's own room with the
        user as the sender. */
    method Send(message: string) returns (announced: string, received: seq<string>)
      ensures announced == name + " sends message: " + message
      ensures received == Receipts(Others(chatMed.users, this), message)
    {
      announced := name + " sends message: " + message;
      var recipients;
      recipients, received := chatMed.SendMessage(message, this);
    }
  }

  /** The demo's room: Alice, Bob and Charlie registered in that order. When
      one of them sends, the other two receive, in registration order. */
  lemma DemoDeliveries(alice: User, bob: User, charlie: User)
    requires alice != bob && bob != charlie && alice != charlie
    ensures Others([alice, bob, charlie], alice) == [bob, charlie]
    ensures Others([alice, bob, charlie], bob) == [alice, charlie]
    ensures Others([alice, bob, charlie], charlie) == [alice, bob]
  {
    assert [alice, bob, charlie] == [alice] + ([bob] + [charlie]);
    OthersAppend([alice], [bob] + [charlie], alice);
    OthersAppend([alice], [bob] + [charlie], bob);
    OthersAppend([alice], [bob] + [charlie], charlie);
    OthersAppend([bob], [charlie], alice);
    OthersAppend([bob], [charlie], bob);
    OthersAppend([bob], [charlie], charlie);
    OthersOne(alice, alice);
    OthersOne(alice, bob);
    OthersOne(alice, charlie);
    OthersOne(bob, alice);
    OthersOne(bob, bob);
    OthersOne(bob, charlie);
    OthersOne(charlie, alice);
    OthersOne(charlie, bob);
    OthersOne(charlie, charlie);
  }

  /** The demo: each of the three users sends once through the room. */
  method Demo() returns (alice: User, bob: User, charlie: User,
                         fromAlice: seq<string>, fromBob: seq<string>, fromCharlie: seq<string>)
    ensures fromAlice == Receipts([bob, charlie], "Hi, everyone!")
    ensures fromBob == Receipts([alice, charlie], "Hello, Alice!")
    ensures fromCharlie == Receipts([alice, bob], "Hey, how are you?")
  {
    var chatroom := new ChatRoom();
    alice := new User("Alice", chatroom);
    bob := new User("Bob", chatroom);
    charlie := new User("Charlie", chatroom);
    chatroom.Register(alice);
    chatroom.Register(bob);
    chatroom.Register(charlie);
    DemoDeliveries(alice, bob, charlie);
    var announced;
    announced, fromAlice := alice.Send("Hi, everyone!");
    announced, fromBob := bob.Send("Hello, Alice!");
    announced, fromCharlie := charlie.Send("Hey, how are you?");
  }
}
