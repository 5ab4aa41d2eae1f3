/**
 * The mediator demo `ChatRoom`: users never talk to each other directly; the
 * room they joined delivers broadcasts to every member and private messages
 * to the first member with the recipient's name and to the sender.
 */
module ChatRoom {
  import opened Seqs
  import opened Outcomes

  /** A logged message (its time stamp is not modelled). */
  datatype ChatMessage = ChatMessage(sender: string, message: string)

  class User {
    const username: string
    var room: ChatRoom?
    var chatLog: seq<ChatMessage>

    constructor(username: string)
      ensures this.username == username && room == null && chatLog == []
    {
      this.username := username;
      room := null;
      chatLog := [];
    }

    /** The members of the user's room, or none when the user has not joined one. */
    function RoomMembers(): seq<User>
      reads this, room
    {
      if room == null then [] else room.users
    }

    method ReceiveMessage(sender: string, message: string)
      modifies this`chatLog
      ensures chatLog == old(chatLog) + [ChatMessage(sender, message)]
    {
      chatLog := chatLog + [ChatMessage(sender, message)];
    }

    /** Sends through the room to every member; without a room nothing happens. */
    method BroadcastMessage(message: string)
      modifies RoomMembers()`chatLog
      ensures forall u :: u in RoomMembers() ==>
        u.chatLog == old(u.chatLog) + Repeat(ChatMessage(username, message), Count(RoomMembers(), u))
    {
      if room != null {
        room.Broadcast(username, message);
      }
    }

    /** Sends through the room to `recipient` and back to this user; without a room nothing happens. */
    method SendPrivateMessage(recipient: string, message: string)
      modifies RoomMembers()`chatLog
      ensures room != null ==> forall u :: u in room.users ==>
        u.chatLog == old(u.chatLog) + Repeat(ChatMessage(username, message), room.PrivateCopies(username, recipient, u))
    {
      if room != null {
        room.SendMessage(username, recipient, message);
      }
    }
  }

  /** One more delivery to a user who has already received `n` copies of `m` since `before`. */
  method Deliver(user: User, ghost before: seq<ChatMessage>, ghost n: nat, m: ChatMessage)
    requires user.chatLog == before + Repeat(m, n)
    modifies user`chatLog
    ensures user.chatLog == before + Repeat(m, n + 1)
  {
    user.ReceiveMessage(m.sender, m.message);
    assert before + Repeat(m, n) + [m] == before + (Repeat(m, n) + [m]);
  }

  /** The index of the first member called `name` (`List<User>.FindIndex`), or -1. */
  function FindIndex(users: seq<User>, name: string): (i: int)
    ensures -1 <= i < |users|
    ensures i == -1 <==> forall u :: u in users ==> u.username != name
    ensures i >= 0 ==> users[i].username == name && forall k :: 0 <= k < i ==> users[k].username != name
  {
    if users == [] then -1
    else if users[0].username == name then 0
    else
      var i := FindIndex(users[1..], name);
      if i == -1 then -1 else i + 1
  }

  /** The first member called `name` (`List<User>.Find`), if any. */
  function Find(users: seq<User>, name: string): Option<User> {
    var i := FindIndex(users, name);
    if i == -1 then None else Some(users[i])
  }

  class ChatRoom {
    var users: seq<User>

    constructor()
      ensures users == []
    {
      users := [];
    }

    /** How many copies of a private message from `sender` to `recipient` member `u` receives. */
    function PrivateCopies(sender: string, recipient: string, u: User): nat
      reads this
    {
      (if Find(users, recipient) == Some(u) then 1 else 0) + (if Find(users, sender) == Some(u) then 1 else 0)
    }

    /** Every member receives the message once per time they appear in the member list, in join order. */
    method Broadcast(sender: string, message: string)
      modifies users`chatLog
      ensures forall u :: u in users ==>
        u.chatLog == old(u.chatLog) + Repeat(ChatMessage(sender, message), Count(users, u))
    {
      var m := ChatMessage(sender, message);
      for i := 0 to |users|
        invariant forall u :: u in users ==> u.chatLog == old(u.chatLog) + Repeat(m, Count(users[..i], u))
      {
        var user := users[i];
        assert users[..i + 1] == users[..i] + [user];
        forall u | u in users
          ensures Count(users[..i + 1], u) == Count(users[..i], u) + (if user == u then 1 else 0)
        {
          CountAppend(users[..i], [user], u);
          assert [user][1..] == [];
        }
        Deliver(user, old(user.chatLog), Count(users[..i], user), m);
        forall u | u in users
          ensures u.chatLog == old(u.chatLog) + Repeat(m, Count(users[..i + 1], u))
        {
        }
      }
      assert users[..|users|] == users;
    }

    /** The message reaches the first member named `recipient` and the first member named `sender`. */
    method SendMessage(sender: string, recipient: string, message: string)
      modifies users`chatLog
      ensures forall u :: u in users ==>
        u.chatLog == old(u.chatLog) + Repeat(ChatMessage(sender, message), PrivateCopies(sender, recipient, u))
    {
      var target := Find(users, recipient);
      if target.Some? {
        target.value.ReceiveMessage(sender, message);
      }
      var echo := Find(users, sender);
      if echo.Some? {
        echo.value.ReceiveMessage(sender, message);
      }
    }

    /** Adds the user to the room and announces the arrival to every member, the newcomer included. */
    method Join(user: User)
      modifies this, user`room, (users + [user])`chatLog
      ensures user.room == this
      ensures users == old(users) + [user]
      ensures forall u :: u in users ==>
        u.chatLog == old(u.chatLog) + Repeat(ChatMessage("room", user.username + " joined the chatroom"), Count(users, u))
    {
      var joinMessage := user.username + " joined the chatroom";
      user.room := this;
      users := users + [user];
      Broadcast("room", joinMessage);
    }
  }

  /** A private message to oneself is logged twice for the sender. */
  lemma MessageToSelfLoggedTwice(room: ChatRoom, name: string)
    requires FindIndex(room.users, name) >= 0
    ensures room.PrivateCopies(name, name, room.users[FindIndex(room.users, name)]) == 2
  {
  }

  /** A private message to a name no member has is logged once, for the sender only. */
  lemma UnknownRecipientOnlyEchoes(room: ChatRoom, sender: string, recipient: string, u: User)
    requires forall v :: v in room.users ==> v.username != recipient
    requires u in room.users
    ensures room.PrivateCopies(sender, recipient, u) == (if Find(room.users, sender) == Some(u) then 1 else 0)
  {
  }

  /** The first two joins of the demo's test. */
  method JoinAliceAndBob() returns (room: ChatRoom, alice: User, bob: User)
    ensures fresh(room) && fresh(alice) && fresh(bob)
    ensures room.users == [alice, bob] && alice.room == room && bob.room == room
    ensures alice.username == "Alice" && bob.username == "Bob"
    ensures |alice.chatLog| == 2 && |bob.chatLog| == 1
  {
    room := new ChatRoom();
    alice := new User("Alice");
    bob := new User("Bob");
    room.Join(alice);
    assert |alice.chatLog| == 1;
    room.Join(bob);
    assert Count([alice, bob], alice) == 1;
  }

  /** Each of two distinct members is listed once. */
  lemma CountPair(a: User, b: User)
    requires a != b
    ensures Count([a, b], a) == 1 && Count([a, b], b) == 1
  {
    assert [a, b][1..] == [b] && [b][1..] == [];
  }

  /** Each of three distinct members is listed once. */
  lemma CountTriple(a: User, b: User, c: User)
    requires a != b && a != c && b != c
    ensures Count([a, b, c], a) == 1 && Count([a, b, c], b) == 1 && Count([a, b, c], c) == 1
  {
    assert [a, b, c][1..] == [b, c];
    CountPair(b, c);
  }

  /** The two private messages of the demo's test: each reaches its recipient and is echoed to its sender. */
  method PrivateMessages(room: ChatRoom, alice: User, bob: User)
    requires room.users == [alice, bob] && alice.room == room && bob.room == room
    requires alice.username == "Alice" && bob.username == "Bob"
    modifies alice`chatLog, bob`chatLog
    ensures |alice.chatLog| == |old(alice.chatLog)| + 2 && |bob.chatLog| == |old(bob.chatLog)| + 2
  {
    assert FindIndex(room.users, "Bob") == 1 && FindIndex(room.users, "Alice") == 0;
    alice.SendPrivateMessage(bob.username, "Hello, Bob!");
    bob.SendPrivateMessage(alice.username, "Hi, Alice!");
  }

  /** The middle of the demo's test: two private messages, then a broadcast from Alice. */
  method TalkBetweenAliceAndBob(room: ChatRoom, alice: User, bob: User) returns (afterPrivate: (nat, nat), afterBroadcast: (nat, nat))
    requires room.users == [alice, bob] && alice.room == room && bob.room == room
    requires alice.username == "Alice" && bob.username == "Bob"
    modifies alice`chatLog, bob`chatLog
    ensures afterPrivate == (|old(alice.chatLog)| + 2, |old(bob.chatLog)| + 2)
    ensures afterBroadcast == (|old(alice.chatLog)| + 3, |old(bob.chatLog)| + 3) == (|alice.chatLog|, |bob.chatLog|)
  {
    PrivateMessages(room, alice, bob);
    afterPrivate := (|alice.chatLog|, |bob.chatLog|);
    CountPair(alice, bob);
    alice.BroadcastMessage("Hello, everyone!");
    afterBroadcast := (|alice.chatLog|, |bob.chatLog|);
  }

  /** The end of the demo's test: Charlie joins, then broadcasts. */
  method CharlieJoins(room: ChatRoom, alice: User, bob: User) returns (charlie: User, s4: (nat, nat, nat), s5: (nat, nat, nat))
    requires room.users == [alice, bob] && alice != bob
    modifies room, alice`chatLog, bob`chatLog
    ensures s4 == (|old(alice.chatLog)| + 1, |old(bob.chatLog)| + 1, 1)
    ensures s5 == (|old(alice.chatLog)| + 2, |old(bob.chatLog)| + 2, 2)
  {
    charlie := new User("Charlie");
    room.Join(charlie);
    assert room.users == [alice, bob, charlie];
    CountTriple(alice, bob, charlie);
    s4 := (|alice.chatLog|, |bob.chatLog|, |charlie.chatLog|);
    charlie.BroadcastMessage("Hi, everyone!");
    s5 := (|alice.chatLog|, |bob.chatLog|, |charlie.chatLog|);
  }

  /** The demo's test: log sizes of Alice, Bob and Charlie after each step (Charlie's log is empty until Charlie joins). */
  method ChatScenario() returns (sizes: seq<(nat, nat, nat)>)
    ensures sizes == [(2, 1, 0), (4, 3, 0), (5, 4, 0), (6, 5, 1), (7, 6, 2)]
  {
    var room, alice, bob := JoinAliceAndBob();
    var s1 := (|alice.chatLog|, |bob.chatLog|, 0);
    var afterPrivate, afterBroadcast := TalkBetweenAliceAndBob(room, alice, bob);
    var charlie, s4, s5 := CharlieJoins(room, alice, bob);
    sizes := [s1, (afterPrivate.0, afterPrivate.1, 0), (afterBroadcast.0, afterBroadcast.1, 0), s4, s5];
  }
}
