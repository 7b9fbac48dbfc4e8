/**
 * A two-client conversation, checked against the contracts of the relay, the
 * replay query and the client alone: A greets an empty room, B joins and is
 * sent the greeting, A writes again and both receive it live.
 */
module Scenario {
  import opened Wrappers
  import opened MessageSchema
  import opened Protocol
  import opened Replay
  import opened Relay
  import ChatClient
  import Calendar
  import Timestamp

  method RelayConversation()
  {
    var relay := Greeting();
    ghost var before := relay.outbox;
    relay.ChatMessage(1, Some("world"), 2000, true);
    var world := ChatEvent(Text, "world", 2, "A", 2000);
    assert EmittedToAll(before, relay.outbox, world);
    assert relay.outbox[1] == before[1] + [world];
    assert relay.outbox[2] == [ChatEvent(Text, "hello", 1, "A", 1000), world];

    // An empty text is refused by the schema: nobody hears of it.
    before := relay.outbox;
    ghost var stored := relay.store;
    relay.ChatMessage(2, Some(""), 3000, true);
    assert relay.store == stored && relay.outbox == before;
  }

  /** A (socket 1) greets an empty room; B (socket 2) then joins and is sent the greeting. */
  method Greeting() returns (relay: ChatRelay)
    ensures fresh(relay) && relay.Valid() && relay.nextId == 2
    ensures relay.sessions == map[1 := Some("A"), 2 := Some("B")]
    ensures relay.store == [Message(1, "hello", "A", "text", 1000, 1000)]
    ensures relay.outbox[2] == [ChatEvent(Text, "hello", 1, "A", 1000)]
  {
    relay := OpenRoom();
    var hello := Message(1, "hello", "A", "text", 1000, 1000);
    relay.Connect(2, Some("B"), Falsy, false, true);
    assert Backlog(relay.store, Falsy) == [hello] by {
      assert SortByCreatedAt([hello]) == [hello];
    }
    assert ReplayEvents([hello]) == [ChatEvent(Text, "hello", 1, "A", 1000)] by {
      assert [hello][1..] == [];
    }
  }

  /** A connects to an empty room and says hello; A alone receives it. */
  method OpenRoom() returns (relay: ChatRelay)
    ensures fresh(relay) && relay.Valid() && relay.nextId == 2
    ensures relay.sessions == map[1 := Some("A")]
    ensures relay.store == [Message(1, "hello", "A", "text", 1000, 1000)]
    ensures relay.outbox[1] == [ChatEvent(Text, "hello", 1, "A", 1000)]
  {
    relay := new ChatRelay([]);
    relay.Connect(1, Some("A"), Falsy, false, true);
    assert relay.outbox[1] == [];
    relay.ChatMessage(1, Some("hello"), 1000, true);
  }

  method ClientCursor()
  {
    // B's page applies both events; its cursor ends at the last id it saw.
    var client := new ChatClient.Client(Some("B"), 0.5, "0.abc");
    var today := Timestamp.LocalTime(Calendar.Date(2024, 0, 15), 12, 0);
    var seen := Timestamp.LocalTime(Calendar.Date(2024, 0, 15), 9, 5);
    client.OnChatMessage("hello", 1, "A", Some(seen), today);
    client.OnChatMessage("world", 2, "A", Some(seen), today);
    assert client.serverOffset == Cursor(2);
    assert !client.shown[0].own;
  }
}
