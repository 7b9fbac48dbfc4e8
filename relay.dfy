/**
 * The Socket.IO connection handler of the chat server: text, image and audio
 * messages are stored and then emitted to every socket, call rooms are named and
 * announced, and a connection the transport could not recover is sent the
 * backlog after its cursor.
 */
module Relay {
  import opened Wrappers
  import opened MessageSchema
  import opened Protocol
  import opened Replay
  import CallRoom
  import Strings

  /** A socket's id, chosen by the transport. */
  type ConnId = nat

  /** `socket.handshake.auth.username ?? 'anonymous'`: only null or undefined is replaced. */
  function Author(handshake: Option<string>): string {
    if handshake.Some? then handshake.value else "anonymous"
  }

  const ImageErrorText: string := "No se pudo guardar la imagen. Intenta con una más pequeña."
  const AudioErrorText: string := "No se pudo guardar el audio."

  /** The store hands out strictly increasing ids. */
  predicate IdsIncreasing(store: seq<Message>) {
    forall i, j :: 0 <= i < j < |store| ==> store[i].id < store[j].id
  }

  predicate IdsBelow(store: seq<Message>, bound: nat) {
    forall i :: 0 <= i < |store| ==> store[i].id < bound
  }

  /** `io.emit(e)`: every connected socket receives e. */
  ghost predicate EmittedToAll(before: map<ConnId, seq<Event>>, after: map<ConnId, seq<Event>>, e: Event) {
    after.Keys == before.Keys && forall c :: c in after ==> after[c] == before[c] + [e]
  }

  /** `socket.emit(...)`: the events go to socket `to` alone, appended in order. */
  ghost predicate EmittedTo(before: map<ConnId, seq<Event>>, after: map<ConnId, seq<Event>>,
                            to: ConnId, events: seq<Event>) {
    to in before && after.Keys == before.Keys && after[to] == before[to] + events
    && forall c :: c in after && c != to ==> after[c] == before[c]
  }

  /** Two emissions to the same socket are one emission of both, in order. */
  lemma EmittedToTwice(a: map<ConnId, seq<Event>>, b: map<ConnId, seq<Event>>, c: map<ConnId, seq<Event>>,
                       to: ConnId, first: seq<Event>, second: seq<Event>)
    requires EmittedTo(a, b, to, first) && EmittedTo(b, c, to, second)
    ensures EmittedTo(a, c, to, first + second)
  {
    assert a[to] + first + second == a[to] + (first + second);
  }

  /** `socket.broadcast.emit(e)`: every connected socket but the sender receives e. */
  ghost predicate EmittedToOthers(before: map<ConnId, seq<Event>>, after: map<ConnId, seq<Event>>,
                                  e: Event, sender: ConnId) {
    after.Keys == before.Keys
    && forall c :: c in after ==> after[c] == if c == sender then before[c] else before[c] + [e]
  }

  /**
   * A document written by a live handler replays as exactly the event the live
   * broadcast carried: same name, same (content, id, user, createdAt).
   */
  lemma LiveEventMatchesReplay(kind: Kind, content: string, id: nat, author: string, now: nat)
    ensures EventFor(Message(id, content, author, KindName(kind), now, now))
            == Some(ChatEvent(kind, content, id, author, now))
    ensures EventName(ChatEvent(kind, content, id, author, now))
            == match kind case Text => "chat message" case Image => "image message" case Audio => "audio message"
  {
    KindNameRoundTrip(kind);
  }

  /** How a media handler ends, as far as the sender and the process are concerned. */
  datatype MediaOutcome = Stored | SenderError | ProcessExit

  /**
   * The image and audio handlers as written: the payload's `.length` is read for a
   * log line before the `try`, so a missing payload throws outside it, the
   * rejected promise reaches the `unhandledRejection` handler, and that calls
   * `gracefulShutdown`, which ends the process.
   */
  function MediaOutcomeAsWritten(data: Option<string>, author: string, writeOk: bool): MediaOutcome {
    if data.None? then ProcessExit
    else if Present(data) && Present(Some(author)) && writeOk then Stored
    else SenderError
  }

  /**
   * One client emitting `image message` with no argument stops the server for
   * everybody, whoever the author and whatever the database would answer.
   */
  lemma MissingPayloadStopsServer()
    ensures forall author, writeOk :: MediaOutcomeAsWritten(None, author, writeOk) == ProcessExit
  {
  }

  class ChatRelay {
    /** The `messages` collection, in insertion order. */
    var store: seq<Message>
    /** The id the store assigns to the next document. */
    var nextId: nat
    /** The connected sockets and the `auth.username` each gave in its handshake. */
    var sessions: map<ConnId, Option<string>>
    /** Everything emitted to each connected socket, in emission order. */
    var outbox: map<ConnId, seq<Event>>

    ghost predicate Valid()
      reads this
    {
      outbox.Keys == sessions.Keys && IdsIncreasing(store) && IdsBelow(store, nextId)
    }

    /** A relay over a collection that already holds `existing`, with nobody connected. */
    constructor (existing: seq<Message>)
      requires IdsIncreasing(existing)
      ensures Valid()
      ensures store == existing && sessions == map[] && outbox == map[]
      ensures nextId == if existing == [] then 1 else existing[|existing| - 1].id + 1
    {
      store := existing;
      nextId := if existing == [] then 1 else existing[|existing| - 1].id + 1;
      sessions := map[];
      outbox := map[];
    }

    /**
     * `await Message.create({ content, user: author, type })` and, once it has
     * resolved, `io.emit(<name of kind>, content, id, author, createdAt)`.
     * `writeOk` is whether the database accepts a valid document.
     */
    method Persist(kind: Kind, content: Option<string>, author: string, now: nat, writeOk: bool)
      returns (stored: bool)
      requires Valid()
      modifies this
      ensures Valid() && sessions == old(sessions)
      ensures stored <==> Present(content) && author != "" && writeOk
      ensures stored ==>
                && nextId == old(nextId) + 1
                && store == old(store) + [Message(old(nextId), content.value, author, KindName(kind), now, now)]
                && EmittedToAll(old(outbox), outbox, ChatEvent(kind, content.value, old(nextId), author, now))
      ensures !stored ==> store == old(store) && outbox == old(outbox) && nextId == old(nextId)
    {
      var r := Create(Draft(content, Some(author), Some(KindName(kind))), nextId, now);
      KindNameRoundTrip(kind);
      stored := r.Ok? && writeOk;
      if stored {
        var e := ChatEvent(kind, content.value, nextId, author, now);
        store := store + [r.value];
        nextId := nextId + 1;
        outbox := map c | c in outbox :: outbox[c] + [e];
      }
    }

    /**
     * `chat message`: stored under the handshake's author, then emitted to every
     * socket; when the store refuses, nothing is emitted to anybody, not even an
     * error to the sender.
     */
    method ChatMessage(conn: ConnId, msg: Option<string>, now: nat, writeOk: bool)
      requires Valid() && conn in sessions
      modifies this
      ensures Valid() && sessions == old(sessions)
      ensures var author := Author(old(sessions)[conn]);
        if Present(msg) && author != "" && writeOk then
          && store == old(store) + [Message(old(nextId), msg.value, author, "text", now, now)]
          && nextId == old(nextId) + 1
          && EmittedToAll(old(outbox), outbox, ChatEvent(Text, msg.value, old(nextId), author, now))
        else
          store == old(store) && nextId == old(nextId) && outbox == old(outbox)
    {
      var _ := Persist(Text, msg, Author(sessions[conn]), now, writeOk);
    }

    /**
     * `image message` and `audio message`: stored, then emitted to every socket;
     * when the store refuses (a missing or empty payload included), only the
     * sender receives an `error` event and nothing else is emitted.
     */
    method MediaMessage(conn: ConnId, kind: Kind, data: Option<string>, now: nat, writeOk: bool)
      requires Valid() && conn in sessions && kind != Text
      modifies this
      ensures Valid() && sessions == old(sessions)
      ensures var author := Author(old(sessions)[conn]);
        if Present(data) && author != "" && writeOk then
          && store == old(store) + [Message(old(nextId), data.value, author, KindName(kind), now, now)]
          && nextId == old(nextId) + 1
          && EmittedToAll(old(outbox), outbox, ChatEvent(kind, data.value, old(nextId), author, now))
        else
          && store == old(store) && nextId == old(nextId)
          && EmittedTo(old(outbox), outbox, conn, [ErrorEvent(MediaErrorText(kind))])
    {
      var stored := Persist(kind, data, Author(sessions[conn]), now, writeOk);
      if !stored {
        outbox := outbox[conn := outbox[conn] + [ErrorEvent(MediaErrorText(kind))]];
      }
    }

    /** `create-call-room`: the room's URL and name, and the author, go back to the requester only. */
    method CreateCallRoom(conn: ConnId, now: nat, random36: string)
      requires Valid() && conn in sessions
      modifies this
      ensures Valid() && sessions == old(sessions) && store == old(store) && nextId == old(nextId)
      ensures var name := CallRoom.RoomName(now, random36);
        EmittedTo(old(outbox), outbox, conn,
                  [CallRoomCreated("https://8x8.vc/" + name, name, Author(old(sessions)[conn]))])
    {
      var name := CallRoom.RoomName(now, random36);
      var e := CallRoomCreated(CallRoom.RoomUrl(name), name, Author(sessions[conn]));
      outbox := outbox[conn := outbox[conn] + [e]];
    }

    /**
     * `notify-call`: every socket except the sender is told of the room, under the
     * sender's handshake author rather than anything the payload says.
     */
    method NotifyCall(conn: ConnId, roomUrl: string, roomName: string)
      requires Valid() && conn in sessions
      modifies this
      ensures Valid() && sessions == old(sessions) && store == old(store) && nextId == old(nextId)
      ensures EmittedToOthers(old(outbox), outbox,
                              CallNotification(roomUrl, roomName, Author(old(sessions)[conn])), conn)
    {
      var e := CallNotification(roomUrl, roomName, Author(sessions[conn]));
      outbox := map c | c in outbox :: if c == conn then outbox[c] else outbox[c] + [e];
    }

    /**
     * A new connection. Unless the transport recovered the session, the backlog
     * after the handshake's cursor is emitted to this socket alone, one event per
     * document of known type. `queryOk` is whether the database answers the query.
     */
    method Connect(conn: ConnId, username: Option<string>, offset: Offset, recovered: bool, queryOk: bool)
      requires Valid() && conn !in sessions
      modifies this
      ensures Valid() && store == old(store) && nextId == old(nextId)
      ensures sessions == old(sessions)[conn := username]
      ensures outbox.Keys == old(outbox).Keys + {conn}
      ensures forall c :: c in old(outbox) ==> outbox[c] == old(outbox)[c]
      ensures outbox[conn] == if !recovered && queryOk then ReplayEvents(Backlog(store, offset)) else []
    {
      sessions := sessions[conn := username];
      outbox := outbox[conn := []];
      if !recovered && queryOk {
        ReplayTo(conn, Backlog(store, offset));
        assert [] + ReplayEvents(Backlog(store, offset)) == ReplayEvents(Backlog(store, offset));
      }
    }

    /** `messages.forEach(...)` of the recovery block: each document's event, to this socket only. */
    method ReplayTo(conn: ConnId, messages: seq<Message>)
      requires Valid() && conn in sessions
      modifies this
      ensures Valid() && store == old(store) && nextId == old(nextId) && sessions == old(sessions)
      ensures EmittedTo(old(outbox), outbox, conn, ReplayEvents(messages))
    {
      assert messages[..0] == [];
      assert old(outbox)[conn] + [] == old(outbox)[conn];
      for i := 0 to |messages|
        invariant Valid() && store == old(store) && nextId == old(nextId) && sessions == old(sessions)
        invariant EmittedTo(old(outbox), outbox, conn, ReplayEvents(messages[..i]))
      {
        ReplayEventsStep(messages, i);
        ghost var before := outbox;
        EmitReplayed(conn, messages[i]);
        EmittedToTwice(old(outbox), before, outbox, conn, ReplayEvents(messages[..i]), EmittedFor(messages[i]));
      }
      assert messages[..|messages|] == messages;
    }

    /** One iteration of the recovery loop: the event for the document's type, or none. */
    method EmitReplayed(conn: ConnId, m: Message)
      requires Valid() && conn in sessions
      modifies this
      ensures Valid() && store == old(store) && nextId == old(nextId) && sessions == old(sessions)
      ensures EmittedTo(old(outbox), outbox, conn, EmittedFor(m))
    {
      if m.kind == "text" {
        outbox := outbox[conn := outbox[conn] + [ChatEvent(Text, m.content, m.id, m.user, m.createdAt)]];
      } else if m.kind == "image" {
        outbox := outbox[conn := outbox[conn] + [ChatEvent(Image, m.content, m.id, m.user, m.createdAt)]];
      } else if m.kind == "audio" {
        outbox := outbox[conn := outbox[conn] + [ChatEvent(Audio, m.content, m.id, m.user, m.createdAt)]];
      } else {
        assert EmittedFor(m) == [] && outbox[conn] + [] == outbox[conn];
      }
    }

    /** A socket goes away; Socket.IO no longer emits to it. */
    method Disconnect(conn: ConnId)
      requires Valid()
      modifies this
      ensures Valid() && store == old(store) && nextId == old(nextId)
      ensures sessions == old(sessions) - {conn} && outbox == old(outbox) - {conn}
    {
      sessions := sessions - {conn};
      outbox := outbox - {conn};
    }
  }

  function MediaErrorText(kind: Kind): string {
    if kind == Image then ImageErrorText else AudioErrorText
  }
}
