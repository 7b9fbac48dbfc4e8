/**
 * The browser client: a username kept in local storage, the resumption cursor
 * it presents when it (re)connects, the rendering decision for each received
 * text message, and the chat form.
 */
module ChatClient {
  import opened Wrappers
  import opened Strings
  import opened Protocol
  import opened Timestamp

  /** The names a new username is drawn from. */
  const Names: seq<string> := [
    "Carlos", "María", "Pedro", "Ana", "Luis", "Sofia",
    "Diego", "Laura", "Miguel", "Valentina", "Andrés", "Camila",
    "José", "Isabella", "Daniel", "Lucía", "Mateo", "Paula",
    "Santiago", "Renata"
  ]

  /**
   * `${names[Math.floor(r1 * names.length)]}_${r2.toString(36).substring(2, 5)}`,
   * with the first random number passed in as r1 and the second's base-36 text as
   * random36.
   */
  function GeneratedName(r1: real, random36: string): string
    requires 0.0 <= r1 < 1.0
  {
    var i := (r1 * (|Names| as real)).Floor;
    Names[i] + "_" + Substring(random36, 2, 5)
  }

  /**
   * A generated username is one of the listed names, an underscore and at most
   * three base-36 digits; it is never empty, so once stored it is found again.
   */
  lemma GeneratedNameShape(r1: real, random36: string)
    requires 0.0 <= r1 < 1.0 && IsRandomBase36(random36)
    ensures var name := GeneratedName(r1, random36);
      && name != ""
      && exists i, suffix :: 0 <= i < |Names| && name == Names[i] + "_" + suffix
                             && |suffix| <= 3 && AllBase36(suffix)
  {
    var i := (r1 * (|Names| as real)).Floor;
    var suffix := Substring(random36, 2, 5);
    assert suffix == Substr(random36, 2, 3);
    RandomSuffix(random36, 3);
    assert GeneratedName(r1, random36) == Names[i] + "_" + suffix;
  }

  /** One rendered list item: own messages are styled apart and shown without the author. */
  datatype Item = Item(own: bool, user: string, text: string, time: string)

  class Client {
    /** `localStorage.getItem('username')`; None when nothing is stored. */
    var storage: Option<string>
    /** `myUsername`, fixed when the page loads. */
    var username: string
    /** `socket.auth.serverOffset`, sent in the handshake of every (re)connection. */
    var serverOffset: Offset
    /** The chat form's text field. */
    var input: string
    /** The `chat message` events this client has emitted. */
    var sent: seq<string>
    /** The messages rendered so far, in arrival order. */
    var shown: seq<Item>

    /**
     * Page load: the username is fetched or created, and the socket's first
     * handshake carries the cursor 0.
     */
    constructor (stored: Option<string>, r1: real, random36: string)
      requires 0.0 <= r1 < 1.0
      ensures username == if stored.Some? && stored.value != "" then stored.value else GeneratedName(r1, random36)
      ensures storage == Some(username) && username != ""
      ensures serverOffset == Falsy && input == "" && sent == [] && shown == []
    {
      storage := stored;
      serverOffset := Falsy;
      input := "";
      sent := [];
      shown := [];
      username := "";
      new;
      username := GetUsername(r1, random36);
    }

    /**
     * `getUsername`: a stored non-empty username is returned unchanged and nothing
     * is written; otherwise a new one is generated and stored, so that the next
     * call returns it.
     */
    method GetUsername(r1: real, random36: string) returns (name: string)
      requires 0.0 <= r1 < 1.0
      modifies this`storage
      ensures name != "" && storage == Some(name)
      ensures old(storage).Some? && old(storage).value != "" ==> name == old(storage).value
      ensures !(old(storage).Some? && old(storage).value != "") ==> name == GeneratedName(r1, random36)
    {
      if storage.Some? && storage.value != "" {
        name := storage.value;
        return;
      }
      var i := (r1 * (|Names| as real)).Floor;
      assert Names[i] != "";
      name := GeneratedName(r1, random36);
      storage := Some(name);
    }

    /**
     * The `chat message` handler, for live and replayed messages alike: the
     * message is rendered as own exactly when its author is this client's username,
     * and the cursor becomes the message's id.
     */
    method OnChatMessage(msg: string, id: nat, user: string, stamp: Option<LocalTime>, now: LocalTime)
      requires stamp.Some? ==> ValidTime(stamp.value)
      requires Calendar.ValidDate(now.date)
      modifies this`shown, this`serverOffset
      ensures serverOffset == Cursor(id)
      ensures shown == old(shown) + [Item(user == username, user, msg, FormatTimestamp(stamp, now))]
    {
      var isOwn := user == username;
      var formattedTime := FormatTimestamp(stamp, now);
      shown := shown + [Item(isOwn, user, msg, formattedTime)];
      serverOffset := Cursor(id);
    }

    /** The form's submit handler: a non-empty field is emitted and then cleared. */
    method Submit()
      modifies this`input, this`sent
      ensures input == ""
      ensures sent == if old(input) != "" then old(sent) + [old(input)] else old(sent)
    {
      if input != "" {
        sent := sent + [input];
        input := "";
      }
    }
  }
}
