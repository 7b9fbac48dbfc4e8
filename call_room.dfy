/**
 * The Jitsi-as-a-service room the server names for a `create-call-room` request:
 * "synapsechat", the clock's reading in milliseconds, and up to six base-36
 * digits of a random number, under the provider's base URL.
 */
module CallRoom {
  import opened Strings

  const RoomPrefix: string := "synapsechat"
  const ProviderBase: string := "https://8x8.vc/"

  /**
   * `synapsechat${Date.now()}${Math.random().toString(36).substr(2, 6)}`, with the
   * clock's reading and the random number's base-36 text passed in.
   */
  function RoomName(now: nat, random36: string): string {
    RoomPrefix + NatToDecimal(now) + Substr(random36, 2, 6)
  }

  function RoomUrl(roomName: string): string {
    ProviderBase + roomName
  }

  /**
   * A room name splits into the prefix, the decimal clock reading (which reads
   * back as `now`) and a suffix of at most six base-36 digits taken from the front
   * of the random number's fraction; the URL is the provider's base followed by it.
   */
  lemma RoomNameShape(now: nat, random36: string)
    requires IsRandomBase36(random36)
    ensures var name := RoomName(now, random36);
      var digits := NatToDecimal(now);
      var n := |RoomPrefix| + |digits|;
      && n <= |name| <= n + 6
      && name[..|RoomPrefix|] == RoomPrefix
      && name[|RoomPrefix|..n] == digits && DecimalValue(name[|RoomPrefix|..n]) == now
      && AllBase36(name[n..])
      && (random36 != "0" ==> name[n..] == random36[2..Min(8, |random36|)])
      && RoomUrl(name) == "https://8x8.vc/" + name
  {
    var digits := NatToDecimal(now);
    var suffix := Substr(random36, 2, 6);
    RandomSuffix(random36, 6);
    DecimalRoundTrip(now);
    var name := RoomName(now, random36);
    var n := |RoomPrefix| + |digits|;
    assert name == RoomPrefix + digits + suffix;
    assert name[..|RoomPrefix|] == RoomPrefix;
    assert name[|RoomPrefix|..n] == digits;
    assert name[n..] == suffix;
  }
}
