/** The topics of one device. */
module DeviceTopics {
  // cloud/mqtt-access.ts and cloud/device_id.ts.

  import opened Common
  import opened MqttTopics

  type DeviceId = string

  datatype Kind = Lime | Message | Provisioning

  datatype DeviceTopic = DeviceTopic(kind: Kind, deviceId: DeviceId)

  const MAX_TOPIC_BYTES := 1024
  const MAX_DEVICE_ID_LENGTH := 128

  predicate SafeChar(c: char) {
    'A' <= c <= 'Z' || 'a' <= c <= 'z' || '0' <= c <= '9' || c in ['.', '_', ':', '-']
  }

  predicate SafeDeviceId(id: string) {
    0 < |id| <= MAX_DEVICE_ID_LENGTH && forall i :: 0 <= i < |id| ==> SafeChar(id[i])
  }

  predicate PlainTopic(topic: string) {
    topic != "" && ByteLength(topic) <= MAX_TOPIC_BYTES && Plain(topic) && '\0' !in topic
  }

  /** The levels before the device id. */
  function Prefix(kind: Kind): seq<string> {
    match kind
    case Lime => ["lime", "devices"]
    case Message => ["clip", "message", "devices"]
    case Provisioning => ["clip", "provisioning", "devices"]
  }

  /** The source's regular expressions: exactly the prefix and one more, safe level. */
  function AfterPrefix(levels: seq<string>, kind: Kind): Option<DeviceTopic>
    requires levels != []
  {
    var id := levels[|levels| - 1];
    if levels == Prefix(kind) + [id] && SafeDeviceId(id) then Some(DeviceTopic(kind, id)) else None
  }

  /** The levels from the last "clip" that has levels on both sides, or all of them when there is none. */
  function FromLastClip(levels: seq<string>): seq<string>
    requires levels != []
  {
    FromClipBefore(levels, |levels| - 1)
  }

  function FromClipBefore(levels: seq<string>, end: nat): (r: seq<string>)
    requires end < |levels|
    ensures r != []
  {
    if end <= 1 then levels
    else if levels[end - 1] == "clip" then levels[end - 1..]
    else FromClipBefore(levels, end - 1)
  }

  function ParseDeviceTopic(topic: string): Option<DeviceTopic> {
    if !PlainTopic(topic) then None
    else
      var levels := Levels(topic);
      var lime := AfterPrefix(levels, Lime);
      if lime.Some? then lime
      else
        var normalized := if |levels| > 1 && levels[0] == "clip" then levels else FromLastClip(levels);
        var message := AfterPrefix(normalized, Message);
        if message.Some? then message else AfterPrefix(normalized, Provisioning)
  }

  /** An exact device name, which other levels may lead up to unless it starts with "lime" or the topic with "clip". */
  ghost predicate Names(levels: seq<string>, kind: Kind, id: DeviceId) {
    var name := Prefix(kind) + [id];
    if kind.Lime? || (levels != [] && levels[0] == "clip") then levels == name
    else |levels| > |name| && levels[|levels| - |name|..] == name
  }

  /** Parsing accepts exactly the plain topics that name one safe device. */
  lemma ParsesExactly(topic: string, kind: Kind, id: DeviceId)
    ensures ParseDeviceTopic(topic) == Some(DeviceTopic(kind, id))
       <==> PlainTopic(topic) && SafeDeviceId(id) && Names(Levels(topic), kind, id)
  {
    var levels := Levels(topic);
    var normalized := if |levels| > 1 && levels[0] == "clip" then levels else FromLastClip(levels);
    AfterPrefixIff(levels, Lime, id);
    AfterPrefixIff(normalized, Message, id);
    AfterPrefixIff(normalized, Provisioning, id);
    if kind.Lime? {
    } else if levels[0] == "clip" {
      LastClipIsLast(levels, |levels| - 1);
    } else {
      NormalizedName(levels, kind, id);
    }
  }

  lemma AfterPrefixIff(levels: seq<string>, kind: Kind, id: DeviceId)
    requires levels != []
    ensures AfterPrefix(levels, kind) == Some(DeviceTopic(kind, id)) <==> levels == Prefix(kind) + [id] && SafeDeviceId(id)
    ensures AfterPrefix(levels, kind).Some? ==> |levels| == |Prefix(kind)| + 1 && levels[1] == (Prefix(kind) + [id])[1]
  {
    assert (Prefix(kind) + [id])[|Prefix(kind)|] == id;
  }

  lemma NormalizedName(levels: seq<string>, kind: Kind, id: DeviceId)
    requires !kind.Lime? && levels != [] && levels[0] != "clip"
    ensures FromLastClip(levels) == Prefix(kind) + [id] <==> Names(levels, kind, id)
  {
    LastClipIsLast(levels, |levels| - 1);
    if |levels| > 4 && levels[|levels| - 4..] == Prefix(kind) + [id] {
      NameFollowsLastClip(levels, kind, id);
    }
    assert (Prefix(kind) + [id])[0] == "clip";
  }

  lemma NameFollowsLastClip(levels: seq<string>, kind: Kind, id: DeviceId)
    requires !kind.Lime? && |levels| > 4 && levels[|levels| - 4..] == Prefix(kind) + [id]
    ensures FromLastClip(levels) == Prefix(kind) + [id]
  {
    var at := |levels| - 4;
    var name := levels[at..];
    assert levels[at] == name[0] == "clip";
    assert levels[at + 1] == name[1] && |name[1]| > 4;
    assert levels[at + 2] == name[2] && |name[2]| > 4;
    LastClipIsLast(levels, |levels| - 1);
    var start := |levels| - |FromLastClip(levels)|;
    assert levels[at] == "clip";
    assert start == at;
  }

  lemma {:induction false} LastClipIsLast(levels: seq<string>, end: nat)
    requires end < |levels|
    ensures var r := FromClipBefore(levels, end);
            if forall i :: 0 < i < end ==> levels[i] != "clip" then r == levels
            else
              && |levels| - end < |r| < |levels| && r == levels[|levels| - |r|..] && r[0] == "clip"
              && forall i :: |levels| - |r| < i < end ==> levels[i] != "clip"
  {
    if end > 1 && levels[end - 1] != "clip" {
      LastClipIsLast(levels, end - 1);
    }
  }

  lemma ParsedIsSafe(topic: string)
    ensures ParseDeviceTopic(topic).Some? ==> SafeDeviceId(ParseDeviceTopic(topic).value.deviceId)
  {
  }

  // ---------------------------------------------------------------- the topics themselves

  predicate TopicChar(c: char) { SafeChar(c) || c == '/' }

  lemma {:induction false} TopicIsPlain(s: string)
    requires forall i :: 0 <= i < |s| ==> TopicChar(s[i])
    ensures ByteLength(s) == |s| && Plain(s) && '\0' !in s
  {
    if s != "" {
      assert forall i :: 0 <= i < |s[1..]| ==> s[1..][i] == s[i + 1];
      TopicIsPlain(s[1..]);
      assert s == [s[0]] + s[1..];
    }
  }

  lemma JoinMore(first: string, rest: seq<string>)
    requires rest != []
    ensures Join([first] + rest) == first + "/" + Join(rest)
  {
    assert ([first] + rest)[1..] == rest;
  }

  lemma SlashesRegroup(a: string, b: string, c: string)
    ensures a + "/" + (b + "/" + c) == a + "/" + b + "/" + c
  {
  }

  lemma JoinThree(a: string, b: string, id: string)
    ensures Join([a, b, id]) == a + "/" + b + "/" + id
  {
    JoinMore(b, [id]);
    JoinMore(a, [b, id]);
    assert [a] + [b, id] == [a, b, id] && [b] + [id] == [b, id];
    assert Join([id]) == id;
    SlashesRegroup(a, b, id);
  }

  lemma ThreeLevels(a: string, b: string, id: string)
    requires '/' !in a && '/' !in b && '/' !in id
    ensures Levels(a + "/" + b + "/" + id) == [a, b, id]
  {
    JoinThree(a, b, id);
    JoinLevels([a, b, id]);
  }

  lemma FourLevels(a: string, b: string, c: string, id: string)
    requires '/' !in a && '/' !in b && '/' !in c && '/' !in id
    ensures Levels(a + "/" + b + "/" + c + "/" + id) == [a, b, c, id]
  {
    JoinThree(b, c, id);
    JoinMore(a, [b, c, id]);
    assert [a] + [b, c, id] == [a, b, c, id];
    SlashesRegroup(b, c, id);
    SlashesRegroup(a, b, c + "/" + id);
    SlashesRegroup(a + "/" + b, c, id);
    JoinLevels([a, b, c, id]);
  }

  lemma PlainWithId(prefix: string, id: string)
    requires SafeDeviceId(id) && |prefix| <= 100 && prefix != "" && forall i :: 0 <= i < |prefix| ==> TopicChar(prefix[i])
    ensures PlainTopic(prefix + id)
  {
    TopicIsPlain(prefix + id);
  }

  /** The three topics of a device, as they are written, are parsed to it: at the broker, and at the appliance on its own. */
  lemma OwnTopics(id: string)
    requires SafeDeviceId(id)
    ensures ParseDeviceTopic("lime" + "/" + "devices" + "/" + id) == Some(DeviceTopic(Lime, id))
    ensures ParseDeviceTopic("clip" + "/" + "message" + "/" + "devices" + "/" + id) == Some(DeviceTopic(Message, id))
    ensures ParseDeviceTopic("clip" + "/" + "provisioning" + "/" + "devices" + "/" + id) == Some(DeviceTopic(Provisioning, id))
  {
    assert '/' !in id;
    LimeTopic(id);
    ClipTopic("message", Message, id);
    ClipTopic("provisioning", Provisioning, id);
  }

  lemma LimeTopic(id: string)
    requires SafeDeviceId(id) && '/' !in id
    ensures ParseDeviceTopic("lime" + "/" + "devices" + "/" + id) == Some(DeviceTopic(Lime, id))
  {
    var prefix := "lime" + "/" + "devices" + "/";
    assert prefix + id == "lime" + "/" + "devices" + "/" + id;
    PlainWithId(prefix, id);
    ThreeLevels("lime", "devices", id);
    ParsesExactly(prefix + id, Lime, id);
  }

  lemma ClipTopic(middle: string, kind: Kind, id: string)
    requires SafeDeviceId(id) && '/' !in id
    requires (middle == "message" && kind == Message) || (middle == "provisioning" && kind == Provisioning)
    ensures ParseDeviceTopic("clip" + "/" + middle + "/" + "devices" + "/" + id) == Some(DeviceTopic(kind, id))
  {
    var prefix := "clip" + "/" + middle + "/" + "devices" + "/";
    assert prefix + id == "clip" + "/" + middle + "/" + "devices" + "/" + id;
    PlainWithId(prefix, id);
    FourLevels("clip", middle, "devices", id);
    ParsesExactly(prefix + id, kind, id);
  }
}
