/** ZeroMQ topic names and published frames (pubsub/transport/zmq.go). Topics are URNs
    (section 2 of RFC 2141): a prefix, the group name, and for a dedicated queue the two labels. */
module Topics {
  import opened Common
  import GroupStore

  const NID := "didcomm-queue"

  /** urn:didcomm-queue: */
  const PREFIX := "urn" + [':'] + NID + [':']

  function DataTopic(mode: string, topic: string, pub: string, sub: string): string {
    if mode == GroupStore.SINGLE_QUEUE then PREFIX + topic + [':'] + "data"
    else PREFIX + topic + [':'] + "data" + [':'] + pub + [':'] + sub
  }

  function StateTopic(topic: string): string {
    PREFIX + topic + [':'] + "state"
  }

  /** The names on the wire. */
  lemma Names(topic: string, pub: string, sub: string)
    ensures DataTopic(GroupStore.SINGLE_QUEUE, topic, pub, sub) == "urn:didcomm-queue:" + topic + ":data"
    ensures DataTopic(GroupStore.MULTIPLE_QUEUE, topic, pub, sub) ==
            "urn:didcomm-queue:" + topic + ":data:" + pub + ":" + sub
    ensures StateTopic(topic) == "urn:didcomm-queue:" + topic + ":state"
  {
    assert PREFIX == "urn:didcomm-queue:";
    assert PREFIX + topic + [':'] + "data" == "urn:didcomm-queue:" + topic + ":data";
    assert PREFIX + topic + [':'] + "state" == "urn:didcomm-queue:" + topic + ":state";
  }

  /** strings.Split for a one-character separator. */
  function Split(s: string, sep: char): (parts: seq<string>)
    ensures |parts| >= 1
    ensures forall i :: 0 <= i < |parts| ==> sep !in parts[i]
  {
    if |s| == 0 then [""]
    else
      var rest := Split(s[1..], sep);
      if s[0] == sep then [""] + rest
      else [[s[0]] + rest[0]] + rest[1..]
  }

  function Join(parts: seq<string>, sep: char): string
    requires |parts| >= 1
  {
    if |parts| == 1 then parts[0] else parts[0] + [sep] + Join(parts[1..], sep)
  }

  function GroupNameByDataTopic(zmqTopic: string): string {
    var parts := Split(zmqTopic, ':');
    if |parts| < 3 then "" else parts[2]
  }

  /** strings.SplitN(msg, " ", 2) */
  function SplitFrame(msg: string): (frames: seq<string>)
    ensures 1 <= |frames| <= 2
    ensures ' ' !in frames[0]
  {
    if |msg| == 0 then [""]
    else if msg[0] == ' ' then ["", msg[1..]]
    else
      var rest := SplitFrame(msg[1..]);
      [[msg[0]] + rest[0]] + rest[1..]
  }

  function Frame(zmqTopic: string, data: string): string {
    zmqTopic + " " + data
  }

  lemma {:induction false} SplitFirst(part: string, rest: string, sep: char)
    requires sep !in part
    ensures Split(part + [sep] + rest, sep) == [part] + Split(rest, sep)
  {
    var s := part + [sep] + rest;
    if |part| == 0 {
      assert s[1..] == rest;
    } else {
      assert s[1..] == part[1..] + [sep] + rest;
      SplitFirst(part[1..], rest, sep);
      assert [part[0]] + part[1..] == part;
    }
  }

  lemma {:induction false} SplitLast(part: string, sep: char)
    requires sep !in part
    ensures Split(part, sep) == [part]
  {
    if |part| > 0 {
      SplitLast(part[1..], sep);
      assert [part[0]] + part[1..] == part;
    }
  }

  lemma {:induction false} SplitUndoesJoin(parts: seq<string>, sep: char)
    requires |parts| >= 1 && forall i :: 0 <= i < |parts| ==> sep !in parts[i]
    ensures Split(Join(parts, sep), sep) == parts
  {
    if |parts| == 1 {
      SplitLast(parts[0], sep);
    } else {
      SplitUndoesJoin(parts[1..], sep);
      SplitFirst(parts[0], Join(parts[1..], sep), sep);
    }
  }

  /** Whatever the parts, the name is the third of them, and empty if there is none. */
  lemma {:induction false} GroupNameOfParts(parts: seq<string>)
    requires |parts| >= 1 && forall i :: 0 <= i < |parts| ==> ':' !in parts[i]
    ensures GroupNameByDataTopic(Join(parts, ':')) == if |parts| >= 3 then parts[2] else ""
  {
    SplitUndoesJoin(parts, ':');
  }

  lemma GroupNameIsThirdPart(urn: string, nid: string, topic: string, rest: string)
    requires ':' !in urn && ':' !in nid && ':' !in topic
    ensures GroupNameByDataTopic(urn + [':'] + nid + [':'] + topic + [':'] + rest) == topic
  {
    SplitFirst(topic, rest, ':');
    SplitFirst(nid, topic + [':'] + rest, ':');
    SplitFirst(urn, nid + [':'] + (topic + [':'] + rest), ':');
    assert urn + [':'] + nid + [':'] + topic + [':'] + rest == urn + [':'] + (nid + [':'] + (topic + [':'] + rest));
  }

  lemma Regroup(start: string, mid: string, end: string, pub: string, sub: string)
    requires end == [':'] + pub + [':'] + sub
    ensures start + mid + [':'] + pub + [':'] + sub == start + (mid + end)
  {}

  /** The group name is recovered from a data topic exactly when it contains no colon. */
  lemma GroupNameRoundTrip(mode: string, topic: string, pub: string, sub: string)
    ensures GroupNameByDataTopic(DataTopic(mode, topic, pub, sub)) == topic <==> ':' !in topic
  {
    if ':' !in topic {
      if mode == GroupStore.SINGLE_QUEUE {
        GroupNameIsThirdPart("urn", NID, topic, "data");
      } else {
        Regroup(PREFIX + topic + [':'], "data", [':'] + pub + [':'] + sub, pub, sub);
        GroupNameIsThirdPart("urn", NID, topic, "data" + ([':'] + pub + [':'] + sub));
      }
    }
  }

  /** A receiver gets back topic and payload of a published frame, whatever the payload,
      exactly when the zmq topic contains no space. */
  lemma {:induction false} FrameRoundTrip(zmqTopic: string, data: string)
    ensures SplitFrame(Frame(zmqTopic, data)) == [zmqTopic, data] <==> ' ' !in zmqTopic
  {
    if ' ' in zmqTopic {
      assert SplitFrame(Frame(zmqTopic, data))[0] != zmqTopic;
    } else if |zmqTopic| == 0 {
      assert Frame(zmqTopic, data)[1..] == data;
    } else {
      assert Frame(zmqTopic, data)[1..] == Frame(zmqTopic[1..], data);
      FrameRoundTrip(zmqTopic[1..], data);
      assert [zmqTopic[0]] + zmqTopic[1..] == zmqTopic;
    }
  }

  lemma {:induction false} JoinSix(a: string, b: string, c: string, d: string, e: string, f: string, sep: char)
    ensures Join([a, b, c, d, e, f], sep) == a + [sep] + b + [sep] + c + [sep] + d + [sep] + e + [sep] + f
  {
    var parts := [a, b, c, d, e, f];
    assert parts[1..] == [b, c, d, e, f];
    assert parts[1..][1..] == [c, d, e, f];
    assert [c, d, e, f][1..] == [d, e, f];
    assert [d, e, f][1..] == [e, f];
    assert [e, f][1..] == [f];
    assert Join([f], sep) == f;
    assert Join([e, f], sep) == e + [sep] + f;
    assert Join([d, e, f], sep) == d + [sep] + e + [sep] + f;
    assert Join([c, d, e, f], sep) == c + [sep] + d + [sep] + e + [sep] + f;
    assert Join([b, c, d, e, f], sep) == b + [sep] + c + [sep] + d + [sep] + e + [sep] + f;
  }

  predicate PlainLabel(l: string) {
    ':' !in l && ' ' !in l
  }

  /** Dedicated queues of different (group, publisher, subscriber) triples never share a topic. */
  lemma DataTopicInjective(mode: string, t: string, p: string, s: string, t': string, p': string, s': string)
    requires mode != GroupStore.SINGLE_QUEUE
    requires ':' !in t && ':' !in p && ':' !in s && ':' !in t' && ':' !in p' && ':' !in s'
    requires DataTopic(mode, t, p, s) == DataTopic(mode, t', p', s')
    ensures t == t' && p == p' && s == s'
  {
    var a, b := ["urn", NID, t, "data", p, s], ["urn", NID, t', "data", p', s'];
    JoinSix("urn", NID, t, "data", p, s, ':');
    JoinSix("urn", NID, t', "data", p', s', ':');
    SplitUndoesJoin(a, ':');
    SplitUndoesJoin(b, ':');
    assert a == b;
    assert a[2] == b[2] && a[4] == b[4] && a[5] == b[5];
  }

  /** A SUB socket accepts a frame when one of its filters is a prefix of it. */
  predicate Accepts(filters: multiset<string>, frame: string) {
    exists f :: f in filters && f <= frame
  }
}
