/** Lamport timestamps per topic (pubsub/syncer.go). The clock is an argument; timestamps are
    unbounded integers, and Lamport.StaysBelow gives the condition under which an int64 suffices. */
module Syncer {
  import opened Common

  datatype Ts = Ts(senderId: int, lampTs: int)

  datatype GroupMsg = GroupMsg(ts: Ts, data: Bytes)

  /** JSON of the ordering envelope; `data` travels base64-encoded inside it, so it always shrinks on
      the way out. */
  datatype Envelope = Envelope(enc: GroupMsg -> Bytes, dec: Bytes -> Option<GroupMsg>) {
    ghost predicate Valid() {
      && (forall m :: dec(enc(m)) == Some(m))
      && (forall b :: dec(b).Some? ==> |dec(b).value.data| < |b|)
    }
  }

  /** The stored value after a send at clock reading `now`. */
  function Tick(stored: int, now: int): (r: int)
    ensures r >= stored && r >= now
    ensures r > stored <==> now != stored
  {
    if now < stored then stored + 1 else now
  }

  /** ... and it is the least such value. */
  lemma TickLeast(stored: int, now: int, v: int)
    requires v >= stored && v >= now && (v > stored <==> now != stored)
    ensures Tick(stored, now) <= v
  {}

  function Merge(stored: Ts, received: Ts): (r: Ts)
    ensures r.lampTs == if stored.lampTs <= received.lampTs then received.lampTs else stored.lampTs
    ensures r == received || r == stored
  {
    if stored.lampTs <= received.lampTs then received else stored
  }

  function Wrap(c: Envelope, stored: Option<Ts>, now: int, data: Bytes): Bytes {
    if stored.None? then data
    else c.enc(GroupMsg(stored.value.(lampTs := Tick(stored.value.lampTs, now)), data))
  }

  function Unwrap(c: Envelope, stored: Option<Ts>, msg: Bytes): Result<Bytes> {
    if stored.None? then Ok(msg)
    else match c.dec(msg)
      case None => Err
      case Some(gm) => Ok(gm.data)
  }

  ghost function Stored(tsMap: map<string, Ts>, topic: string): Option<Ts> {
    if topic in tsMap then Some(tsMap[topic]) else None
  }

  /** The stored timestamp after a send, and after receiving msg. */
  function AfterSend(stored: Option<Ts>, now: int): Option<Ts> {
    if stored.None? then None else Some(stored.value.(lampTs := Tick(stored.value.lampTs, now)))
  }

  function AfterReceive(c: Envelope, stored: Option<Ts>, msg: Bytes): Option<Ts> {
    if stored.None? || c.dec(msg).None? then stored else Some(Merge(stored.value, c.dec(msg).value.ts))
  }

  class Syncer {
    const c: Envelope
    const id: int
    var tsMap: map<string, Ts>

    constructor (c: Envelope, id: int)
      ensures this.c == c && this.id == id && tsMap == map[]
    {
      this.c := c;
      this.id := id;
      tsMap := map[];
    }

    method Init(topic: string, now: int)
      modifies this
      ensures tsMap - {topic} == old(tsMap) - {topic}
      ensures tsMap == old(tsMap)[topic := Ts(id, now)]
    {
      tsMap := tsMap[topic := Ts(id, now)];
    }

    /** Unpacks the content of a received message, adopting the sender's timestamp, sender id included,
        when it is not behind the stored one. */
    method Parse(topic: string, msg: Bytes) returns (r: Result<Bytes>)
      modifies this
      ensures tsMap - {topic} == old(tsMap) - {topic}
      ensures r == Unwrap(c, Stored(old(tsMap), topic), msg)
      ensures Stored(tsMap, topic) == AfterReceive(c, Stored(old(tsMap), topic), msg)
    {
      if topic !in tsMap {
        return Ok(msg);
      }
      var gm := c.dec(msg);
      if gm.None? {
        return Err;
      }
      if tsMap[topic].lampTs <= gm.value.ts.lampTs {
        tsMap := tsMap[topic := gm.value.ts];
      }
      return Ok(gm.value.data);
    }

    method Message(topic: string, data: Bytes, now: int) returns (msg: Bytes)
      modifies this
      ensures tsMap - {topic} == old(tsMap) - {topic}
      ensures msg == Wrap(c, Stored(old(tsMap), topic), now, data)
      ensures Stored(tsMap, topic) == AfterSend(Stored(old(tsMap), topic), now)
    {
      if topic !in tsMap {
        return data;
      }
      var ts := tsMap[topic];
      if now < ts.lampTs {
        ts := ts.(lampTs := ts.lampTs + 1);
      } else {
        ts := ts.(lampTs := now);
      }
      tsMap := tsMap[topic := ts];
      return c.enc(GroupMsg(ts, data));
    }
  }

  /** A receiver gets back the bytes the sender passed in exactly when both sides order the topic
      or neither does. */
  lemma EnvelopesAgree(c: Envelope, sender: Option<Ts>, receiver: Option<Ts>, now: int, data: Bytes)
    requires c.Valid()
    ensures Unwrap(c, receiver, Wrap(c, sender, now, data)) == Ok(data) <==> (sender.Some? <==> receiver.Some?)
  {
    if sender.Some? {
      var gm := GroupMsg(sender.value.(lampTs := Tick(sender.value.lampTs, now)), data);
      assert c.dec(c.enc(gm)) == Some(gm);
      assert |data| < |c.enc(gm)|;
    }
  }
}
