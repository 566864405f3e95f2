/** The subscriber store (pubsub/stores/subscriber.go): per topic, the key each message to a
    subscriber is packed for. */
module Subscribers {
  import opened Common

  class Store {
    var subs: map<string, map<string, Bytes>>

    constructor ()
      ensures subs == map[]
    {
      subs := map[];
    }

    /** What is kept for one topic. */
    function At(topic: string): map<string, Bytes>
      reads this
    {
      if topic in subs then subs[topic] else map[]
    }

    method QueryByTopic(topic: string) returns (r: Result<map<string, Bytes>>)
      ensures r == if topic in subs then Ok(subs[topic]) else Err
    {
      if topic !in subs {
        return Err;
      }
      return Ok(subs[topic]);
    }

    method Add(topic: string, sub: string, key: Bytes)
      modifies this
      ensures topic in subs && At(topic) == old(At(topic))[sub := key]
      ensures subs - {topic} == old(subs) - {topic}
    {
      if topic !in subs {
        subs := subs[topic := map[]];
      }
      subs := subs[topic := subs[topic][sub := key]];
    }

    method Delete(topic: string, name: string)
      modifies this
      ensures At(topic) == old(At(topic)) - {name}
      ensures subs.Keys == old(subs).Keys && subs - {topic} == old(subs) - {topic}
    {
      if topic in subs {
        subs := subs[topic := subs[topic] - {name}];
      }
    }

    method DeleteTopic(topic: string)
      modifies this
      ensures topic !in subs && At(topic) == map[]
      ensures subs - {topic} == old(subs) - {topic}
    {
      subs := subs - {topic};
    }
  }
}
