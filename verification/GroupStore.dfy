/** The group store with its cached checksum (pubsub/stores/group.go). Each method holds the store's
    lock for its whole body, so it is one atomic step. */
module GroupStore {
  import opened Common
  import opened Validator

  const SINGLE_QUEUE := "single-queue"
  const MULTIPLE_QUEUE := "multiple-queue"

  predicate ValidMode(mode: string) {
    mode == SINGLE_QUEUE || mode == MULTIPLE_QUEUE
  }

  datatype Params = Params(orderEnabled: bool, joinConsistent: bool, mode: string)

  datatype Group = Group(members: map<string, Member>, checksum: Bytes, params: Option<Params>)

  const EMPTY_GROUP := Group(map[], [], None)

  datatype Outcome = Done | Failed | Panicked

  /** members after the assignments `Members[m.Label] = m`, in list order. */
  function Put(members: map<string, Member>, mems: seq<Member>): map<string, Member> {
    if |mems| == 0 then members
    else Put(members, mems[..|mems| - 1])[mems[|mems| - 1].name := mems[|mems| - 1]]
  }

  lemma {:induction false} PutKeyed(members: map<string, Member>, mems: seq<Member>)
    requires Keyed(members)
    ensures Keyed(Put(members, mems))
    ensures |mems| > 0 ==> Put(members, mems) != map[]
  {
    if |mems| > 0 {
      PutKeyed(members, mems[..|mems| - 1]);
      assert mems[|mems| - 1].name in Put(members, mems);
    }
  }

  ghost function Topic(groups: map<string, Group>, topic: string): Group {
    if topic in groups then groups[topic] else EMPTY_GROUP
  }

  /** Map keys are the members' labels, and a non-empty group's cached checksum is current. */
  ghost predicate Current(h: Hasher, g: Group) {
    && Keyed(g.members)
    && (g.members != map[] ==> g.checksum == Checksum(h, g.members))
  }

  ghost function WithMembers(h: Hasher, g: Group, members: map<string, Member>): Group {
    g.(members := members, checksum := Checksum(h, members))
  }

  class Store {
    const h: Hasher
    var groups: map<string, Group>

    ghost predicate Valid()
      reads this
    {
      h.Valid() && forall t :: t in groups ==> Current(h, groups[t])
    }

    constructor (h: Hasher)
      requires h.Valid()
      ensures Valid() && this.h == h && groups == map[]
    {
      this.h := h;
      groups := map[];
    }

    /** The members of a group in an arbitrary order, as ranging over the Go map delivers them. */
    method Membrs(topic: string) returns (m: seq<Member>)
      requires Valid()
      ensures Enumerates(m, Topic(groups, topic).members)
    {
      m := [];
      if topic !in groups {
        return;
      }
      var members := groups[topic].members;
      var todo := members.Keys;
      while todo != {}
        invariant todo <= members.Keys
        invariant DistinctLabels(m)
        invariant forall x :: x in m ==> x.name in members && x.name !in todo && members[x.name] == x
        invariant forall k :: k in members && k !in todo ==> members[k] in m
        decreases |todo|
      {
        var k :| k in todo;
        assert members[k].name == k;
        m := m + [members[k]];
        todo := todo - {k};
      }
    }

    method AddMembrs(topic: string, mems: seq<Member>) returns (r: Outcome)
      requires Valid()
      modifies this`groups
      ensures groups - {topic} == old(groups) - {topic}
      ensures Valid()
      ensures r.Panicked? <==> |mems| == 0 && Topic(old(groups), topic).members == map[]
      ensures r.Panicked? ==> groups == old(groups)
      ensures r.Panicked? || r.Done?
      ensures r.Done? ==>
                groups == old(groups)[topic :=
                  WithMembers(h, Topic(old(groups), topic), Put(Topic(old(groups), topic).members, mems))]
    {
      if |mems| == 0 && topic !in groups {
        return Panicked;
      }
      PutKeyed(Topic(groups, topic).members, mems);
      StoreAll(topic, mems);
      r := Refresh(topic);
    }

    /** The loop of AddMembrs, creating the group on the first member. */
    method StoreAll(topic: string, mems: seq<Member>)
      modifies this`groups
      ensures |mems| > 0 || topic in old(groups) ==>
                groups == old(groups)[topic :=
                  Topic(old(groups), topic).(members := Put(Topic(old(groups), topic).members, mems))]
      ensures |mems| == 0 ==> groups == old(groups)
    {
      ghost var before := Topic(groups, topic);
      for i := 0 to |mems|
        invariant i > 0 || topic in old(groups) ==>
                    groups == old(groups)[topic := before.(members := Put(before.members, mems[..i]))]
        invariant i == 0 ==> groups == old(groups)
      {
        if topic !in groups {
          groups := groups[topic := EMPTY_GROUP];
        }
        assert mems[..i + 1][..i] == mems[..i];
        groups := groups[topic := groups[topic].(members := groups[topic].members[mems[i].name := mems[i]])];
      }
      assert mems[..|mems|] == mems;
    }

    method DeleteMembr(topic: string, membr: string) returns (r: Outcome)
      requires Valid()
      modifies this`groups
      ensures groups - {topic} == old(groups) - {topic}
      ensures Valid()
      ensures r.Panicked? <==> topic in old(groups) && old(groups)[topic].members - {membr} == map[]
      ensures topic !in old(groups) ==> r.Done? && groups == old(groups)
      ensures r.Panicked? || r.Done?
      ensures topic in old(groups) && r.Done? ==>
                groups == old(groups)[topic := WithMembers(h, old(groups)[topic], old(groups)[topic].members - {membr})]
    {
      if topic !in groups {
        return Done;
      }
      groups := groups[topic := groups[topic].(members := groups[topic].members - {membr})];
      r := Refresh(topic);
    }

    /** The tail shared by both updates: collect the members in whatever order and cache their checksum. */
    method Refresh(topic: string) returns (r: Outcome)
      requires h.Valid() && topic in groups && Keyed(groups[topic].members)
      requires forall t :: t in groups && t != topic ==> Current(h, groups[t])
      modifies this`groups
      ensures Valid()
      ensures r.Panicked? <==> old(groups)[topic].members == map[]
      ensures r.Panicked? ==> groups == old(groups)
      ensures r.Panicked? || r.Done?
      ensures r.Done? ==>
                groups == old(groups)[topic := WithMembers(h, old(groups)[topic], old(groups)[topic].members)]
    {
      var members := groups[topic].members;
      var gm := [];
      var todo := members.Keys;
      while todo != {}
        invariant todo <= members.Keys
        invariant DistinctLabels(gm)
        invariant forall x :: x in gm ==> x.name in members && x.name !in todo && members[x.name] == x
        invariant forall k :: k in members && k !in todo ==> members[k] in gm
        decreases |todo|
      {
        var k :| k in todo;
        assert members[k].name == k;
        gm := gm + [members[k]];
        todo := todo - {k};
      }
      EnumerationIsCanonical(gm, members);
      var hash := Calculate(h, gm);
      if hash.None? {
        return Panicked;
      }
      groups := groups[topic := groups[topic].(checksum := hash.value)];
      return Done;
    }

    method DeleteTopic(topic: string)
      requires Valid()
      modifies this`groups
      ensures groups - {topic} == old(groups) - {topic}
      ensures Valid() && groups == old(groups) - {topic}
    {
      groups := groups - {topic};
    }

    /** A scan over the stored members; since keys are labels it finds exactly the entry under that key. */
    method Membr(topic: string, name: string) returns (m: Option<Member>)
      requires Valid()
      ensures m == if name in Topic(groups, topic).members then Some(Topic(groups, topic).members[name]) else None
    {
      if topic !in groups {
        return None;
      }
      var members := groups[topic].members;
      var todo := members.Keys;
      while todo != {}
        invariant todo <= members.Keys
        invariant forall k :: k in members && k !in todo ==> k != name
        decreases |todo|
      {
        var k :| k in todo;
        if members[k].name == name {
          return Some(members[k]);
        }
        todo := todo - {k};
      }
      return None;
    }

    method SetParams(topic: string, gp: Params) returns (r: Outcome)
      requires Valid()
      modifies this`groups
      ensures groups - {topic} == old(groups) - {topic}
      ensures Valid()
      ensures r == if gp.mode == SINGLE_QUEUE || gp.mode == MULTIPLE_QUEUE then Done else Failed
      ensures groups == if r.Done?
                        then old(groups)[topic := Topic(old(groups), topic).(params := Some(gp))]
                        else old(groups)
    {
      if !ValidMode(gp.mode) {
        return Failed;
      }
      if topic !in groups {
        groups := groups[topic := EMPTY_GROUP];
      }
      groups := groups[topic := groups[topic].(params := Some(gp))];
      return Done;
    }
  }

  // ---- the cached checksum does not depend on how the view was reached ----

  datatype Update = Add(mems: seq<Member>) | Delete(name: string)

  ghost function Apply(h: Hasher, g: Group, u: Update): Group {
    match u
    case Add(mems) => WithMembers(h, g, Put(g.members, mems))
    case Delete(name) => WithMembers(h, g, g.members - {name})
  }

  /** A run of updates none of which panics: the view is never empty after one. */
  ghost predicate Runs(h: Hasher, g: Group, us: seq<Update>)
    decreases |us|
  {
    |us| > 0 ==> Apply(h, g, us[0]).members != map[] && Runs(h, Apply(h, g, us[0]), us[1..])
  }

  ghost function Replay(h: Hasher, g: Group, us: seq<Update>): Group
    decreases |us|
  {
    if |us| == 0 then g else Replay(h, Apply(h, g, us[0]), us[1..])
  }

  lemma {:induction false} ReplayCurrent(h: Hasher, g: Group, us: seq<Update>)
    requires Current(h, g) && Runs(h, g, us)
    ensures Current(h, Replay(h, g, us))
    decreases |us|
  {
    if |us| > 0 {
      if us[0].Add? {
        PutKeyed(g.members, us[0].mems);
      }
      ReplayCurrent(h, Apply(h, g, us[0]), us[1..]);
    }
  }

  /** Two update histories that end in the same non-empty view cache the same checksum, and, unless
      SHA-256 collides on the two final views, only such histories do. */
  lemma {:induction false} HistoryIndependence(h: Hasher, f: Group, us: seq<Update>, g: Group, vs: seq<Update>)
    requires h.Valid() && Current(h, f) && Current(h, g)
    requires Runs(h, f, us) && Runs(h, g, vs)
    requires Replay(h, f, us).members != map[] && Replay(h, g, vs).members != map[]
    requires h.Separates(Canonical(Replay(h, f, us).members), Canonical(Replay(h, g, vs).members))
    ensures Replay(h, f, us).checksum == Replay(h, g, vs).checksum
       <==> Replay(h, f, us).members == Replay(h, g, vs).members
  {
    ReplayCurrent(h, f, us);
    ReplayCurrent(h, g, vs);
    ChecksumIdentifiesView(h, Replay(h, f, us).members, Replay(h, g, vs).members);
  }

  ghost function Lookup(m: map<string, Member>, k: string): Option<Member> {
    if k in m then Some(m[k]) else None
  }

  lemma {:induction false} PutMisses(members: map<string, Member>, mems: seq<Member>, k: string)
    requires k !in Labels(mems)
    ensures Lookup(Put(members, mems), k) == Lookup(members, k)
  {
    if |mems| > 0 {
      var init, last := mems[..|mems| - 1], mems[|mems| - 1];
      assert Labels(mems) == Labels(init) + [last.name];
      PutMisses(members, init, k);
    }
  }

  lemma {:induction false} PutHits(members: map<string, Member>, mems: seq<Member>, x: Member)
    requires DistinctLabels(mems) && x in mems
    ensures Lookup(Put(members, mems), x.name) == Some(x)
  {
    var init, last := mems[..|mems| - 1], mems[|mems| - 1];
    assert mems == init + [last];
    if x != last {
      PutHits(members, init, x);
    }
  }

  lemma {:induction false} PutAgree(members: map<string, Member>, a: seq<Member>, b: seq<Member>, k: string)
    requires DistinctLabels(a) && DistinctLabels(b)
    requires forall m :: m in a <==> m in b
    ensures Lookup(Put(members, a), k) == Lookup(Put(members, b), k)
    ensures Lookup(Put(Put(members, a), b), k) == Lookup(Put(members, a), k)
  {
    if k in Labels(a) {
      var i :| 0 <= i < |a| && Labels(a)[i] == k;
      PutHits(members, a, a[i]);
      PutHits(members, b, a[i]);
      PutHits(Put(members, a), b, a[i]);
    } else {
      if k in Labels(b) { LabelOccurs(b, a, k); }
      PutMisses(members, a, k);
      PutMisses(members, b, k);
      PutMisses(Put(members, a), b, k);
    }
  }

  lemma SameLookups(m: map<string, Member>, n: map<string, Member>)
    requires forall k :: Lookup(m, k) == Lookup(n, k)
    ensures m == n
  {
    forall k ensures k in m <==> k in n
             ensures k in m && k in n ==> m[k] == n[k] {
      assert Lookup(m, k) == Lookup(n, k);
    }
  }

  /** Adds of different labels commute and may be repeated. */
  lemma {:induction false} AddsCommute(members: map<string, Member>, a: seq<Member>, b: seq<Member>)
    requires DistinctLabels(a) && DistinctLabels(b)
    requires forall m :: m in a <==> m in b
    ensures Put(members, a) == Put(members, b)
    ensures Put(Put(members, a), b) == Put(members, a)
  {
    forall k ensures Lookup(Put(members, a), k) == Lookup(Put(members, b), k)
             ensures Lookup(Put(Put(members, a), b), k) == Lookup(Put(members, a), k) {
      PutAgree(members, a, b, k);
    }
    SameLookups(Put(members, a), Put(members, b));
    SameLookups(Put(Put(members, a), b), Put(members, a));
  }
}
