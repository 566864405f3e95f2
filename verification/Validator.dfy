/** Canonical group checksum and the minority check made when joining (pubsub/validator/init.go). */
module Validator {
  import opened Common
  import Base64
  import Strings

  /** A group member record; `name` is its label (a reserved word in Dafny). */
  datatype Member = Member(active: bool, publisher: bool, name: string, inv: string, pubEndpoint: string)

  /** The two library calls behind a checksum. JSON of a member list is injective (field names and
      order are fixed); SHA-256 is only ever assumed collision free on the lists at hand. */
  datatype Hasher = Hasher(json: seq<Member> -> Bytes, sha: Bytes -> Bytes) {
    ghost predicate Valid() {
      && (forall x :: |sha(x)| == 32)
      && (forall x, y :: json(x) == json(y) ==> x == y)
         // a nil slice is written `null`; one member already needs more than 44 bytes of field names
      && |json([])| == 4
      && (forall x :: |x| > 0 ==> |json(x)| >= 44)
    }

    function Digest(x: seq<Member>): Bytes {
      Base64.Encode(Base64.Std, sha(json(x)))
    }

    /** No SHA-256 collision between these two lists. */
    ghost predicate Separates(x: seq<Member>, y: seq<Member>) {
      sha(json(x)) == sha(json(y)) ==> json(x) == json(y)
    }
  }

  lemma DigestDecodes(h: Hasher, x: seq<Member>)
    ensures Base64.Decode(Base64.Std, h.Digest(x)) == Some(h.sha(h.json(x)))
  {
    Base64.RoundTrip(Base64.Std, h.sha(h.json(x)));
  }

  function Labels(grp: seq<Member>): seq<string> {
    seq(|grp|, i requires 0 <= i < |grp| => grp[i].name)
  }

  ghost predicate DistinctLabels(grp: seq<Member>) {
    forall i, j :: 0 <= i < j < |grp| ==> grp[i].name != grp[j].name
  }

  /** The first member carrying a label, as a list of length at most one. */
  function FirstWith(grp: seq<Member>, l: string): seq<Member> {
    if |grp| == 0 then []
    else if grp[0].name == l then [grp[0]]
    else FirstWith(grp[1..], l)
  }

  function Pick(grp: seq<Member>, ls: seq<string>): seq<Member> {
    if |ls| == 0 then [] else FirstWith(grp, ls[0]) + Pick(grp, ls[1..])
  }

  function Ordered(grp: seq<Member>): seq<Member> {
    Pick(grp, Strings.Sort(Labels(grp)))
  }

  lemma {:induction false} PickSnoc(grp: seq<Member>, ls: seq<string>, l: string)
    ensures Pick(grp, ls + [l]) == Pick(grp, ls) + FirstWith(grp, l)
  {
    if |ls| == 0 {
      assert ls + [l] == [l];
      assert Pick(grp, [l]) == FirstWith(grp, l) + Pick(grp, []);
    } else {
      assert (ls + [l])[1..] == ls[1..] + [l];
      PickSnoc(grp, ls[1..], l);
    }
  }

  lemma {:induction false} FirstWithSkips(grp: seq<Member>, j: nat, l: string)
    requires j < |grp|
    requires forall i :: 0 <= i < j ==> grp[i].name != l
    requires grp[j].name == l
    ensures FirstWith(grp, l) == [grp[j]]
  {
    if j > 0 {
      FirstWithSkips(grp[1..], j - 1, l);
    }
  }

  lemma {:induction false} FirstWithNone(grp: seq<Member>, l: string)
    requires forall i :: 0 <= i < |grp| ==> grp[i].name != l
    ensures FirstWith(grp, l) == []
  {
    if |grp| > 0 {
      FirstWithNone(grp[1..], l);
    }
  }

  method Order(grp: seq<Member>) returns (sorted: seq<Member>)
    ensures sorted == Ordered(grp)
  {
    var labels := [];
    for i := 0 to |grp|
      invariant labels == Labels(grp[..i])
    {
      labels := labels + [grp[i].name];
      assert grp[..i + 1] == grp[..i] + [grp[i]];
    }
    assert grp[..|grp|] == grp;
    labels := Strings.Sort(labels);
    sorted := [];
    for i := 0 to |labels|
      invariant sorted == Pick(grp, labels[..i])
    {
      var l := labels[i];
      PickSnoc(grp, labels[..i], l);
      assert labels[..i + 1] == labels[..i] + [l];
      var j := 0;
      while j < |grp| && grp[j].name != l
        invariant 0 <= j <= |grp|
        invariant forall k :: 0 <= k < j ==> grp[k].name != l
      {
        j := j + 1;
      }
      if j < |grp| {
        FirstWithSkips(grp, j, l);
        sorted := sorted + [grp[j]];
      } else {
        FirstWithNone(grp, l);
      }
    }
    assert labels[..|labels|] == labels;
  }

  /** The checksum of a member list. The buffer handed to the base64 encoder is as long as the JSON
      text, so for an empty list (JSON `null`) the original panics: reported as None. */
  method Calculate(h: Hasher, grp: seq<Member>) returns (r: Option<Bytes>)
    requires h.Valid()
    ensures r == if |grp| == 0 then None else Some(h.Digest(Ordered(grp)))
  {
    var sorted := Order(grp);
    var byts := h.json(sorted);
    r := Base64.EncodeTrimmed(Base64.Std, |byts|, h.sha(byts));
    OrderedLength(grp);
  }

  // ---- order is a canonical form ----

  lemma {:induction false} FirstWithFound(grp: seq<Member>, l: string)
    requires l in Labels(grp)
    ensures |FirstWith(grp, l)| == 1 && FirstWith(grp, l)[0] in grp && FirstWith(grp, l)[0].name == l
  {
    if grp[0].name != l {
      var i :| 0 <= i < |grp| && Labels(grp)[i] == l;
      assert Labels(grp[1..])[i - 1] == l;
      FirstWithFound(grp[1..], l);
    }
  }

  lemma {:induction false} PickLength(grp: seq<Member>, ls: seq<string>)
    requires forall l :: l in ls ==> l in Labels(grp)
    ensures |Pick(grp, ls)| == |ls|
    ensures forall i :: 0 <= i < |ls| ==> Pick(grp, ls)[i] in grp && Pick(grp, ls)[i].name == ls[i]
  {
    if |ls| > 0 {
      FirstWithFound(grp, ls[0]);
      PickLength(grp, ls[1..]);
    }
  }

  lemma SortedLabelsOccur(grp: seq<Member>)
    ensures forall l :: l in Strings.Sort(Labels(grp)) ==> l in Labels(grp)
    ensures |Strings.Sort(Labels(grp))| == |grp|
  {
    Strings.SortCorrect(Labels(grp));
    forall l | l in Strings.Sort(Labels(grp)) ensures l in Labels(grp) {
      assert l in multiset(Strings.Sort(Labels(grp)));
    }
    assert |multiset(Strings.Sort(Labels(grp)))| == |multiset(Labels(grp))|;
  }

  lemma OrderedLength(grp: seq<Member>)
    ensures |Ordered(grp)| == |grp|
    ensures Labels(Ordered(grp)) == Strings.Sort(Labels(grp))
    ensures forall m :: m in Ordered(grp) ==> m in grp
  {
    SortedLabelsOccur(grp);
    PickLength(grp, Strings.Sort(Labels(grp)));
  }

  lemma DistinctMemberOf(grp: seq<Member>, x: Member, y: Member)
    requires DistinctLabels(grp) && x in grp && y in grp && x.name == y.name
    ensures x == y
  {}

  lemma {:induction false} DistinctMultiplicity(grp: seq<Member>, x: Member)
    requires DistinctLabels(grp)
    ensures multiset(grp)[x] == if x in grp then 1 else 0
  {
    if |grp| > 0 {
      DistinctMultiplicity(grp[1..], x);
      assert grp == [grp[0]] + grp[1..];
    }
  }

  lemma SameMembersSameMultiset(a: seq<Member>, b: seq<Member>)
    requires DistinctLabels(a) && DistinctLabels(b)
    requires forall m :: m in a <==> m in b
    ensures multiset(a) == multiset(b)
  {
    forall x: Member ensures multiset(a)[x] == multiset(b)[x] {
      DistinctMultiplicity(a, x);
      DistinctMultiplicity(b, x);
    }
  }

  lemma {:induction false} LabelsHaveMultiplicityOne(a: seq<Member>)
    requires DistinctLabels(a)
    ensures forall l :: multiset(Labels(a))[l] == if l in Labels(a) then 1 else 0
  {
    if |a| > 0 {
      LabelsHaveMultiplicityOne(a[1..]);
      assert Labels(a) == [a[0].name] + Labels(a[1..]);
      assert a[0].name !in Labels(a[1..]);
    }
  }

  lemma LabelOccurs(a: seq<Member>, b: seq<Member>, l: string)
    requires forall m :: m in a ==> m in b
    requires l in Labels(a)
    ensures l in Labels(b)
  {
    var i :| 0 <= i < |a| && Labels(a)[i] == l;
    assert a[i] in b;
    var j :| 0 <= j < |b| && b[j] == a[i];
    assert Labels(b)[j] == l;
  }

  lemma LabelsOfSameMembers(a: seq<Member>, b: seq<Member>)
    requires DistinctLabels(a) && DistinctLabels(b)
    requires forall m :: m in a <==> m in b
    ensures multiset(Labels(a)) == multiset(Labels(b))
  {
    LabelsHaveMultiplicityOne(a);
    LabelsHaveMultiplicityOne(b);
    forall l ensures l in Labels(a) <==> l in Labels(b) {
      if l in Labels(a) { LabelOccurs(a, b, l); }
      if l in Labels(b) { LabelOccurs(b, a, l); }
    }
  }

  lemma {:induction false} PickDependsOnMembers(a: seq<Member>, b: seq<Member>, ls: seq<string>)
    requires DistinctLabels(a) && DistinctLabels(b)
    requires forall m :: m in a <==> m in b
    requires forall l :: l in ls ==> l in Labels(a) && l in Labels(b)
    ensures Pick(a, ls) == Pick(b, ls)
  {
    if |ls| > 0 {
      FirstWithFound(a, ls[0]);
      FirstWithFound(b, ls[0]);
      DistinctMemberOf(a, FirstWith(a, ls[0])[0], FirstWith(b, ls[0])[0]);
      assert FirstWith(a, ls[0]) == FirstWith(b, ls[0]);
      PickDependsOnMembers(a, b, ls[1..]);
    }
  }

  /** Whatever order a map was iterated in, the sorted list is the same. */
  lemma OrderCanonical(a: seq<Member>, b: seq<Member>)
    requires DistinctLabels(a) && DistinctLabels(b)
    requires forall m :: m in a <==> m in b
    ensures Ordered(a) == Ordered(b)
  {
    LabelsOfSameMembers(a, b);
    Strings.SortForgetsOrder(Labels(a), Labels(b));
    SortedLabelsOccur(a);
    SortedLabelsOccur(b);
    PickDependsOnMembers(a, b, Strings.Sort(Labels(a)));
  }

  /** With distinct labels, order is a label-sorted permutation of its argument. */
  lemma OrderSortedPermutation(a: seq<Member>)
    requires DistinctLabels(a)
    ensures Strings.Sorted(Labels(Ordered(a)))
    ensures DistinctLabels(Ordered(a))
    ensures multiset(Ordered(a)) == multiset(a)
  {
    OrderedLength(a);
    Strings.SortCorrect(Labels(a));
    var o := Ordered(a);
    LabelsHaveMultiplicityOne(a);
    forall i, j | 0 <= i < j < |o| ensures o[i].name != o[j].name {
      NoTwoOccurrences(Labels(o), i, j);
    }
    forall m | m in a ensures m in o {
      var i :| 0 <= i < |a| && a[i] == m;
      assert Labels(a)[i] in multiset(Labels(a));
      assert m.name in multiset(Labels(o));
      var k :| 0 <= k < |o| && Labels(o)[k] == m.name;
      DistinctMemberOf(a, o[k], m);
    }
    SameMembersSameMultiset(o, a);
  }

  lemma NoTwoOccurrences(s: seq<string>, i: nat, j: nat)
    requires i < j < |s|
    requires forall l :: multiset(s)[l] <= 1
    ensures s[i] != s[j]
  {
    assert s == s[..j] + [s[j]] + s[j + 1..];
    assert multiset(s) == multiset(s[..j]) + multiset{s[j]} + multiset(s[j + 1..]);
    assert multiset(s)[s[j]] <= 1;
    assert s[..j][i] == s[i];
  }

  /** Equal orderings mean equal member sets: the canonical form loses nothing. */
  lemma OrderInjective(a: seq<Member>, b: seq<Member>)
    requires DistinctLabels(a) && DistinctLabels(b)
    requires Ordered(a) == Ordered(b)
    ensures multiset(a) == multiset(b)
  {
    OrderSortedPermutation(a);
    OrderSortedPermutation(b);
  }

  // ---- checksum of a label-indexed member map ----

  ghost predicate Keyed(m: map<string, Member>) {
    forall k :: k in m ==> m[k].name == k
  }

  /** grp lists the values of m, each once, in some order: what ranging over the map may yield. */
  ghost predicate Enumerates(grp: seq<Member>, m: map<string, Member>) {
    && DistinctLabels(grp)
    && (forall x :: x in grp ==> x.name in m && m[x.name] == x)
    && (forall k :: k in m ==> m[k] in grp)
  }

  lemma NoMembers(mems: seq<Member>, members: map<string, Member>)
    requires Enumerates(mems, members)
    ensures |mems| == 0 <==> members == map[]
  {
    assert |mems| > 0 ==> mems[0].name in members;
    assert forall k :: k in members ==> members[k] in mems;
  }

  lemma ShorterSnapshot(mems: seq<Member>, snapshot: map<string, Member>)
    requires |mems| > 0 && Enumerates(mems, snapshot) && Keyed(snapshot)
    ensures var m := mems[|mems| - 1];
            m.name in snapshot && snapshot[m.name] == m && Enumerates(mems[..|mems| - 1], snapshot - {m.name})
  {
    var init, m := mems[..|mems| - 1], mems[|mems| - 1];
    assert m in mems && mems == init + [m];
    forall k | k in snapshot - {m.name} ensures snapshot[k] in init {
      assert snapshot[k] in mems && snapshot[k].name == k;
    }
  }

  lemma {:induction false} SameSize(mems: seq<Member>, snapshot: map<string, Member>)
    requires Enumerates(mems, snapshot) && Keyed(snapshot)
    ensures |mems| == |snapshot|
    decreases |mems|
  {
    NoMembers(mems, snapshot);
    if |mems| > 0 {
      var m := mems[|mems| - 1];
      ShorterSnapshot(mems, snapshot);
      SameSize(mems[..|mems| - 1], snapshot - {m.name});
      assert snapshot.Keys == (snapshot - {m.name}).Keys + {m.name};
      assert |snapshot| == |snapshot.Keys|;
    }
  }

  ghost function SomeOrder(m: map<string, Member>): seq<Member> {
    if m == map[] then []
    else
      var k :| k in m;
      [m[k]] + SomeOrder(m - {k})
  }

  lemma {:induction false} SomeOrderEnumerates(m: map<string, Member>)
    requires Keyed(m)
    ensures Enumerates(SomeOrder(m), m)
  {
    if m != map[] {
      var s := SomeOrder(m);
      var k :| k in m && s == [m[k]] + SomeOrder(m - {k});
      SomeOrderEnumerates(m - {k});
      var rest := SomeOrder(m - {k});
      forall j | j in m ensures m[j] in s {
        if j != k { assert (m - {k})[j] in rest; }
      }
      forall i | 0 <= i < |rest| ensures rest[i].name != k && rest[i].name in m && m[rest[i].name] == rest[i] {
        assert rest[i] in rest;
      }
    }
  }

  ghost function Canonical(m: map<string, Member>): seq<Member> {
    Ordered(SomeOrder(m))
  }

  /** The checksum every holder of this member map must report. */
  ghost function Checksum(h: Hasher, m: map<string, Member>): Bytes {
    h.Digest(Canonical(m))
  }

  lemma EnumerationIsCanonical(grp: seq<Member>, m: map<string, Member>)
    requires Keyed(m) && Enumerates(grp, m)
    ensures Ordered(grp) == Canonical(m)
    ensures |grp| == 0 <==> m == map[]
  {
    SomeOrderEnumerates(m);
    OrderCanonical(grp, SomeOrder(m));
    if m != map[] {
      var k :| k in m;
      assert m[k] in grp;
    }
  }

  lemma EnumerationDeterminesMap(a: seq<Member>, m: map<string, Member>, b: seq<Member>, n: map<string, Member>)
    requires Enumerates(a, m) && Enumerates(b, n) && Keyed(m)
    requires multiset(a) == multiset(b)
    ensures forall k :: k in m ==> k in n && n[k] == m[k]
  {
    forall k | k in m ensures k in n && n[k] == m[k] {
      assert m[k] in multiset(a);
      assert m[k] in b;
    }
  }

  lemma CanonicalInjective(m: map<string, Member>, n: map<string, Member>)
    requires Keyed(m) && Keyed(n)
    requires Canonical(m) == Canonical(n)
    ensures m == n
  {
    var a, b := SomeOrder(m), SomeOrder(n);
    SomeOrderEnumerates(m);
    SomeOrderEnumerates(n);
    OrderInjective(a, b);
    EnumerationDeterminesMap(a, m, b, n);
    EnumerationDeterminesMap(b, n, a, m);
  }

  /** Two member maps have the same checksum exactly when they are the same map,
      unless SHA-256 collides on precisely these two. */
  lemma ChecksumIdentifiesView(h: Hasher, m: map<string, Member>, n: map<string, Member>)
    requires h.Valid() && Keyed(m) && Keyed(n)
    requires h.Separates(Canonical(m), Canonical(n))
    ensures Checksum(h, m) == Checksum(h, n) <==> m == n
  {
    if Checksum(h, m) == Checksum(h, n) {
      Base64.EncodeInjective(Base64.Std, h.sha(h.json(Canonical(m))), h.sha(h.json(Canonical(n))));
      CanonicalInjective(m, n);
    }
  }

  // ---- minority detection ----

  ghost function Class(states: map<string, Bytes>, hash: Bytes): set<string> {
    set l | l in states && states[l] == hash
  }

  ghost predicate AllEqual(states: map<string, Bytes>) {
    forall l, k :: l in states && k in states ==> states[l] == states[k]
  }

  /** `mems` lists, without duplicates, all labels reporting `hash`; no other reported value has fewer
      labels, and they are at most half of everybody. */
  ghost predicate SmallestClass(states: map<string, Bytes>, hash: Bytes, mems: seq<string>) {
    && hash in states.Values
    && multiset(mems) == multiset(Class(states, hash))
    && (forall l :: l in states ==> |mems| <= |Class(states, states[l])|)
    && 2 * |mems| <= |states|
  }

  lemma ClassesPartition(states: map<string, Bytes>, x: Bytes, y: Bytes)
    requires x != y
    ensures |Class(states, x)| + |Class(states, y)| <= |states|
  {
    var cx, cy := Class(states, x), Class(states, y);
    assert |cx + cy| == |cx| + |cy|;
    SubsetSize(cx + cy, states.Keys);
  }

  lemma {:induction false} SubsetSize(a: set<string>, b: set<string>)
    requires a <= b
    ensures |a| <= |b|
  {
    assert b == a + (b - a);
    assert |b| == |a| + |b - a|;
  }

  lemma FullClassMeansAllEqual(states: map<string, Bytes>, x: Bytes)
    requires |Class(states, x)| == |states|
    ensures forall l :: l in states ==> states[l] == x
  {
    var rest := states.Keys - Class(states, x);
    assert states.Keys == Class(states, x) + rest;
    assert |states.Keys| == |Class(states, x)| + |rest|;
    assert rest == {};
    forall l | l in states ensures states[l] == x {
      assert l !in rest;
    }
  }

  ghost predicate Minority(states: map<string, Bytes>, mems: seq<string>) {
    exists hash :: SmallestClass(states, hash, mems)
  }

  /** Labels among `done` that reported v. */
  ghost function Reporting(states: map<string, Bytes>, done: set<string>, v: Bytes): set<string>
    requires done <= states.Keys
  {
    set l | l in done && states[l] == v
  }

  ghost predicate Inverse(states: map<string, Bytes>, done: set<string>, mems: map<Bytes, seq<string>>)
    requires done <= states.Keys
  {
    && (forall l :: l in done ==> states[l] in mems)
    && (forall v :: v in mems ==> mems[v] != [] && multiset(mems[v]) == multiset(Reporting(states, done, v)))
  }

  function Append(mems: map<Bytes, seq<string>>, v: Bytes, l: string): map<Bytes, seq<string>> {
    mems[v := (if v in mems then mems[v] else []) + [l]]
  }

  lemma InverseStep(states: map<string, Bytes>, done: set<string>, mems: map<Bytes, seq<string>>, l: string)
    requires done <= states.Keys && l in states && l !in done
    requires Inverse(states, done, mems)
    ensures Inverse(states, done + {l}, Append(mems, states[l], l))
  {
    var mems' := Append(mems, states[l], l);
    forall w | w in mems'
      ensures multiset(mems'[w]) == multiset(Reporting(states, done + {l}, w)) {
      if w == states[l] {
        assert Reporting(states, done + {l}, w) == Reporting(states, done, w) + {l};
        if w !in mems {
          assert Reporting(states, done, w) == {};
        }
      } else {
        assert Reporting(states, done + {l}, w) == Reporting(states, done, w);
      }
    }
  }

  /** The inverse of the reported values: every value with the labels that reported it. The loop
      ranges over a Go map, so the label taken next is an arbitrary one. */
  method InvertStates(states: map<string, Bytes>) returns (mems: map<Bytes, seq<string>>)
    ensures Inverse(states, states.Keys, mems)
  {
    mems := map[];
    var todo := states.Keys;
    ghost var done := {};
    while todo != {}
      invariant done <= states.Keys && todo == states.Keys - done
      invariant Inverse(states, done, mems)
      decreases |todo|
    {
      var membr :| membr in todo;
      InverseStep(states, done, mems, membr);
      mems := Append(mems, states[membr], membr);
      todo := todo - {membr};
      done := done + {membr};
    }
    assert done == states.Keys;
  }

  method Verify(states: map<string, Bytes>) returns (invalidMems: seq<string>, ok: bool)
    ensures ok <==> AllEqual(states)
    ensures ok ==> invalidMems == []
    ensures !ok ==> Minority(states, invalidMems)
  {
    var mems := InvertStates(states);
    var deviated := |states|;
    invalidMems := [];
    ghost var hash: Bytes := [];
    var hashes := mems.Keys;
    while hashes != {}
      invariant hashes <= mems.Keys
      invariant deviated <= |states|
      invariant forall v :: v in mems && v !in hashes ==> deviated <= |mems[v]|
      invariant deviated < |states| ==> hash in mems && invalidMems == mems[hash] && deviated == |mems[hash]|
      decreases |hashes|
    {
      var val :| val in hashes;
      var membrs := mems[val];
      if |membrs| < deviated {
        deviated := |membrs|;
        invalidMems := membrs;
        hash := val;
      }
      hashes := hashes - {val};
    }

    if deviated == |states| {
      NoSmallClass(states, mems);
      return [], true;
    }
    MinorityFound(states, mems, hash);
    return invalidMems, false;
  }

  lemma ClassSizes(states: map<string, Bytes>, mems: map<Bytes, seq<string>>, v: Bytes)
    requires Inverse(states, states.Keys, mems) && v in mems
    ensures multiset(mems[v]) == multiset(Class(states, v)) && |mems[v]| == |Class(states, v)|
    ensures exists l :: l in states && states[l] == v
  {
    assert Reporting(states, states.Keys, v) == Class(states, v);
    assert |multiset(mems[v])| == |multiset(Class(states, v))|;
    assert mems[v][0] in multiset(mems[v]);
    assert mems[v][0] in Class(states, v);
  }

  lemma NoSmallClass(states: map<string, Bytes>, mems: map<Bytes, seq<string>>)
    requires Inverse(states, states.Keys, mems)
    requires forall v :: v in mems ==> |states| <= |mems[v]|
    ensures AllEqual(states)
  {
    forall l, k | l in states && k in states ensures states[l] == states[k] {
      ClassSizes(states, mems, states[l]);
      SubsetSize(Class(states, states[l]), states.Keys);
      FullClassMeansAllEqual(states, states[l]);
    }
  }

  lemma MinorityFound(states: map<string, Bytes>, mems: map<Bytes, seq<string>>, hash: Bytes)
    requires Inverse(states, states.Keys, mems)
    requires hash in mems && |mems[hash]| < |states|
    requires forall v :: v in mems ==> |mems[hash]| <= |mems[v]|
    ensures Minority(states, mems[hash])
    ensures !AllEqual(states)
  {
    ClassSizes(states, mems, hash);
    forall l | l in states ensures |mems[hash]| <= |Class(states, states[l])| {
      ClassSizes(states, mems, states[l]);
    }
    var l :| l in states && states[l] == hash;
    var k := OtherValue(states, hash);
    ClassesPartition(states, hash, states[k]);
    assert SmallestClass(states, hash, mems[hash]);
  }

  lemma OtherValue(states: map<string, Bytes>, hash: Bytes) returns (k: string)
    requires |Class(states, hash)| < |states|
    ensures k in states && states[k] != hash
  {
    var rest := states.Keys - Class(states, hash);
    assert states.Keys == Class(states, hash) + rest;
    assert |states.Keys| == |Class(states, hash)| + |rest|;
    k :| k in rest;
  }

  // ---- consistent join ----

  datatype Verdict = Consistent | Inconsistent(mems: seq<string>) | EmptyGroup

  /** The acceptor's own reply is replaced by the checksum of the snapshot it handed out. */
  method ValidJoin(h: Hasher, accptr: string, joinedSet: seq<Member>, grpHashes: map<string, Bytes>)
    returns (v: Verdict)
    requires h.Valid()
    ensures v.EmptyGroup? <==> |joinedSet| == 0
    ensures |joinedSet| > 0 ==>
              (v.Consistent? <==>
               forall l :: l in grpHashes && l != accptr ==> grpHashes[l] == h.Digest(Ordered(joinedSet)))
    ensures v.Inconsistent? ==>
              Minority(grpHashes[accptr := h.Digest(Ordered(joinedSet))], v.mems)
  {
    var joinedChecksm := Calculate(h, joinedSet);
    if joinedChecksm.None? {
      return EmptyGroup;
    }
    var states := grpHashes[accptr := joinedChecksm.value];
    var invalidMems, ok := Verify(states);
    assert states[accptr] == joinedChecksm.value;
    if ok {
      forall l | l in grpHashes && l != accptr ensures grpHashes[l] == joinedChecksm.value {
        assert states[l] == states[accptr];
      }
      return Consistent;
    }
    assert exists l :: l in states && states[l] != joinedChecksm.value;
    return Inconsistent(invalidMems);
  }

  /** What a contacted member's subscribe reply contributes: its stored checksum, or the empty string
      of a zero reply when it could not be reached. */
  ghost function Reported(h: Hasher, view: Option<map<string, Member>>): Bytes {
    if view.Some? then Checksum(h, view.value) else []
  }

  /** Soundness and completeness of the join check against the members' actual views. */
  lemma ConsistentJoin(h: Hasher, accptr: string, snapshot: map<string, Member>, grp: seq<Member>,
                       views: map<string, Option<map<string, Member>>>)
    requires h.Valid() && Keyed(snapshot) && Enumerates(grp, snapshot)
    requires forall l :: l in views && views[l].Some? ==>
               Keyed(views[l].value) && h.Separates(Canonical(views[l].value), Canonical(snapshot))
    ensures (forall l :: l in views && l != accptr ==> Reported(h, views[l]) == h.Digest(Ordered(grp)))
       <==> (forall l :: l in views && l != accptr ==> views[l] == Some(snapshot))
  {
    EnumerationIsCanonical(grp, snapshot);
    forall l | l in views
      ensures Reported(h, views[l]) == h.Digest(Ordered(grp)) <==> views[l] == Some(snapshot) {
      if views[l].Some? {
        ChecksumIdentifiesView(h, views[l].value, snapshot);
      } else {
        assert |h.sha(h.json(Ordered(grp)))| == 32;
      }
    }
  }
}
