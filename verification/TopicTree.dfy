/** The event server's topic tree as a value: which topics there are and what each one holds. */
module TopicTree {
  import opened Wrappers
  import opened Events
  import opened Names

  /** A subscription request; `subCh` is the caller's channel. */
  datatype SubscrReq = SubscrReq(topic: string, subCh: Option<nat>, recursive: bool, depth: nat, startPos: int, filters: seq<Filter>) {
    /** The obligatory fields. */
    predicate Check() {
      Trim(topic) != "" && subCh.Some?
    }

    /** How many levels below the target the request reaches. */
    function Reach(): nat {
      if recursive then depth else 0
    }
  }

  /** What one subscription on one topic remembers. */
  datatype SubRec = SubRec(topic: string, ch: Option<nat>, startPos: int, filters: seq<Filter>)

  datatype TopicInfo = TopicInfo(fullName: string, runned: bool, cancelled: bool, subs: map<Uuid, seq<SubRec>>)

  type Tree = map<Path, TopicInfo>

  function Child(p: Path, k: string): (q: Path)
    ensures |q| == |p| + 1 && Parent(q) == p && Last(q) == k && p <= q
  {
    p + [k]
  }

  function Parent(q: Path): Path
    requires q != []
  {
    q[..|q| - 1]
  }

  function Last(q: Path): string
    requires q != []
  {
    q[|q| - 1]
  }

  lemma ChildOfParent(q: Path)
    requires q != []
    ensures Child(Parent(q), Last(q)) == q
  {
  }

  /** Every topic but a root topic hangs below an existing one. */
  ghost predicate Closed(t: Tree) {
    && [] !in t
    && forall q :: q in t && |q| > 1 ==> Parent(q) in t
  }

  lemma {:induction false} PrefixIn(t: Tree, p: Path, q: Path)
    requires Closed(t) && q in t && p != [] && p <= q
    ensures p in t
  {
    if p != q {
      assert p <= Parent(q);
      PrefixIn(t, p, Parent(q));
    }
  }

  // ---------------------------------------------------------------- adding

  function Fresh(p: Path, runned: bool): TopicInfo
    requires p != []
  {
    TopicInfo(FullName(p), runned, false, map[])
  }

  predicate CanAdd(t: Tree, p: Path)
    requires p != []
  {
    p !in t && (|p| > 1 ==> Parent(p) in t)
  }

  /** The topic of every nonempty prefix of `segs` below `base`. */
  function AddedQueue(t: Tree, base: seq<string>, segs: seq<string>): Tree {
    if segs == [] then t
    else
      var p := TopicPath(base + segs);
      AddedQueue(t, base, segs[..|segs| - 1])[p := Fresh(p, true)]
  }

  // ---------------------------------------------------------------- removing

  /** No topic more than `n` levels below `p`. */
  ghost predicate NoneBelow(t: Tree, p: Path, n: nat) {
    forall q :: q in t && p <= q ==> |q| <= |p| + n
  }

  /** Without recursion a root topic may have childless children, any other topic no child. */
  ghost predicate Removable(t: Tree, p: Path, recursive: bool) {
    recursive || NoneBelow(t, p, if |p| == 1 then 1 else 0)
  }

  /** Nothing is more than `n` levels below `p` once no topic is exactly `n + 1` levels below. */
  lemma {:induction false} DeeperNeeds(t: Tree, p: Path, n: nat, q: Path) returns (c: Path)
    requires Closed(t) && q in t && p != [] && p <= q && |q| > |p| + n
    ensures c in t && p <= c && |c| == |p| + n + 1
  {
    c := q;
    if |q| > |p| + n + 1 {
      assert p <= Parent(q);
      c := DeeperNeeds(t, p, n, Parent(q));
    }
  }

  /** Without recursion a root topic can be removed exactly when none of its subtopics has a subtopic, any
      other topic exactly when it has no subtopic. */
  lemma RemovalGuard(t: Tree, p: Path)
    requires Closed(t) && p != []
    ensures Removable(t, p, true)
    ensures Removable(t, p, false) <==>
            if |p| == 1 then forall k, l :: Child(Child(p, k), l) !in t else forall k :: Child(p, k) !in t
  {
    var n := if |p| == 1 then 1 else 0;
    if !Removable(t, p, false) {
      var q :| q in t && p <= q && |q| > |p| + n;
      var c := DeeperNeeds(t, p, n, q);
      ChildOfParent(c);
      if |p| == 1 {
        ChildOfParent(Parent(c));
        assert Parent(Parent(c)) == p;
        assert Child(Child(p, Last(Parent(c))), Last(c)) in t;
      } else {
        assert Parent(c) == p;
        assert Child(p, Last(c)) in t;
      }
    }
  }

  ghost function WithoutBelow(t: Tree, p: Path): Tree {
    map q | q in t && !(p <= q && q != p) :: t[q]
  }

  ghost function WithoutSubtree(t: Tree, p: Path): Tree {
    map q | q in t && !(p <= q) :: t[q]
  }

  /** `q` is below one of the children `ks` of `p`, or is one of them. */
  predicate UnderChildren(p: Path, ks: set<string>, q: Path) {
    |p| < |q| && p <= q && q[|p|] in ks
  }

  ghost function Pruned(t: Tree, p: Path, ks: set<string>): Tree {
    map q | q in t && !UnderChildren(p, ks, q) :: t[q]
  }

  lemma UnderChild(p: Path, k: string, q: Path)
    ensures Child(p, k) <= q <==> |p| < |q| && p <= q && q[|p|] == k
  {
    if Child(p, k) <= q {
      assert q[..|p|] == Child(p, k)[..|p|];
      assert q[|p|] == Child(p, k)[|p|];
    }
    if |p| < |q| && p <= q && q[|p|] == k {
      assert Child(p, k) == q[..|p| + 1];
    }
  }

  /** Removing everything below one more child and then the child. */
  lemma PruneStep(t: Tree, p: Path, ks: set<string>, k: string)
    ensures WithoutBelow(Pruned(t, p, ks), Child(p, k)) - {Child(p, k)} == Pruned(t, p, ks + {k})
  {
    forall q ensures UnderChildren(p, ks + {k}, q) <==> UnderChildren(p, ks, q) || Child(p, k) <= q {
      UnderChild(p, k, q);
    }
  }

  lemma PruneNone(t: Tree, p: Path)
    ensures Pruned(t, p, {}) == t
  {
  }

  lemma PruneOne(t: Tree, p: Path, k: string)
    ensures Pruned(t, p, {k}) == WithoutSubtree(t, Child(p, k))
  {
    forall q ensures UnderChildren(p, {k}, q) <==> Child(p, k) <= q {
      UnderChild(p, k, q);
    }
  }

  lemma PruneAll(t: Tree, p: Path, ks: set<string>)
    requires forall q :: q in t && p <= q && q != p ==> q[|p|] in ks
    ensures Pruned(t, p, ks) == WithoutBelow(t, p)
  {
    assert forall q :: q in t && p <= q && q != p ==> |p| < |q|;
  }

  /** What is below nothing but childless children before is so for less of the tree. */
  lemma NoneBelowPruned(t: Tree, p: Path, ks: set<string>, c: Path, n: nat)
    requires NoneBelow(t, c, n)
    ensures NoneBelow(Pruned(t, p, ks), c, n) && NoneBelow(Pruned(t, p, ks), c, n + 1)
  {
  }

  lemma NoneBelowChild(t: Tree, p: Path, k: string)
    requires NoneBelow(t, p, 1)
    ensures NoneBelow(t, Child(p, k), 0)
  {
    forall q | q in t && Child(p, k) <= q ensures |q| <= |p| + 1 {
      UnderChild(p, k, q);
    }
  }

  lemma SubtreeIsBelowAndSelf(t: Tree, p: Path)
    ensures WithoutBelow(t, p) - {p} == WithoutSubtree(t, p)
  {
  }

  // ---------------------------------------------------------------- subscribing

  function AddSub(i: TopicInfo, u: Uuid, r: SubRec): TopicInfo {
    i.(subs := i.subs[u := (if u in i.subs then i.subs[u] else []) + [r]])
  }

  /** One more subscription on the target and on every topic at most `reach` levels below it. */
  ghost function Subscribed(t: Tree, p: Path, reach: nat, u: Uuid, r: SubRec): Tree {
    map q | q in t :: if p <= q && |q| - |p| <= reach then AddSub(t[q], u, r) else t[q]
  }

  /** The same, as far as the children `ks` of the target have been visited. */
  ghost function SubscribedPart(t: Tree, p: Path, ks: set<string>, reach: nat, u: Uuid, r: SubRec): Tree {
    map q | q in t :: if q == p || (UnderChildren(p, ks, q) && |q| - |p| <= reach) then AddSub(t[q], u, r) else t[q]
  }

  lemma SubscribedHere(t: Tree, p: Path, reach: nat, u: Uuid, r: SubRec)
    requires p in t
    ensures SubscribedPart(t, p, {}, reach, u, r) == t[p := AddSub(t[p], u, r)]
    ensures reach == 0 ==> Subscribed(t, p, reach, u, r) == t[p := AddSub(t[p], u, r)]
  {
    hide AddSub;
    assert forall q :: q in t && p <= q && |q| - |p| <= 0 ==> q == p;
  }

  lemma SubscribedChild(t: Tree, p: Path, ks: set<string>, k: string, reach: nat, u: Uuid, r: SubRec)
    requires k !in ks && reach > 0
    ensures Subscribed(SubscribedPart(t, p, ks, reach, u, r), Child(p, k), reach - 1, u, r) == SubscribedPart(t, p, ks + {k}, reach, u, r)
  {
    hide AddSub;
    forall q ensures UnderChildren(p, ks + {k}, q) <==> UnderChildren(p, ks, q) || Child(p, k) <= q
      ensures !(UnderChildren(p, ks, q) && Child(p, k) <= q)
      ensures Child(p, k) <= q ==> q != p {
      UnderChild(p, k, q);
    }
  }

  lemma SubscribedAll(t: Tree, p: Path, ks: set<string>, reach: nat, u: Uuid, r: SubRec)
    requires forall q :: q in t && p <= q && q != p ==> q[|p|] in ks
    ensures SubscribedPart(t, p, ks, reach, u, r) == Subscribed(t, p, reach, u, r)
  {
    hide AddSub;
    assert forall q :: q in t && p <= q && q != p ==> |p| < |q|;
  }

  /** Every topic the request reaches is running. */
  ghost predicate AllRunned(t: Tree, p: Path, reach: int) {
    forall q :: q in t && p <= q && |q| - |p| <= reach ==> t[q].runned
  }

  /** Some of the topics the request reaches have the subscription, once, and nothing else changed. */
  ghost predicate PartlySubscribed(t: Tree, t': Tree, p: Path, reach: nat, u: Uuid, r: SubRec) {
    && t'.Keys == t.Keys
    && forall q :: q in t ==> t'[q] == t[q] || (p <= q && |q| - |p| <= reach && t'[q] == AddSub(t[q], u, r))
  }

  lemma PartlyHere(t: Tree, p: Path, reach: nat, u: Uuid, r: SubRec)
    ensures PartlySubscribed(t, t, p, reach, u, r)
    ensures p in t && !t[p].runned ==> !AllRunned(t, p, reach)
    ensures p in t && t[p].runned ==> AllRunned(t, p, 0)
  {
    hide AddSub;
    assert forall q :: q in t && p <= q && |q| - |p| <= 0 ==> q == p;
  }

  /** A child that failed leaves the whole partly subscribed. */
  lemma PartlyChild(t: Tree, p: Path, ks: set<string>, k: string, reach: nat, u: Uuid, r: SubRec, t': Tree)
    requires k !in ks && reach > 0
    requires PartlySubscribed(SubscribedPart(t, p, ks, reach, u, r), t', Child(p, k), reach - 1, u, r)
    ensures PartlySubscribed(t, t', p, reach, u, r)
  {
    hide AddSub;
    forall q | q in t ensures t'[q] == t[q] || (p <= q && |q| - |p| <= reach && t'[q] == AddSub(t[q], u, r)) {
      UnderChild(p, k, q);
    }
  }

  lemma RunnedChild(t: Tree, p: Path, ks: set<string>, k: string, reach: nat, u: Uuid, r: SubRec)
    ensures AllRunned(SubscribedPart(t, p, ks, reach, u, r), Child(p, k), reach - 1) <==> AllRunned(t, Child(p, k), reach - 1)
    ensures AllRunned(t, p, reach) ==> AllRunned(t, Child(p, k), reach - 1)
  {
    forall q | q in t ensures SubscribedPart(t, p, ks, reach, u, r)[q].runned == t[q].runned {
    }
    hide AddSub, SubscribedPart;
    forall q | q in t && Child(p, k) <= q ensures p <= q {
      UnderChild(p, k, q);
    }
  }

  lemma RunnedAll(t: Tree, p: Path, ks: set<string>, reach: nat)
    requires p in t && t[p].runned && forall q :: q in t && p <= q && q != p ==> q[|p|] in ks
    requires forall k :: k in ks ==> AllRunned(t, Child(p, k), reach - 1)
    ensures AllRunned(t, p, reach)
  {
    forall q | q in t && p <= q && |q| - |p| <= reach ensures t[q].runned {
      if q != p {
        UnderChild(p, q[|p|], q);
        assert AllRunned(t, Child(p, q[|p|]), reach - 1);
      }
    }
  }

  function Rec(sr: SubscrReq): SubRec {
    SubRec(sr.topic, sr.subCh, sr.startPos, sr.filters)
  }

  /** What one level deeper asks for. */
  lemma ReachOf(sr: SubscrReq)
    ensures Rec(sr) == SubRec(sr.topic, sr.subCh, sr.startPos, sr.filters)
    ensures sr.recursive && sr.depth > 0 ==>
              var deeper := sr.(depth := sr.depth - 1);
              sr.Reach() == sr.depth && deeper.Reach() == sr.depth - 1 && Rec(deeper) == Rec(sr)
    ensures !(sr.recursive && sr.depth > 0) ==> sr.Reach() == 0
  {
  }

  ghost function Unsubscribed(t: Tree, p: Path, u: Uuid): Tree
    requires p in t
  {
    t[p := t[p].(subs := t[p].subs - {u})]
  }

  /** Unsubscribing takes back a non-recursive subscription exactly when it was the subscriber's first
      on the topic; otherwise the earlier ones go with it. */
  lemma UnsubscribeUndoes(t: Tree, p: Path, u: Uuid, r: SubRec)
    requires p in t
    ensures Unsubscribed(Subscribed(t, p, 0, u, r), p, u) == t <==> u !in t[p].subs
  {
    SubscribedHere(t, p, 0, u, r);
    hide Subscribed;
    if u !in t[p].subs {
      assert AddSub(t[p], u, r).subs - {u} == t[p].subs;
      assert AddSub(t[p], u, r).(subs := t[p].subs) == t[p];
    }
  }

  // ---------------------------------------------------------------- names of topics

  /** Lookup in the tree agrees with the names: a topic is found under its own full name exactly
      when its path is made of well-formed segments, and then no other topic is. */
  lemma LookupByFullName(t: Tree, p: Path)
    requires p in t && p != []
    ensures LookupPath(FullName(p)) == p <==> Canonical(p)
    ensures Canonical(p) ==> forall q :: q in t && Canonical(q) && FullName(q) == FullName(p) ==> q == p
  {
    FullNameLookup(p);
    forall q | q in t && Canonical(q) && Canonical(p) && FullName(q) == FullName(p) ensures q == p {
      FullNamesUnique(p, q);
    }
  }

  /** The branch of a queue is the root or an existing topic. */
  predicate BranchOk(t: Tree, branch: string) {
    var b := Trim(branch);
    b == "" || b == "/" || LookupPath(b) in t
  }

  lemma BranchSegments(t: Tree, branch: string)
    requires BranchOk(t, branch)
    ensures var base := Segments(Trim(branch)); base == [] || TopicPath(base) in t
  {
    assert Split("/") == ["", ""] by {
      assert "/"[1..] == "" && Split("") == [""];
    }
    assert Clean(["", ""]) == [] && Clean([""]) == [] by {
      CleanOfEmpties(["", ""]);
      CleanOfEmpties([""]);
    }
  }

  lemma PathPrefix(a: seq<string>, b: seq<string>)
    requires a <= b
    ensures TopicPath(a) <= TopicPath(b)
  {
  }

  lemma {:induction false} QueueDomain(t: Tree, base: seq<string>, segs: seq<string>, q: Path)
    ensures q in AddedQueue(t, base, segs) <==> q in t || exists i :: 0 < i <= |segs| && q == TopicPath(base + segs[..i])
    ensures q in t && |q| <= |base| ==> AddedQueue(t, base, segs)[q] == t[q]
  {
    if segs != [] {
      var front := segs[..|segs| - 1];
      QueueDomain(t, base, front, q);
      assert segs[..|segs|] == segs;
      assert forall i :: 0 < i <= |front| ==> front[..i] == segs[..i];
      assert |TopicPath(base + segs)| == |base| + |segs|;
    }
  }

  lemma PathLength(segs: seq<string>)
    ensures |TopicPath(segs)| == |segs|
  {
  }

  /** Shorter paths of the queue are not the next one. */
  lemma QueueNext(t: Tree, base: seq<string>, done: seq<string>, k: string)
    ensures TopicPath(base + done + [k]) in AddedQueue(t, base, done) <==> TopicPath(base + done + [k]) in t
  {
    var p := TopicPath(base + done + [k]);
    QueueDomain(t, base, done, p);
    hide TopicPath, AddedQueue;
    PathLength(base + done + [k]);
    forall i | 0 < i <= |done| ensures p != TopicPath(base + done[..i]) {
      PathLength(base + done[..i]);
    }
  }

  lemma QueueParent(t: Tree, base: seq<string>, done: seq<string>)
    requires base == [] || TopicPath(base) in t
    ensures base + done == [] || TopicPath(base + done) in AddedQueue(t, base, done)
  {
    QueueDomain(t, base, done, TopicPath(base + done));
    hide TopicPath, AddedQueue;
    if done == [] {
      assert base + done == base;
    } else {
      assert done[..|done|] == done;
    }
  }

  lemma QueueNew(t: Tree, base: seq<string>, done: seq<string>, k: string)
    requires Closed(t) && done != [] && TopicPath(base + done[..1]) !in t
    ensures TopicPath(base + done + [k]) !in t
  {
    hide TopicPath;
    assert base + done[..1] <= base + done + [k];
    PathPrefix(base + done[..1], base + done + [k]);
    PathLength(base + done[..1]);
    if TopicPath(base + done + [k]) in t {
      PrefixIn(t, TopicPath(base + done[..1]), TopicPath(base + done + [k]));
    }
  }

  lemma QueueSnoc(t: Tree, base: seq<string>, done: seq<string>, k: string)
    ensures TopicPath(base + done + [k]) != []
    ensures AddedQueue(t, base, done + [k]) ==
            AddedQueue(t, base, done)[TopicPath(base + done + [k]) := Fresh(TopicPath(base + done + [k]), true)]
    ensures Parent(TopicPath(base + done + [k])) == TopicPath(base + done)
  {
    assert (done + [k])[..|done + [k]| - 1] == done;
    assert base + (done + [k]) == base + done + [k];
    if base + done != [] {
      PathSnoc(base + done, k);
    }
  }

  /** One more topic of a queue: it can be added when it is not the first, or was not there. */
  lemma QueueStep(t: Tree, base: seq<string>, done: seq<string>, k: string)
    requires Closed(t) && (base == [] || TopicPath(base) in t)
    requires done != [] ==> TopicPath(base + done[..1]) !in t
    ensures var p := TopicPath(base + done + [k]);
            && p != []
            && (CanAdd(AddedQueue(t, base, done), p) <==> done != [] || p !in t)
            && AddedQueue(t, base, done + [k]) == AddedQueue(t, base, done)[p := Fresh(p, true)]
            && (base + done == [] || TopicPath(base + done) in AddedQueue(t, base, done))
  {
    hide TopicPath, AddedQueue, Fresh, Parent, Closed;
    QueueNext(t, base, done, k);
    QueueParent(t, base, done);
    QueueSnoc(t, base, done, k);
    PathLength(base + done + [k]);
    if done != [] {
      QueueNew(t, base, done, k);
    }
  }

  /** What `AddTopicQueue` makes of the tree is what it added: every prefix of the queue below the
      branch, in particular the whole path, and nothing else. */
  lemma QueueAdds(t: Tree, branch: string, queue: string, q: Path)
    requires Closed(t) && BranchOk(t, branch)
    requires var s := Segments(queue); s != [] ==> TopicPath(Segments(Trim(branch)) + s[..1]) !in t
    ensures var base, s := Segments(Trim(branch)), Segments(queue);
            && (q in AddedQueue(t, base, s) <==> q in t || exists i :: 0 < i <= |s| && q == TopicPath(base + s[..i]))
            && (q in t ==> AddedQueue(t, base, s)[q] == t[q])
            && (s != [] ==> LookupPath(branch + "/" + queue) in AddedQueue(t, base, s))
  {
    var base, s := Segments(Trim(branch)), Segments(queue);
    BranchSegments(t, branch);
    QueueDomain(t, base, s, q);
    if q in t {
      QueueKeeps(t, base, s, q);
    }
    SegmentsTrim(branch);
    SegmentsJoin(branch, queue);
    QueueDomain(t, base, s, TopicPath(base + s));
    assert s[..|s|] == s;
  }

  lemma {:induction false} QueueKeeps(t: Tree, base: seq<string>, segs: seq<string>, q: Path)
    requires Closed(t) && q in t && (segs != [] ==> TopicPath(base + segs[..1]) !in t)
    ensures q in AddedQueue(t, base, segs) && AddedQueue(t, base, segs)[q] == t[q]
  {
    if segs != [] {
      var front := segs[..|segs| - 1];
      assert front != [] ==> front[..1] == segs[..1];
      QueueKeeps(t, base, front, q);
      PathPrefix(base + segs[..1], base + segs);
      if q == TopicPath(base + segs) {
        PrefixIn(t, TopicPath(base + segs[..1]), q);
      }
    }
  }

  /** Where one segment of a queue goes. */
  lemma SegmentTarget(k: string, branch: string)
    requires IsSegment(k)
    ensures Trim(k) == k != ""
    ensures Base(k, branch) == Segments(branch) && Target(k, branch) == TopicPath(Segments(branch) + [k])
    ensures Segments(branch + "/" + k) == Segments(branch) + [k]
  {
    SplitSlashFree(k);
    CleanOne(k);
    SegmentsJoin(branch, k);
    TargetShape(k, branch);
    assert [k][..0] == [] && Segments(branch) + [] == Segments(branch);
    if Segments(branch) != [] {
      PathSnoc(Segments(branch), k);
    }
  }

  // ---------------------------------------------------------------- trees of well-formed names

  ghost predicate AllCanonical(t: Tree) {
    forall p :: p in t ==> Canonical(p)
  }

  /** A queue's topics are named by well-formed segments, whatever the strings. */
  lemma QueueKeepsCanonical(t: Tree, branch: string, queue: string)
    requires AllCanonical(t)
    ensures AllCanonical(AddedQueue(t, Segments(Trim(branch)), Segments(queue)))
  {
    var base, s := Segments(Trim(branch)), Segments(queue);
    SegmentsAreSegments(Trim(branch));
    SegmentsAreSegments(queue);
    hide Segments, Canonical, AddedQueue, IsSegment, TopicPath;
    forall q | q in AddedQueue(t, base, s) ensures Canonical(q) {
      QueueDomain(t, base, s, q);
      if q !in t {
        var i :| 0 < i <= |s| && q == TopicPath(base + s[..i]);
        assert AllSegments(base + s[..i]);
        CanonicalPath(base + s[..i]);
      }
    }
  }

  /** The server's own topic has a well-formed name, so a start keeps all names well formed; from an
      empty table they are. */
  lemma StartKeepsCanonical(t: Tree, i: TopicInfo)
    requires AllCanonical(t)
    ensures AllCanonical(t[["/server"] := i]) && AllCanonical(map[])
  {
    var p := ["/server"];
    assert p[0][1..] == "server" && Trim("server") == "server";
    assert Canonical(p);
    hide Canonical;
  }

  /** Removing topics cannot spoil a name. */
  lemma RemovalKeepsCanonical(t: Tree, p: Path)
    requires AllCanonical(t)
    ensures AllCanonical(WithoutSubtree(t, p)) && AllCanonical(WithoutBelow(t, p))
  {
    hide Canonical;
  }
}
