/** The event server and its topics as objects. The ghost field `Nodes` gives every topic of the
    tree by its path, so that one flat invariant replaces a recursive one. */
module EventServer {
  import opened Wrappers
  import opened Events
  import opened Names
  import opened TopicTree
  import opened SubscriptionRequests

  // ---------------------------------------------------------------- the flat invariant

  /** What the tree knows of one topic. */
  datatype Node = Node(info: TopicInfo, table: map<string, Topic>)

  type Snapshot = map<Path, Node>

  ghost function Infos(snap: Snapshot): Tree {
    map p | p in snap :: snap[p].info
  }

  /** Every topic knows its place and names, and hangs below an existing topic. */
  ghost predicate Shape(nodes: map<Path, Topic>, s: EventServer) {
    forall q :: q in nodes ==>
      && q != [] && (|q| > 1 ==> Parent(q) in nodes)
      && nodes[q].path == q && nodes[q].eServer == s && nodes[q].fullName == FullName(q) && nodes[q].name == Last(q)
  }

  /** The table of the topic (or server) at `p` holds exactly the topics one level below. */
  ghost predicate TableOk(nodes: map<Path, Topic>, p: Path, table: map<string, Topic>) {
    forall k :: (k in table <==> Child(p, k) in nodes) && (k in table ==> table[k] == nodes[Child(p, k)])
  }

  /** All topics of `was` are where they were. */
  ghost predicate InPlace(was: map<Path, Topic>, nodes: map<Path, Topic>) {
    forall p :: p in was ==> p in nodes && nodes[p] == was[p]
  }

  lemma InPlaceItself(nodes: map<Path, Topic>)
    ensures InPlace(nodes, nodes)
  {
  }

  lemma InPlaceOn(a: map<Path, Topic>, b: map<Path, Topic>, c: map<Path, Topic>)
    requires InPlace(a, b) && InPlace(b, c)
    ensures InPlace(a, c)
  {
  }

  lemma InPlaceMinus(a: map<Path, Topic>, b: map<Path, Topic>, c: Path)
    requires InPlace(a, b)
    ensures InPlace(a - {c}, b)
  {
  }

  /** The paths strictly below `p`. */
  ghost function BelowSet(nodes: map<Path, Topic>, p: Path): set<Path> {
    set q | q in nodes && p <= q && q != p
  }

  lemma BelowSubset(a: map<Path, Topic>, b: map<Path, Topic>, p: Path)
    requires InPlace(a, b)
    ensures BelowSet(a, p) < BelowSet(b, p) || BelowSet(a, p) == BelowSet(b, p)
  {
  }

  lemma BelowChild(nodes: map<Path, Topic>, p: Path, k: string)
    requires Child(p, k) in nodes
    ensures BelowSet(nodes, Child(p, k)) < BelowSet(nodes, p)
  {
    assert Child(p, k) in BelowSet(nodes, p) && Child(p, k) !in BelowSet(nodes, Child(p, k));
  }

  lemma SiblingStays(t: Tree, p: Path, k: string, j: string)
    ensures Child(p, j) in t <==> Child(p, j) in WithoutBelow(t, Child(p, k))
  {
    if Child(p, k) <= Child(p, j) {
      assert |Child(p, k)| == |Child(p, j)|;
    }
  }

  lemma SameTables(nodes: map<Path, Topic>, was: map<Path, Topic>, p: Path, a: map<string, Topic>, b: map<string, Topic>)
    requires TableOk(nodes, p, a) && TableOk(was, p, b) && InPlace(nodes, was)
    requires forall j :: Child(p, j) in was <==> Child(p, j) in nodes
    ensures a == b
  {
    hide Child;
    forall j ensures j in a <==> j in b
      ensures j in a ==> a[j] == b[j] {
    }
  }

  lemma ValuesInPlace(a: map<Path, Topic>, b: map<Path, Topic>)
    requires InPlace(a, b)
    ensures a.Values <= b.Values
  {
    forall x | x in a.Values ensures x in b.Values {
      var p :| p in a && a[p] == x;
      assert b[p] == x;
    }
  }

  ghost predicate Live(i: TopicInfo) {
    i.runned && !i.cancelled
  }

  /** No topic is stopped. */
  ghost predicate AllRunning(t: Tree) {
    forall p :: p in t ==> Live(t[p])
  }

  ghost predicate WellFormed(s: EventServer, nodes: map<Path, Topic>, topics: map<string, Topic>, runned: bool, snap: Snapshot) {
    && SameKeys(nodes, snap)
    && Shape(nodes, s)
    && TableOk(nodes, [], topics)
    && AllTablesOk(nodes, snap)
    && (runned ==> AllLive(snap))
  }

  lemma NowRunning(s: EventServer, nodes: map<Path, Topic>, topics: map<string, Topic>, runned: bool, snap: Snapshot)
    requires WellFormed(s, nodes, topics, runned, snap)
    ensures AllRunning(Infos(snap)) ==> WellFormed(s, nodes, topics, true, snap)
  {
    hide Shape, TableOk, AllTablesOk, Live;
    forall p | p in snap && AllRunning(Infos(snap)) ensures Live(snap[p].info) {
      assert Infos(snap)[p] == snap[p].info;
    }
  }

  /** The snapshot after a topic without subtopics entered the table of the one at `p`. */
  ghost function EnterSnap(snap: Snapshot, p: Path, k: string, nt: Topic, i: TopicInfo): Snapshot
    requires p in snap
  {
    snap[p := snap[p].(table := snap[p].table[k := nt])][Child(p, k) := Node(i, map[])]
  }

  lemma EnterTable(nodes: map<Path, Topic>, p: Path, table: map<string, Topic>, c: Path, nt: Topic)
    requires TableOk(nodes, p, table) && c != [] && c !in nodes
    ensures TableOk(nodes[c := nt], p, if p == Parent(c) then table[Last(c) := nt] else table)
  {
    ChildOfParent(c);
  }

  lemma NoChildOfMissing(nodes: map<Path, Topic>, s: EventServer, c: Path, k: string)
    requires Shape(nodes, s) && c != [] && c !in nodes
    ensures Child(c, k) !in nodes
  {
    assert Parent(Child(c, k)) == c && |Child(c, k)| > 1;
  }

  lemma EnterLeaf(nodes: map<Path, Topic>, s: EventServer, c: Path, nt: Topic)
    requires Shape(nodes, s) && c != [] && c !in nodes
    ensures TableOk(nodes[c := nt], c, map[])
  {
    forall k ensures Child(c, k) !in nodes[c := nt] {
      NoChildOfMissing(nodes, s, c, k);
      assert |Child(c, k)| > |c|;
    }
  }

  lemma EnterShape(nodes: map<Path, Topic>, s: EventServer, c: Path, nt: Topic)
    requires Shape(nodes, s) && Entrant(s, nodes, c, nt)
    ensures Shape(nodes[c := nt], s)
  {
    hide Parent, Last, FullName;
  }

  /** The server's table when a subtopic enters. */
  lemma EnterTop(nodes: map<Path, Topic>, s: EventServer, topics: map<string, Topic>, p: Path, k: string, nt: Topic)
    requires Shape(nodes, s) && p in nodes && TableOk(nodes, [], topics) && Entrant(s, nodes, Child(p, k), nt)
    ensures TableOk(nodes[Child(p, k) := nt], [], topics)
  {
    assert Parent(Child(p, k)) == p != [];
    EnterTable(nodes, [], topics, Child(p, k), nt);
  }

  lemma EnterTables(nodes: map<Path, Topic>, snap: Snapshot, p: Path, k: string, nt: Topic, i: TopicInfo)
    requires SameKeys(nodes, snap) && p in snap && Child(p, k) !in nodes && AllTablesOk(nodes, snap)
    requires TableOk(nodes[Child(p, k) := nt], Child(p, k), map[])
    ensures AllTablesOk(nodes[Child(p, k) := nt], EnterSnap(snap, p, k, nt, i))
  {
    var c := Child(p, k);
    assert c != [] && Parent(c) == p && Last(c) == k;
    hide TableOk, Child, Parent, Last;
    forall q | q in nodes ensures TableOk(nodes[c := nt], q, EnterSnap(snap, p, k, nt, i)[q].table) {
      EnterTable(nodes, q, snap[q].table, c, nt);
    }
  }

  lemma EnterInfos(snap: Snapshot, p: Path, k: string, nt: Topic, i: TopicInfo)
    requires p in snap
    ensures Infos(EnterSnap(snap, p, k, nt, i)) == Infos(snap)[Child(p, k) := i]
  {
    hide Child;
  }

  lemma EnterLive(nodes: map<Path, Topic>, snap: Snapshot, p: Path, k: string, nt: Topic, i: TopicInfo)
    requires SameKeys(nodes, snap) && p in snap
    ensures SameKeys(nodes[Child(p, k) := nt], EnterSnap(snap, p, k, nt, i))
    ensures AllLive(snap) && Live(i) ==> AllLive(EnterSnap(snap, p, k, nt, i))
  {
    hide Child;
  }

  ghost predicate SameKeys(nodes: map<Path, Topic>, snap: Snapshot) {
    forall p :: p in snap <==> p in nodes
  }

  ghost predicate AllTablesOk(nodes: map<Path, Topic>, snap: Snapshot) {
    forall p :: p in nodes && p in snap ==> TableOk(nodes, p, snap[p].table)
  }

  ghost predicate AllLive(snap: Snapshot) {
    forall p :: p in snap ==> Live(snap[p].info)
  }

  /** What a topic that may enter the tree at `c` looks like. */
  ghost predicate Entrant(s: EventServer, nodes: map<Path, Topic>, c: Path, nt: Topic) {
    && c != [] && c !in nodes && (|c| > 1 ==> Parent(c) in nodes)
    && nt.path == c && nt.eServer == s && nt.fullName == FullName(c) && nt.name == Last(c)
  }

  lemma EnterWellFormed(s: EventServer, nodes: map<Path, Topic>, topics: map<string, Topic>, runned: bool, snap: Snapshot,
                        p: Path, k: string, nt: Topic, i: TopicInfo)
    requires WellFormed(s, nodes, topics, runned, snap) && p in nodes && p in snap && Entrant(s, nodes, Child(p, k), nt) && (runned ==> Live(i))
    ensures WellFormed(s, nodes[Child(p, k) := nt], topics, runned, EnterSnap(snap, p, k, nt, i))
  {
    assert Child(p, k) !in nodes && Child(p, k) != [];
    hide Shape, TableOk, AllTablesOk, AllLive, EnterSnap, Live, Child, Entrant, SameKeys;
    EnterShape(nodes, s, Child(p, k), nt);
    EnterLeaf(nodes, s, Child(p, k), nt);
    EnterTop(nodes, s, topics, p, k, nt);
    EnterTables(nodes, snap, p, k, nt, i);
    EnterInfos(snap, p, k, nt, i);
    EnterLive(nodes, snap, p, k, nt, i);
  }

  lemma EnterRootTables(nodes: map<Path, Topic>, snap: Snapshot, c: Path, nt: Topic, i: TopicInfo)
    requires [] !in nodes && SameKeys(nodes, snap) && |c| == 1 && c !in nodes && AllTablesOk(nodes, snap)
    requires TableOk(nodes[c := nt], c, map[])
    ensures AllTablesOk(nodes[c := nt], snap[c := Node(i, map[])])
  {
    assert c != [] && Parent(c) == [];
    hide TableOk, Child, Parent, Last;
    forall q | q in nodes ensures TableOk(nodes[c := nt], q, snap[q].table) {
      EnterTable(nodes, q, snap[q].table, c, nt);
    }
  }

  lemma EnterRootInfos(nodes: map<Path, Topic>, snap: Snapshot, c: Path, nt: Topic, i: TopicInfo)
    requires SameKeys(nodes, snap)
    ensures SameKeys(nodes[c := nt], snap[c := Node(i, map[])])
    ensures AllLive(snap) && Live(i) ==> AllLive(snap[c := Node(i, map[])])
    ensures Infos(snap[c := Node(i, map[])]) == Infos(snap)[c := i]
  {
  }

  lemma EnterRootWellFormed(s: EventServer, nodes: map<Path, Topic>, topics: map<string, Topic>, runned: bool, snap: Snapshot,
                            k: string, nt: Topic, i: TopicInfo)
    requires WellFormed(s, nodes, topics, runned, snap) && Entrant(s, nodes, Child([], k), nt) && (runned ==> Live(i))
    ensures WellFormed(s, nodes[Child([], k) := nt], topics[k := nt], runned, snap[Child([], k) := Node(i, map[])])
    ensures Infos(snap[Child([], k) := Node(i, map[])]) == Infos(snap)[Child([], k) := i]
  {
    var c := Child([], k);
    assert c != [] && c !in nodes && Parent(c) == [] && Last(c) == k && |c| == 1 && [] !in nodes;
    hide Shape, TableOk, AllTablesOk, AllLive, Live, Child, Entrant, SameKeys, Parent, Last;
    EnterShape(nodes, s, c, nt);
    EnterLeaf(nodes, s, c, nt);
    EnterTable(nodes, [], topics, c, nt);
    EnterRootTables(nodes, snap, c, nt, i);
    EnterRootInfos(nodes, snap, c, nt, i);
  }

  // ---------------------------------------------------------------- a childless topic leaves

  ghost function LeaveSnap(snap: Snapshot, p: Path, k: string): Snapshot
    requires p in snap
  {
    snap[p := snap[p].(table := snap[p].table - {k})] - {Child(p, k)}
  }

  lemma LeaveTable(nodes: map<Path, Topic>, p: Path, table: map<string, Topic>, c: Path)
    requires TableOk(nodes, p, table) && c != []
    ensures TableOk(nodes - {c}, p, if p == Parent(c) then table - {Last(c)} else table)
  {
    ChildOfParent(c);
  }

  lemma LeaveShape(nodes: map<Path, Topic>, s: EventServer, c: Path)
    requires Shape(nodes, s) && c != [] && TableOk(nodes, c, map[])
    ensures Shape(nodes - {c}, s)
  {
    forall q | q in nodes && |q| > 1 ensures Parent(q) != c {
      ChildOfParent(q);
    }
    hide Parent, Last, FullName;
  }

  lemma LeaveTables(nodes: map<Path, Topic>, snap: Snapshot, p: Path, k: string)
    requires SameKeys(nodes, snap) && p in snap && AllTablesOk(nodes, snap)
    ensures SameKeys(nodes - {Child(p, k)}, LeaveSnap(snap, p, k)) && AllTablesOk(nodes - {Child(p, k)}, LeaveSnap(snap, p, k))
  {
    var c := Child(p, k);
    assert c != [] && Parent(c) == p && Last(c) == k;
    hide TableOk, Child, Parent, Last;
    forall q | q in nodes && q != c ensures TableOk(nodes - {c}, q, LeaveSnap(snap, p, k)[q].table) {
      LeaveTable(nodes, q, snap[q].table, c);
    }
  }

  lemma LeaveInfos(snap: Snapshot, p: Path, k: string)
    requires p in snap
    ensures Infos(LeaveSnap(snap, p, k)) == Infos(snap) - {Child(p, k)}
    ensures AllLive(snap) ==> AllLive(LeaveSnap(snap, p, k))
  {
    hide Child;
  }

  lemma LeaveWellFormed(s: EventServer, nodes: map<Path, Topic>, topics: map<string, Topic>, runned: bool, snap: Snapshot, p: Path, k: string)
    requires WellFormed(s, nodes, topics, runned, snap) && p != [] && p in snap && TableOk(nodes, Child(p, k), map[])
    ensures WellFormed(s, nodes - {Child(p, k)}, topics, runned, LeaveSnap(snap, p, k))
  {
    var c := Child(p, k);
    assert c != [] && Parent(c) == p;
    hide Shape, TableOk, AllTablesOk, AllLive, LeaveSnap, Child, SameKeys, Parent;
    LeaveShape(nodes, s, c);
    LeaveTable(nodes, [], topics, c);
    LeaveTables(nodes, snap, p, k);
    LeaveInfos(snap, p, k);
  }

  lemma LeaveRootTables(nodes: map<Path, Topic>, snap: Snapshot, c: Path)
    requires [] !in nodes && SameKeys(nodes, snap) && |c| == 1 && AllTablesOk(nodes, snap)
    ensures SameKeys(nodes - {c}, snap - {c}) && AllTablesOk(nodes - {c}, snap - {c})
    ensures AllLive(snap) ==> AllLive(snap - {c})
    ensures Infos(snap - {c}) == Infos(snap) - {c}
  {
    assert Parent(c) == [];
    hide TableOk, Child, Parent, Last;
    forall q | q in nodes && q != c ensures TableOk(nodes - {c}, q, snap[q].table) {
      LeaveTable(nodes, q, snap[q].table, c);
    }
  }

  lemma LeaveRootWellFormed(s: EventServer, nodes: map<Path, Topic>, topics: map<string, Topic>, runned: bool, snap: Snapshot, k: string)
    requires WellFormed(s, nodes, topics, runned, snap) && TableOk(nodes, Child([], k), map[])
    ensures WellFormed(s, nodes - {Child([], k)}, topics - {k}, runned, snap - {Child([], k)})
    ensures Infos(snap - {Child([], k)}) == Infos(snap) - {Child([], k)}
  {
    var c := Child([], k);
    assert c != [] && Parent(c) == [] && Last(c) == k && |c| == 1 && [] !in nodes;
    hide Shape, TableOk, AllTablesOk, AllLive, Child, SameKeys, Parent, Last;
    LeaveShape(nodes, s, c);
    LeaveTable(nodes, [], topics, c);
    LeaveRootTables(nodes, snap, c);
  }

  // ---------------------------------------------------------------- paths of names

  lemma PathCons(p: Path, topics: seq<string>)
    requires topics != []
    ensures p + topics == Child(p, topics[0]) + topics[1..] && Child(p, topics[0]) <= p + topics
    ensures Child(p, topics[0]) != []
    ensures |topics| == 1 ==> p + topics == Child(p, topics[0])
  {
  }

  lemma PathOfName(name: string)
    requires Segments(name) != []
    ensures var tt := Segments(name);
            var key := ToAbsolute(tt[0]);
            && LookupPath(name) == Child([], key) + tt[1..] && Child([], key) <= LookupPath(name) && Child([], key) != []
            && (|tt| == 1 ==> LookupPath(name) == Child([], key))
  {
    SegmentsAreSegments(name);
    CanonicalPath(Segments(name));
  }

  lemma {:induction false} AbsoluteSnoc(segs: seq<string>, k: string)
    ensures Absolute(segs + [k]) == Absolute(segs) + "/" + k
  {
    if segs == [] {
      assert [] + [k] == [k];
      assert [k][1..] == [];
    } else {
      AbsoluteSnoc(segs[1..], k);
      assert (segs + [k])[0] == segs[0] && (segs + [k])[1..] == segs[1..] + [k];
    }
  }

  lemma FullNameChild(p: Path, k: string)
    ensures p != [] ==> FullName(Child(p, k)) == FullName(p) + "/" + k
    ensures p == [] ==> FullName(Child(p, k)) == k
  {
    if p != [] {
      AbsoluteSnoc(p[1..], k);
      assert Child(p, k)[1..] == p[1..] + [k];
    }
  }

  // ---------------------------------------------------------------- adding under a branch

  lemma AddHere(p: Path, k: string)
    ensures p + [] + [k] == Child(p, k) && p + [] == p
  {
  }

  lemma AddBelow(p: Path, base: seq<string>, k: string)
    requires base != []
    ensures p + base + [k] == Child(p, base[0]) + base[1..] + [k] && p + base == Child(p, base[0]) + base[1..]
  {
  }

  /** A missing first topic of the branch leaves no place for the new one. */
  lemma NoPlace(t: Tree, p: Path, base: seq<string>, k: string)
    requires Closed(t) && p != [] && base != [] && Child(p, base[0]) !in t
    ensures !CanAdd(t, p + base + [k]) && p + base !in t
  {
    assert Parent(p + base + [k]) == p + base;
    assert Child(p, base[0]) <= p + base;
    if p + base in t {
      PrefixIn(t, Child(p, base[0]), p + base);
    }
  }

  lemma TargetRoot(name: string, branch: string)
    requires Base(name, branch) == []
    ensures Target(name, branch) == Child([], ToAbsolute(Leaf(name)))
    ensures FullName(Target(name, branch)) == ToAbsolute(Leaf(name)) && Last(Target(name, branch)) == ToAbsolute(Leaf(name))
    ensures |Target(name, branch)| == 1
  {
  }

  lemma TargetBelow(name: string, branch: string)
    requires Base(name, branch) != []
    ensures var base := Base(name, branch);
            && Target(name, branch) == Child([], ToAbsolute(base[0])) + base[1..] + [Leaf(name)]
            && TopicPath(base) == Child([], ToAbsolute(base[0])) + base[1..]
  {
    TargetShape(name, branch);
    BaseIsSegments(name, branch);
    CanonicalPath(Base(name, branch));
  }

  /** What `AddTopic` reports. */
  function AddResult(t: Tree, runned: bool, name: string, branch: string): Result {
    if !runned then Err(NotRunning)
    else if Trim(name) == "" then Err(EmptyName)
    else if CanAdd(t, Target(name, branch)) then Ok
    else if Base(name, branch) == [] || TopicPath(Base(name, branch)) in t then Err(Duplicate)
    else Err(NoTopic)
  }

  function AddedTopic(t: Tree, runned: bool, name: string, branch: string): Tree {
    if AddResult(t, runned, name, branch).Ok? then t[Target(name, branch) := Fresh(Target(name, branch), true)] else t
  }

  /** Moving leading segments between name and branch changes neither the result nor the tree. */
  lemma AddDependsOnSegments(t: Tree, runned: bool, name: string, branch: string, name': string, branch': string)
    requires Trim(name) != "" && Trim(name') != "" && WellPlaced(name, branch) && WellPlaced(name', branch')
    requires Segments(branch) + Segments(name) == Segments(branch') + Segments(name')
    ensures AddResult(t, runned, name, branch) == AddResult(t, runned, name', branch')
    ensures AddedTopic(t, runned, name, branch) == AddedTopic(t, runned, name', branch')
  {
    hide Segments, Trim, WellPlaced, Base, Target, TopicPath, Fresh;
    TargetDependsOnSegments(name, branch, name', branch');
    BaseIsFront(name, branch);
    BaseIsFront(name', branch');
  }

  /** Adding a topic keeps all names of the tree well formed exactly when the new name is well placed. */
  lemma AddKeepsCanonical(t: Tree, runned: bool, name: string, branch: string)
    requires AllCanonical(t) && AddResult(t, runned, name, branch).Ok?
    ensures AllCanonical(AddedTopic(t, runned, name, branch)) <==> WellPlaced(name, branch)
  {
    hide Canonical, WellPlaced, Target, Trim;
    CanonicalTarget(name, branch);
    assert Target(name, branch) in AddedTopic(t, runned, name, branch);
  }

  /** What `AddTopicQueue` reports. */
  function QueueResult(t: Tree, runned: bool, topicsQueue: string, branch: string): Result {
    var s := Segments(topicsQueue);
    if !BranchOk(t, branch) then Err(NoTopic)
    else if s == [] then Ok
    else if !runned then Err(NotRunning)
    else if TopicPath(Segments(Trim(branch)) + s[..1]) in t then Err(Duplicate)
    else Ok
  }

  lemma BranchMissing(t: Tree, branch: string)
    requires Trim(branch) != "" && Trim(branch) != "/" && LookupPath(Trim(branch)) !in t
    ensures !BranchOk(t, branch)
  {
  }

  lemma BranchFound(t: Tree, branch: string)
    requires Trim(branch) == "" || Trim(branch) == "/" || LookupPath(Trim(branch)) in t
    ensures BranchOk(t, branch)
  {
  }

  lemma NothingDone(pieces: seq<string>, queue: string, base: seq<string>)
    ensures Clean(pieces[..0]) == [] && [] <= Segments(queue) && base + [] == base
    ensures forall t: Tree :: AddedQueue(t, base, []) == t
  {
  }

  lemma AllDone(pieces: seq<string>, queue: string)
    requires pieces == Split(queue)
    ensures Clean(pieces) == Segments(queue)
  {
  }

  /** The next piece of the queue is dropped or is its next segment. */
  lemma PieceNext(pieces: seq<string>, i: nat, queue: string)
    requires pieces == Split(queue) && i < |pieces|
    ensures Trim(pieces[i]) == "" ==> Clean(pieces[..i + 1]) == Clean(pieces[..i])
    ensures Trim(pieces[i]) != "" ==> Clean(pieces[..i + 1]) == Clean(pieces[..i]) + [Trim(pieces[i])]
    ensures Trim(pieces[i]) != "" ==> IsSegment(Trim(pieces[i]))
    ensures Clean(pieces[..i + 1]) <= Segments(queue)
  {
    hide Clean, Trim, Split;
    CleanSnoc(pieces, i);
    CleanOne(pieces[i]);
    var front, rest := pieces[..i + 1], pieces[i + 1..];
    assert pieces == front + rest;
    CleanJoin(front, rest);
    PiecesSlashFree(queue);
    TrimFixed(pieces[i]);
  }

  // ---------------------------------------------------------------- removing

  /** The caller's string is the key of the root topic it names; below the root any spelling works. */
  predicate RemovesByKey(topic: string) {
    |LookupPath(topic)| != 1 || topic == LookupPath(topic)[0]
  }

  /** What `RemoveTopic` reports. */
  ghost function RemoveResult(t: Tree, runned: bool, topic: string, recursive: bool): Result {
    if !runned then Err(NotRunning)
    else if LookupPath(topic) !in t then Err(NoTopic)
    else if Removable(t, LookupPath(topic), recursive) then Ok
    else Err(HasSubtopics)
  }

  lemma FoundPieces(name: string)
    requires LookupPath(name) != []
    ensures var segs := Segments(name); segs != [] && Split(FullName(LookupPath(name)))[1..] == segs && |LookupPath(name)| == |segs|
  {
    var segs := Segments(name);
    assert LookupPath(name) == TopicPath(segs);
    assert segs == [] ==> TopicPath(segs) == [];
    hide *;
    BaseLength(segs);
    SegmentsAreSegments(name);
    CanonicalPath(segs);
    SplitAbsolute(segs);
    assert ([""] + segs)[1..] == segs;
  }

  lemma RootName(name: string)
    requires |LookupPath(name)| == 1
    ensures LookupPath(name) == Child([], LookupPath(name)[0])
  {
  }

  /** The name built from all but the last segment leads to the parent. */
  lemma ParentName(name: string)
    requires |Segments(name)| > 1
    ensures var segs := Segments(name);
            var front := Absolute(segs[..|segs| - 1]);
            && LookupPath(front) == Parent(LookupPath(name)) && segs[|segs| - 1] == Last(LookupPath(name)) != ""
  {
    SegmentsAreSegments(name);
    LookupIs(name);
    hide *;
    ParentPath(Segments(name));
    var segs := Segments(name);
    LookupIs(Absolute(segs[..|segs| - 1]));
  }

  lemma LookupIs(name: string)
    ensures LookupPath(name) == TopicPath(Segments(name))
    ensures Segments(name) != [] ==> LookupPath(name) != []
  {
  }

  lemma ParentPath(segs: seq<string>)
    requires |segs| > 1 && AllSegments(segs)
    ensures var front := segs[..|segs| - 1];
            && TopicPath(segs) != [] && Segments(Absolute(front)) == front
            && TopicPath(front) == Parent(TopicPath(segs)) && segs[|segs| - 1] == Last(TopicPath(segs)) != ""
  {
    var front, last := segs[..|segs| - 1], segs[|segs| - 1];
    assert AllSegments(front) && last != "";
    hide *;
    SegmentsOfAbsolute(front);
    PathSnoc(front, last);
    assert front + [last] == segs;
    SnocParts(TopicPath(front), last);
  }

  lemma SnocParts(p: Path, k: string)
    ensures Parent(p + [k]) == p && Last(p + [k]) == k
  {
  }

  /** The loop that joins the names above a topic. */
  method BranchName(tt: seq<string>) returns (tn: string)
    ensures tn == Absolute(tt)
  {
    tn := "";
    assert tt[..0] == [];
    for i := 0 to |tt|
      invariant tn == Absolute(tt[..i])
    {
      AbsoluteSnoc(tt[..i], tt[i]);
      assert tt[..i + 1] == tt[..i] + [tt[i]];
      tn := tn + "/" + tt[i];
    }
    assert tt[..|tt|] == tt;
  }

  ghost function Stopped(snap: Snapshot, p: Path): Snapshot
    requires p in snap
  {
    snap[p := snap[p].(info := snap[p].info.(cancelled := true))]
  }

  lemma InfosStopped(snap: Snapshot, p: Path)
    requires p in snap
    ensures Infos(Stopped(snap, p)) == Infos(snap)[p := Infos(snap)[p].(cancelled := true)]
  {
  }

  lemma LastOfRoot(p: Path)
    requires |p| == 1
    ensures Last(p) == p[0]
  {
  }

  lemma RootStays(t: Tree, p: Path)
    requires p in t
    ensures p in WithoutBelow(t, p) && WithoutBelow(t, p)[p] == t[p]
  {
  }

  // ---------------------------------------------------------------- subscribing

  ghost function SubSnap(snap: Snapshot, p: Path, u: Uuid, rec: SubRec): Snapshot
    requires p in snap
  {
    snap[p := snap[p].(info := AddSub(snap[p].info, u, rec))]
  }

  lemma SubsFacts(s: EventServer, nodes: map<Path, Topic>, topics: map<string, Topic>, runned: bool, snap: Snapshot, p: Path, u: Uuid, rec: SubRec)
    requires WellFormed(s, nodes, topics, runned, snap) && p in snap
    ensures WellFormed(s, nodes, topics, runned, SubSnap(snap, p, u, rec))
    ensures Infos(SubSnap(snap, p, u, rec)) == Infos(snap)[p := AddSub(Infos(snap)[p], u, rec)]
  {
    hide TableOk, Shape;
  }

  ghost function UnsubSnap(snap: Snapshot, p: Path, u: Uuid): Snapshot
    requires p in snap
  {
    snap[p := snap[p].(info := snap[p].info.(subs := snap[p].info.subs - {u}))]
  }

  lemma UnsubsFacts(s: EventServer, nodes: map<Path, Topic>, topics: map<string, Topic>, runned: bool, snap: Snapshot, p: Path, u: Uuid)
    requires WellFormed(s, nodes, topics, runned, snap) && p in snap
    ensures WellFormed(s, nodes, topics, runned, UnsubSnap(snap, p, u))
    ensures Infos(UnsubSnap(snap, p, u)) == Unsubscribed(Infos(snap), p, u)
  {
    hide TableOk, Shape;
  }

  class Topic {
    const eServer: EventServer
    ghost const path: Path
    const fullName: string
    const name: string
    var subtopics: map<string, Topic>
    var subs: map<Uuid, seq<SubRec>>
    var runned: bool
    var cancelled: bool

    constructor (eServer: EventServer, ghost path: Path, fullName: string, name: string)
      ensures this.eServer == eServer && this.path == path && this.fullName == fullName && this.name == name
      ensures subtopics == map[] && subs == map[] && !runned && !cancelled
    {
      this.eServer, this.path, this.fullName, this.name := eServer, path, fullName, name;
      subtopics, subs, runned, cancelled := map[], map[], false, false;
    }

    ghost function Info(): TopicInfo
      reads this
    {
      TopicInfo(fullName, runned, cancelled, subs)
    }

    /** This topic is in its server's tree. */
    ghost predicate Placed()
      reads eServer
    {
      path in eServer.Nodes && eServer.Nodes[path] == this
    }

    /** Starts the topic's loop with a context of its own, unless it runs already. */
    method Run()
      modifies `runned, `cancelled
      ensures runned && cancelled == (old(runned) && old(cancelled))
    {
      if runned {
        return;
      }
      runned, cancelled := true, false;
    }

    /** The new topic goes under the last topic of `base`, unless that one is missing or has it. */
    method AddSubtopic(name: string, base: seq<string>) returns (r: Result)
      requires eServer.Valid() && eServer.runned && Placed()
      modifies eServer`Nodes, eServer.Nodes.Values
      ensures eServer.Valid() && InPlace(old(eServer.Nodes), eServer.Nodes) && fresh(eServer.Nodes.Values - old(eServer.Nodes.Values))
      ensures r == if CanAdd(old(eServer.View()), path + base + [name]) then Ok
                   else if path + base in old(eServer.View()) then Err(Duplicate) else Err(NoTopic)
      ensures eServer.View() == if r.Ok? then old(eServer.View())[path + base + [name] := Fresh(path + base + [name], true)]
                                else old(eServer.View())
      decreases |base|
    {
      hide *;
      InPlaceItself(eServer.Nodes);
      eServer.PlacedIs(this);
      eServer.NodeAt(path);
      if base == [] {
        AddHere(path, name);
        eServer.ChildLink(path, name);
        eServer.MayEnter(this, name);
        if name in subtopics {
          return Err(Duplicate);
        }
        FullNameChild(path, name);
        var nt := new Topic(eServer, Child(path, name), fullName + "/" + name, name);
        if runned {
          nt.Run();
        }
        eServer.NewTopic(nt, Child(path, name));
        eServer.Enter(this, nt, name);
        return Ok;
      }
      AddBelow(path, base, name);
      eServer.ChildLink(path, base[0]);
      if base[0] !in subtopics {
        eServer.NoPlaceHere(path, base, name);
        return Err(NoTopic);
      }
      r := subtopics[base[0]].AddSubtopic(name, base[1..]);
    }

    /** No subtopic has subtopics of its own. */
    method CouldBeDeleted() returns (b: bool)
      requires eServer.Valid() && Placed()
      ensures b <==> NoneBelow(eServer.View(), path, 1)
    {
      hide *;
      eServer.PlacedIs(this);
      var todo := subtopics.Keys;
      while todo != {}
        invariant todo <= subtopics.Keys
        invariant forall k :: k in subtopics && k !in todo ==> NoneBelow(eServer.View(), Child(path, k), 0)
      {
        var k :| k in todo;
        eServer.ChildLink(path, k);
        eServer.NoChildren(subtopics[k]);
        if |subtopics[k].subtopics| > 0 {
          eServer.Grandchild(path, k);
          return false;
        }
        todo := todo - {k};
      }
      eServer.NoGrandchildren(path);
      return true;
    }

    /** One round of `removeSubtopics`: everything below the child, then the child itself. */
    method RemoveOne(st: Topic, k: string, recursive: bool, ghost t0: Tree, ghost gone: set<string>)
      requires eServer.Valid() && eServer.runned && Placed() && k in subtopics && subtopics[k] == st
      requires eServer.View() == Pruned(t0, path, gone) && k !in gone
      requires recursive || NoneBelow(t0, Child(path, k), 0)
      modifies eServer`Nodes, eServer.Nodes.Values
      ensures eServer.Valid() && Placed() && InPlace(eServer.Nodes, old(eServer.Nodes))
      ensures eServer.View() == Pruned(t0, path, gone + {k}) && subtopics == old(subtopics) - {k}
      ensures forall q :: q in old(eServer.Nodes) && q !in eServer.Nodes ==> old(eServer.Nodes[q]).cancelled
      decreases BelowSet(eServer.Nodes, path), 0
    {
      hide *;
      ghost var c, nodes, table := Child(path, k), eServer.Nodes, subtopics;
      eServer.PlacedIs(this);
      eServer.ChildLink(path, k);
      eServer.TableAt(path);
      BelowChild(nodes, path, k);
      if !recursive {
        NoneBelowPruned(t0, path, gone, c, 0);
      }
      var r := st.RemoveSubtopics("", recursive);
      assert r.Ok?;
      ghost var rest := eServer.Nodes;
      eServer.StaysPlaced(this, nodes, Pruned(t0, path, gone), c);
      eServer.PlacedIs(this);
      eServer.PlacedIs(st);
      eServer.ChildrenGone(c, Pruned(t0, path, gone));
      eServer.SameTable(path, k, nodes, table, Pruned(t0, path, gone));
      eServer.Leave(this, st, k);
      InPlaceMinus(rest, nodes, c);
      eServer.PlacedBack(this, rest, c);
      PruneStep(t0, path, gone, k);
    }

    /** Removes one subtopic, or all of them for the empty name, with everything below. */
    method RemoveSubtopics(topic: string, recursive: bool) returns (r: Result)
      requires eServer.Valid() && eServer.runned && Placed() && (topic != "" ==> topic in subtopics)
      modifies eServer`Nodes, eServer.Nodes.Values
      ensures eServer.Valid() && Placed() && InPlace(eServer.Nodes, old(eServer.Nodes))
      ensures r == if recursive || (if topic != "" then NoneBelow(old(eServer.View()), Child(path, topic), 0) else NoneBelow(old(eServer.View()), path, 1))
                   then Ok else Err(HasSubtopics)
      ensures r.Err? ==> eServer.Nodes == old(eServer.Nodes) && eServer.View() == old(eServer.View())
      ensures r.Ok? ==> eServer.View() == if topic != "" then WithoutSubtree(old(eServer.View()), Child(path, topic)) else WithoutBelow(old(eServer.View()), path)
      ensures forall q :: q in old(eServer.Nodes) && q !in eServer.Nodes ==> old(eServer.Nodes[q]).cancelled
      decreases BelowSet(eServer.Nodes, path), 2
    {
      hide *;
      eServer.PlacedIs(this);
      InPlaceItself(eServer.Nodes);
      eServer.BelowLinked(this);
      if topic != "" {
        eServer.ChildLink(path, topic);
        eServer.NoChildren(subtopics[topic]);
      }
      if !recursive {
        if topic != "" {
          if |subtopics[topic].subtopics| > 0 {
            return Err(HasSubtopics);
          }
        } else {
          var b := CouldBeDeleted();
          if !b {
            return Err(HasSubtopics);
          }
        }
      }
      ghost var t0 := eServer.View();
      ghost var chosen := if topic == "" then subtopics.Keys else {topic};
      eServer.ChosenChildless(this, topic, chosen, recursive);
      if topic != "" {
        PruneOne(t0, path, topic);
      } else {
        PruneAll(t0, path, chosen);
      }
      RemoveChosen(topic, recursive, chosen);
      return Ok;
    }

    /** The loop of `removeSubtopics`. */
    method RemoveChosen(topic: string, recursive: bool, ghost chosen: set<string>)
      requires eServer.Valid() && eServer.runned && Placed()
      requires chosen == (if topic == "" then subtopics.Keys else {topic}) && chosen <= subtopics.Keys
      requires recursive || forall k :: k in chosen ==> NoneBelow(eServer.View(), Child(path, k), 0)
      modifies eServer`Nodes, eServer.Nodes.Values
      ensures eServer.Valid() && Placed() && InPlace(eServer.Nodes, old(eServer.Nodes))
      ensures eServer.View() == Pruned(old(eServer.View()), path, chosen)
      ensures forall q :: q in old(eServer.Nodes) && q !in eServer.Nodes ==> old(eServer.Nodes[q]).cancelled
      decreases BelowSet(eServer.Nodes, path), 1
    {
      hide *;
      ghost var t0, nodes := eServer.View(), eServer.Nodes;
      eServer.PathsKnown();
      InPlaceItself(nodes);
      PruneNone(t0, path);
      var todo := subtopics.Keys;
      ghost var gone: set<string> := {};
      while todo != {}
        invariant eServer.Valid() && Placed() && InPlace(eServer.Nodes, nodes)
        invariant todo <= subtopics.Keys
        invariant gone !! todo && gone + todo >= chosen >= gone
        invariant eServer.View() == Pruned(t0, path, gone)
        invariant forall q :: q in nodes && q !in eServer.Nodes ==> nodes[q].cancelled
        decreases todo
      {
        var k :| k in todo;
        eServer.PlacedIs(this);
        eServer.ChildLink(path, k);
        var st := subtopics[k];
        todo := todo - {k};
        if topic != "" && st.name != topic {
          continue;
        }
        ghost var before := eServer.Nodes;
        BelowSubset(before, nodes, path);
        ValuesInPlace(before, nodes);
        eServer.RemovedOutside(nodes);
        RemoveOne(st, k, recursive, t0, gone);
        InPlaceOn(eServer.Nodes, before, nodes);
        gone := gone + {k};
      }
      assert gone == chosen;
    }

    /** One more entry on the subscriber's list. */
    method AddSubscription(subscriber: Uuid, rec: SubRec)
      requires eServer.Valid() && Placed()
      modifies `subs
      ensures eServer.Valid() && path in old(eServer.View())
      ensures eServer.View() == old(eServer.View())[path := AddSub(old(eServer.View())[path], subscriber, rec)]
    {
      hide *;
      ghost var snap := eServer.Snap();
      eServer.PlacedIs(this);
      eServer.SubscriptionFacts(path, subscriber, rec);
      eServer.OnlyAt(path);
      PushSub(subscriber, rec);
      eServer.ValidFrom(SubSnap(snap, path, subscriber, rec));
    }

    method PushSub(subscriber: Uuid, rec: SubRec)
      requires Placed() && forall q :: q in eServer.Nodes && q != path ==> eServer.Nodes[q] != this
      modifies `subs
      ensures path in old(eServer.Snap()) && eServer.Snap() == SubSnap(old(eServer.Snap()), path, subscriber, rec)
    {
      var s := if subscriber in subs then subs[subscriber] else [];
      subs := subs[subscriber := s + [rec]];
    }

    /** A subscription here and, if it is recursive, on the subtopics as deep as it asks. It fails
        exactly when some topic it reaches does not run; what was subscribed before that stays. */
    method Subscribe(subscriber: Uuid, sr: SubscrReq) returns (r: Result)
      requires eServer.Valid() && Placed()
      modifies eServer.Nodes.Values`subs
      ensures eServer.Valid()
      ensures r == if AllRunned(old(eServer.View()), path, sr.Reach()) then Ok else Err(NotRunning)
      ensures r.Ok? ==> eServer.View() == Subscribed(old(eServer.View()), path, sr.Reach(), subscriber, Rec(sr))
      ensures r.Err? ==> PartlySubscribed(old(eServer.View()), eServer.View(), path, sr.Reach(), subscriber, Rec(sr))
      ensures r.Ok? ==> AllGain(old(eServer.View()), eServer.View(), subscriber, path, if sr.recursive then sr.depth else 0,
                                SubRec(sr.topic, sr.subCh, sr.startPos, sr.filters))
      decreases sr.depth
    {
      hide *;
      eServer.PlacedIs(this);
      eServer.NodeAt(path);
      eServer.InfoAt(path);
      ghost var t0, rec := eServer.View(), Rec(sr);
      PartlyHere(t0, path, sr.Reach(), subscriber, rec);
      if !runned {
        return Err(NotRunning);
      }
      ReachOf(sr);
      AddSubscription(subscriber, SubRec(sr.topic, sr.subCh, sr.startPos, sr.filters));
      SubscribedHere(t0, path, sr.Reach(), subscriber, rec);
      eServer.BelowLinked(this);
      eServer.SameBelow(t0, path, rec, subscriber);
      if sr.recursive && sr.depth > 0 {
        var deeper := sr.(depth := sr.depth - 1);
        ghost var done: set<string> := {};
        var todo := subtopics.Keys;
        while todo != {}
          invariant eServer.Valid() && todo <= subtopics.Keys && done == subtopics.Keys - todo
          invariant eServer.View() == SubscribedPart(t0, path, done, sr.depth, subscriber, rec)
          invariant forall k :: k in done ==> AllRunned(t0, Child(path, k), sr.depth - 1)
          decreases todo
        {
          var k :| k in todo;
          eServer.ChildLink(path, k);
          RunnedChild(t0, path, done, k, sr.depth, subscriber, rec);
          r := subtopics[k].Subscribe(subscriber, deeper);
          if r.Err? {
            PartlyChild(t0, path, done, k, sr.depth, subscriber, rec, eServer.View());
            return;
          }
          SubscribedChild(t0, path, done, k, sr.depth, subscriber, rec);
          todo := todo - {k};
          done := done + {k};
        }
        SubscribedAll(t0, path, done, sr.depth, subscriber, rec);
        RunnedAll(t0, path, done, sr.depth);
      }
      SubscribedGains(t0, path, sr, subscriber);
      return Ok;
    }

    /** Cancels all the subscriber's subscriptions on this topic. */
    method Unsubscribe(subscriber: Uuid) returns (r: Result)
      requires eServer.Valid() && Placed()
      modifies `subs
      ensures eServer.Valid() && path in old(eServer.View())
      ensures eServer.runned ==> r == (if subscriber in old(subs) then Ok else Err(NotSubscribed))
      ensures eServer.View() == if r.Ok? then Unsubscribed(old(eServer.View()), path, subscriber) else old(eServer.View())
      ensures subs == if r.Ok? then old(subs) - {subscriber} else old(subs)
    {
      hide *;
      ghost var snap := eServer.Snap();
      eServer.PlacedIs(this);
      eServer.NodeAt(path);
      eServer.UnsubscriptionFacts(path, subscriber);
      eServer.OnlyAt(path);
      if !runned {
        return Err(NotRunning);
      }
      if subscriber !in subs {
        return Err(NotSubscribed);
      }
      DropSubs(subscriber);
      eServer.ValidFrom(UnsubSnap(snap, path, subscriber));
      return Ok;
    }

    method DropSubs(subscriber: Uuid)
      requires Placed() && forall q :: q in eServer.Nodes && q != path ==> eServer.Nodes[q] != this
      modifies `subs
      ensures path in old(eServer.Snap()) && eServer.Snap() == UnsubSnap(old(eServer.Snap()), path, subscriber)
      ensures subs == old(subs) - {subscriber}
    {
      subs := subs - {subscriber};
    }

    method HasSubtopic(topics: seq<string>) returns (st: Topic?)
      requires eServer.Valid() && Placed() && topics != []
      ensures st != null <==> path + topics in eServer.Nodes
      ensures st != null ==> st == eServer.Nodes[path + topics]
      decreases |topics|
    {
      hide *;
      PathCons(path, topics);
      eServer.PlacedIs(this);
      eServer.ChildLink(path, topics[0]);
      if topics[0] !in subtopics {
        eServer.Prefix(Child(path, topics[0]), path + topics);
        return null;
      }
      st := subtopics[topics[0]];
      if |topics| > 1 {
        st := st.HasSubtopic(topics[1..]);
      }
    }
  }

  class EventServer {
    var topics: map<string, Topic>
    var runned: bool
    ghost var Nodes: map<Path, Topic>

    /** The contents of every topic of the tree. */
    ghost function Snap(): Snapshot
      reads this, Nodes.Values
    {
      map p | p in Nodes ::
        var t := Nodes[p];
        Node(TopicInfo(t.fullName, t.runned, t.cancelled, t.subs), t.subtopics)
    }

    ghost predicate Valid()
      reads this, Nodes.Values
    {
      WellFormed(this, Nodes, topics, runned, Snap())
    }

    ghost function View(): Tree
      reads this, Nodes.Values
    {
      Infos(Snap())
    }

    // ---- what the invariant says of one topic

    lemma ViewClosed()
      requires Valid()
      ensures Closed(View()) && View().Keys == Nodes.Keys
    {
    }

    lemma Prefix(p: Path, q: Path)
      requires Valid() && p != [] && p <= q
      ensures q in Nodes ==> p in Nodes
    {
      ViewClosed();
      if q in View() {
        PrefixIn(View(), p, q);
      }
    }

    lemma NodeAt(p: Path)
      requires Valid() && p in Nodes
      ensures Nodes[p].Placed() && Nodes[p].eServer == this && Nodes[p].path == p && p != []
      ensures Nodes[p].fullName == FullName(p) && Nodes[p].name == Last(p)
      ensures runned ==> Nodes[p].runned && !Nodes[p].cancelled
      ensures |p| > 1 ==> Parent(p) in Nodes
    {
      assert Snap()[p].info == Nodes[p].Info();
    }

    lemma InfoAt(p: Path)
      requires Valid() && p in Nodes
      ensures p in View() && View()[p].runned == Nodes[p].runned
    {
    }

    /** On a running server every topic runs. */
    lemma LiveRunned(p: Path, reach: int)
      requires Valid() && runned
      ensures AllRunned(View(), p, reach)
    {
    }

    lemma SameBelow(t: Tree, p: Path, rec: SubRec, u: Uuid)
      requires p in t && View() == t[p := AddSub(t[p], u, rec)] && p in Nodes
      requires forall q :: q in View() && p <= q && q != p ==> q[|p|] in Nodes[p].subtopics
      ensures forall q :: q in t && p <= q && q != p ==> q[|p|] in Nodes[p].subtopics
    {
      hide AddSub;
    }

    lemma PlacedIs(t: Topic)
      requires t.eServer == this && t.Placed()
      ensures t.path in Nodes && Nodes[t.path] == t
    {
    }

    /** A topic's table of subtopics and the tree agree. */
    lemma ChildLink(p: Path, k: string)
      requires Valid() && p in Nodes
      ensures k in Nodes[p].subtopics <==> Child(p, k) in Nodes
      ensures k in Nodes[p].subtopics ==>
                var st := Nodes[p].subtopics[k];
                st == Nodes[Child(p, k)] && st.Placed() && st.eServer == this && st.path == Child(p, k) && st.name == k
    {
      assert TableOk(Nodes, p, Snap()[p].table);
      if Child(p, k) in Nodes {
        NodeAt(Child(p, k));
      }
    }

    lemma RootLink(k: string)
      requires Valid()
      ensures k in topics <==> Child([], k) in Nodes
      ensures k in topics ==>
                var t := topics[k];
                t == Nodes[Child([], k)] && t.Placed() && t.eServer == this && t.path == Child([], k) && t.name == k
    {
      if Child([], k) in Nodes {
        NodeAt(Child([], k));
      }
    }

    lemma NoEmptyPath(name: string)
      requires Valid() && Segments(name) == []
      ensures LookupPath(name) !in Nodes
    {
      assert LookupPath(name) == [];
    }

    // ---- lookup

    constructor ()
      ensures Valid() && View() == map[] && !runned
    {
      topics, runned, Nodes := map[], false, map[];
    }

    /** Looking a name up: the topic on the path of its segments. */
    method FindTopic(name: string) returns (t: Topic?)
      requires Valid()
      ensures t != null <==> LookupPath(name) in Nodes
      ensures t != null ==> t == Nodes[LookupPath(name)] && t.Placed() && t.eServer == this && t.path == LookupPath(name)
    {
      hide *;
      var tt := Parse(name);
      if |tt| == 0 {
        NoEmptyPath(name);
        return null;
      }
      var key := ToAbsolute(tt[0]);
      PathOfName(name);
      RootLink(key);
      if key !in topics {
        Prefix(Child([], key), LookupPath(name));
        return null;
      }
      t := topics[key];
      if |tt| > 1 {
        t := t.HasSubtopic(tt[1..]);
        if t != null {
          NodeAt(LookupPath(name));
        }
      }
    }

    method HasTopic(name: string) returns (has: bool)
      requires Valid()
      ensures has <==> LookupPath(name) in View()
    {
      var t := FindTopic(name);
      has := t != null;
    }

    /** With well-formed names every topic is found under its own full name, and under no other's. */
    lemma FoundByFullName(p: Path)
      requires Valid() && p in Nodes && Canonical(p)
      ensures LookupPath(Nodes[p].fullName) == p
      ensures forall q :: q in Nodes && Canonical(q) && Nodes[q].fullName == Nodes[p].fullName ==> q == p
    {
      NodeAt(p);
      FullNameLookup(p);
      forall q | q in Nodes && Canonical(q) && Nodes[q].fullName == Nodes[p].fullName ensures q == p {
        NodeAt(q);
        FullNamesUnique(p, q);
      }
    }

    // ---- entering a topic

    lemma ValidFrom(snap: Snapshot)
      requires Snap() == snap && WellFormed(this, Nodes, topics, runned, snap)
      ensures Valid() && View() == Infos(snap)
    {
    }

    /** The two assignments that enter a subtopic. */
    method LinkChild(t: Topic, nt: Topic, k: string)
      requires t.Placed() && t.eServer == this && nt !in Nodes.Values && Child(t.path, k) !in Nodes && nt.subtopics == map[]
      requires forall q :: q in Nodes && q != t.path ==> Nodes[q] != t
      modifies this`Nodes, t`subtopics
      ensures Nodes == old(Nodes)[Child(t.path, k) := nt] && InPlace(old(Nodes), Nodes)
      ensures t.path in old(Snap()) && Snap() == EnterSnap(old(Snap()), t.path, k, nt, nt.Info())
    {
      ghost var snap, c := Snap(), Child(t.path, k);
      hide Child;
      t.subtopics := t.subtopics[k := nt];
      assert Snap() == snap[t.path := snap[t.path].(table := t.subtopics)];
      Nodes := Nodes[c := nt];
    }

    lemma EnterFacts(t: Topic, nt: Topic, k: string)
      requires Valid() && t.Placed() && t.eServer == this
      requires nt.path == Child(t.path, k) && Entrant(this, Nodes, nt.path, nt) && (runned ==> Live(nt.Info()))
      ensures t.path in Snap()
      ensures var snap := EnterSnap(Snap(), t.path, k, nt, nt.Info());
              && WellFormed(this, Nodes[nt.path := nt], topics, runned, snap)
              && Infos(snap) == View()[nt.path := nt.Info()]
      ensures Child(t.path, k) !in Nodes
      ensures forall q :: q in Nodes && q != t.path ==> Nodes[q] != t
    {
      assert forall q :: q in Nodes ==> Nodes[q].path == q;
      hide Shape, AllTablesOk, AllLive, TableOk, EnterSnap, Live, Child;
      EnterWellFormed(this, Nodes, topics, runned, Snap(), t.path, k, nt, nt.Info());
      EnterInfos(Snap(), t.path, k, nt, nt.Info());
    }

    method Enter(t: Topic, nt: Topic, k: string)
      requires Valid() && t.Placed() && t.eServer == this && nt !in Nodes.Values
      requires nt.path == Child(t.path, k) && Entrant(this, Nodes, nt.path, nt) && nt.subtopics == map[]
      requires runned ==> Live(nt.Info())
      modifies this`Nodes, t`subtopics
      ensures Nodes == old(Nodes)[nt.path := nt] && InPlace(old(Nodes), Nodes)
      ensures Valid() && View() == old(View())[nt.path := nt.Info()]
    {
      hide *;
      EnterFacts(t, nt, k);
      ghost var snap, i := Snap(), nt.Info();
      LinkChild(t, nt, k);
      assert nt.Info() == i;
      ValidFrom(EnterSnap(snap, t.path, k, nt, i));
    }

    lemma MayEnter(t: Topic, k: string)
      requires Valid() && t.Placed() && t.eServer == this
      ensures CanAdd(View(), Child(t.path, k)) <==> Child(t.path, k) !in Nodes
      ensures t.path in View()
    {
      ViewClosed();
    }

    lemma NoPlaceHere(p: Path, base: seq<string>, k: string)
      requires Valid() && p != [] && base != [] && Child(p, base[0]) !in Nodes
      ensures !CanAdd(View(), p + base + [k])
      ensures p + base !in View()
    {
      ViewClosed();
      hide *;
      NoPlace(View(), p, base, k);
    }

    /** A topic just created and started. */
    lemma NewTopic(nt: Topic, c: Path)
      requires Valid() && c != [] && c !in Nodes && (|c| > 1 ==> Parent(c) in Nodes)
      requires nt.path == c && nt.eServer == this && nt.fullName == FullName(c) && nt.name == Last(c)
      requires nt.runned && !nt.cancelled && nt.subs == map[]
      ensures Entrant(this, Nodes, c, nt) && Live(nt.Info()) && nt.Info() == Fresh(c, true)
    {
    }

    method LinkRoot(nt: Topic, k: string)
      requires Child([], k) !in Nodes && nt.subtopics == map[]
      modifies this`Nodes, this`topics
      ensures Nodes == old(Nodes)[Child([], k) := nt] && InPlace(old(Nodes), Nodes) && topics == old(topics)[k := nt]
      ensures Snap() == old(Snap())[Child([], k) := Node(nt.Info(), map[])]
    {
      hide Child;
      topics := topics[k := nt];
      Nodes := Nodes[Child([], k) := nt];
    }

    lemma EnterRootFacts(nt: Topic, k: string)
      requires Valid() && nt.path == Child([], k) && Entrant(this, Nodes, nt.path, nt) && (runned ==> Live(nt.Info()))
      ensures var snap := Snap()[nt.path := Node(nt.Info(), map[])];
              && WellFormed(this, Nodes[nt.path := nt], topics[k := nt], runned, snap)
              && Infos(snap) == View()[nt.path := nt.Info()]
      ensures Child([], k) !in Nodes
    {
      hide Shape, AllTablesOk, AllLive, TableOk, Live, Child;
      EnterRootWellFormed(this, Nodes, topics, runned, Snap(), k, nt, nt.Info());
    }

    method EnterRoot(nt: Topic, k: string)
      requires Valid() && nt !in Nodes.Values
      requires nt.path == Child([], k) && Entrant(this, Nodes, nt.path, nt) && nt.subtopics == map[]
      requires runned ==> Live(nt.Info())
      modifies this`Nodes, this`topics
      ensures Nodes == old(Nodes)[nt.path := nt] && InPlace(old(Nodes), Nodes)
      ensures Valid() && View() == old(View())[nt.path := nt.Info()]
    {
      hide *;
      EnterRootFacts(nt, k);
      ghost var snap, c, i := Snap(), nt.path, nt.Info();
      LinkRoot(nt, k);
      assert nt.Info() == i;
      ValidFrom(snap[c := Node(i, map[])]);
    }

    // ---- what is below a topic

    lemma NoChildren(t: Topic)
      requires Valid() && t.Placed() && t.eServer == this
      ensures |t.subtopics| == 0 <==> NoneBelow(View(), t.path, 0)
      ensures |t.subtopics| == 0 ==> TableOk(Nodes, t.path, map[]) && t.subtopics == map[]
    {
      ViewClosed();
      NodeAt(t.path);
      var p := t.path;
      if |t.subtopics| == 0 {
        forall q | q in View() && p <= q ensures |q| <= |p| {
          if |q| > |p| {
            var k := q[|p|];
            UnderChild(p, k, q);
            Prefix(Child(p, k), q);
            ChildLink(p, k);
          }
        }
        assert t.subtopics == map[];
        assert TableOk(Nodes, p, Snap()[p].table);
      } else {
        var k :| k in t.subtopics;
        ChildLink(p, k);
        assert Child(p, k) in View();
      }
    }

    lemma Grandchild(p: Path, k: string)
      requires Valid() && p in Nodes && Child(p, k) in Nodes && !NoneBelow(View(), Child(p, k), 0)
      ensures !NoneBelow(View(), p, 1)
    {
      if NoneBelow(View(), p, 1) {
        NoneBelowChild(View(), p, k);
      }
    }

    lemma NoGrandchildren(p: Path)
      requires Valid() && p in Nodes && forall k :: k in Nodes[p].subtopics ==> NoneBelow(View(), Child(p, k), 0)
      ensures NoneBelow(View(), p, 1)
    {
      ViewClosed();
      NodeAt(p);
      forall q | q in View() && p <= q ensures |q| <= |p| + 1 {
        if |q| > |p| {
          var k := q[|p|];
          UnderChild(p, k, q);
          Prefix(Child(p, k), q);
          ChildLink(p, k);
        }
      }
    }

    /** Every topic below `t` is below one of its children. */
    lemma BelowLinked(t: Topic)
      requires Valid() && t.Placed() && t.eServer == this
      ensures forall q :: q in View() && t.path <= q && q != t.path ==> q[|t.path|] in t.subtopics
    {
      ViewClosed();
      NodeAt(t.path);
      forall q | q in View() && t.path <= q && q != t.path ensures q[|t.path|] in t.subtopics {
        UnderChild(t.path, q[|t.path|], q);
        Prefix(Child(t.path, q[|t.path|]), q);
        ChildLink(t.path, q[|t.path|]);
      }
    }

    lemma ChosenChildless(t: Topic, topic: string, chosen: set<string>, recursive: bool)
      requires recursive || (if topic != "" then NoneBelow(View(), Child(t.path, topic), 0) else NoneBelow(View(), t.path, 1))
      requires topic != "" ==> chosen == {topic}
      ensures recursive || forall k :: k in chosen ==> NoneBelow(View(), Child(t.path, k), 0)
    {
      forall k | k in chosen && !recursive ensures NoneBelow(View(), Child(t.path, k), 0) {
        if topic == "" {
          NoneBelowChild(View(), t.path, k);
        }
      }
    }

    lemma PathsKnown()
      requires Valid()
      ensures forall q :: q in Nodes ==> Nodes[q].path == q
    {
    }

    /** A topic no longer in the tree is not one of its objects. */
    lemma RemovedOutside(was: map<Path, Topic>)
      requires Valid() && InPlace(Nodes, was) && forall q :: q in was ==> was[q].path == q
      ensures forall q :: q in was && q !in Nodes ==> was[q] !in Nodes.Values
      ensures forall q :: q in was && q in Nodes ==> was[q] == Nodes[q]
    {
      PathsKnown();
    }

    lemma TableAt(p: Path)
      requires Valid() && p in Nodes
      ensures TableOk(Nodes, p, Nodes[p].subtopics) && View().Keys == Nodes.Keys
    {
      assert TableOk(Nodes, p, Snap()[p].table);
    }

    lemma ChildrenGone(c: Path, was: Tree)
      requires Valid() && c in Nodes && View() == WithoutBelow(was, c)
      ensures TableOk(Nodes, c, map[])
    {
      ViewClosed();
      forall k ensures Child(c, k) !in Nodes {
        assert c <= Child(c, k) && Child(c, k) != c;
      }
    }

    /** Removing what is below one child leaves the parent's table as it was. */
    lemma SameTable(p: Path, k: string, was: map<Path, Topic>, table: map<string, Topic>, t: Tree)
      requires Valid() && p in Nodes && InPlace(Nodes, was) && TableOk(was, p, table) && t.Keys == was.Keys
      requires View() == WithoutBelow(t, Child(p, k))
      ensures Nodes[p].subtopics == table
      ensures Child(p, k) in was ==> Child(p, k) in Nodes && Nodes[Child(p, k)] == was[Child(p, k)]
    {
      TableAt(p);
      forall j ensures Child(p, j) in was <==> Child(p, j) in Nodes {
        SiblingStays(t, p, k, j);
      }
      hide Child, WithoutBelow, Valid, View;
      SameTables(Nodes, was, p, Nodes[p].subtopics, table);
    }

    lemma StaysPlaced(t: Topic, was: map<Path, Topic>, before: Tree, c: Path)
      requires Valid() && t.eServer == this && t.path in was && was[t.path] == t && InPlace(Nodes, was)
      requires before.Keys == was.Keys && View() == WithoutBelow(before, c) && |t.path| < |c|
      ensures t.Placed()
    {
      ViewClosed();
      assert t.path in WithoutBelow(before, c);
    }

    lemma PlacedBack(t: Topic, rest: map<Path, Topic>, c: Path)
      requires t.eServer == this && t.path in rest && rest[t.path] == t && Nodes == rest - {c} && |t.path| < |c|
      ensures t.Placed()
    {
    }

    // ---- a childless topic leaves

    /** Takes a childless subtopic out of its parent's table. */
    method UnlinkChild(t: Topic, k: string)
      requires t.Placed() && t.eServer == this && Child(t.path, k) in Nodes
      requires forall q :: q in Nodes && q != t.path ==> Nodes[q] != t
      modifies this`Nodes, t`subtopics
      ensures Nodes == old(Nodes) - {Child(t.path, k)} && t.subtopics == old(t.subtopics) - {k}
      ensures t.path in old(Snap()) && Snap() == LeaveSnap(old(Snap()), t.path, k)
    {
      ghost var snap, c := Snap(), Child(t.path, k);
      assert t.path != c;
      hide Child;
      t.subtopics := t.subtopics - {k};
      assert Snap() == snap[t.path := snap[t.path].(table := t.subtopics)];
      Nodes := Nodes - {c};
    }

    /** Stopping a topic that is not in the tree any more. */
    method CancelOutside(st: Topic)
      requires st !in Nodes.Values
      modifies st`cancelled
      ensures st.cancelled && Snap() == old(Snap())
    {
      st.cancelled := true;
    }

    lemma NotInTree(st: Topic, was: map<Path, Topic>, c: Path)
      requires c in was && was[c] == st && Nodes == was - {c} && forall q :: q in was && q != c ==> was[q] != st
      ensures st !in Nodes.Values
    {
    }

    lemma LeaveFacts(t: Topic, k: string)
      requires Valid() && t.Placed() && t.eServer == this && Child(t.path, k) in Nodes && TableOk(Nodes, Child(t.path, k), map[])
      ensures t.path in Snap()
      ensures var snap := LeaveSnap(Snap(), t.path, k);
              && WellFormed(this, Nodes - {Child(t.path, k)}, topics, runned, snap)
              && Infos(snap) == View() - {Child(t.path, k)}
      ensures forall q :: q in Nodes && q != t.path ==> Nodes[q] != t
      ensures forall q :: q in Nodes && q != Child(t.path, k) ==> Nodes[q] != Nodes[Child(t.path, k)]
    {
      assert forall q :: q in Nodes ==> Nodes[q].path == q;
      NodeAt(t.path);
      hide Shape, AllTablesOk, AllLive, TableOk, LeaveSnap, Child;
      LeaveWellFormed(this, Nodes, topics, runned, Snap(), t.path, k);
      LeaveInfos(Snap(), t.path, k);
    }

    method Leave(t: Topic, st: Topic, k: string)
      requires Valid() && t.Placed() && t.eServer == this
      requires Child(t.path, k) in Nodes && Nodes[Child(t.path, k)] == st && TableOk(Nodes, Child(t.path, k), map[])
      modifies this`Nodes, t`subtopics, st`cancelled
      ensures Nodes == old(Nodes) - {Child(t.path, k)} && st.cancelled && t.subtopics == old(t.subtopics) - {k}
      ensures Valid() && View() == old(View()) - {Child(t.path, k)}
    {
      hide *;
      LeaveFacts(t, k);
      ghost var snap, was := Snap(), Nodes;
      UnlinkChild(t, k);
      NotInTree(st, was, Child(t.path, k));
      CancelOutside(st);
      ValidFrom(LeaveSnap(snap, t.path, k));
    }

    // ---- subscriptions

    lemma SubscriptionFacts(p: Path, u: Uuid, rec: SubRec)
      requires Valid() && p in Nodes
      ensures p in Snap() && p in View()
      ensures WellFormed(this, Nodes, topics, runned, SubSnap(Snap(), p, u, rec))
      ensures Infos(SubSnap(Snap(), p, u, rec)) == View()[p := AddSub(View()[p], u, rec)]
    {
      SubsFacts(this, Nodes, topics, runned, Snap(), p, u, rec);
    }

    lemma UnsubscriptionFacts(p: Path, u: Uuid)
      requires Valid() && p in Nodes
      ensures p in Snap() && p in View() && View()[p].subs == Nodes[p].subs
      ensures WellFormed(this, Nodes, topics, runned, UnsubSnap(Snap(), p, u))
      ensures Infos(UnsubSnap(Snap(), p, u)) == Unsubscribed(View(), p, u)
    {
      UnsubsFacts(this, Nodes, topics, runned, Snap(), p, u);
    }

    lemma OnlyAt(p: Path)
      requires Valid() && p in Nodes
      ensures forall q :: q in Nodes && q != p ==> Nodes[q] != Nodes[p]
    {
      PathsKnown();
    }

    // ---- AddTopic and AddTopicQueue

    lemma RootPlace(key: string)
      requires Valid()
      ensures CanAdd(View(), Child([], key)) <==> Child([], key) !in Nodes
      ensures key !in topics ==> Child([], key) !in View()
    {
      ViewClosed();
    }

    lemma NoRoot(base: seq<string>, key: string, leaf: string)
      requires Valid() && Child([], key) !in Nodes
      ensures !CanAdd(View(), Child([], key) + base + [leaf]) && Child([], key) + base !in View()
    {
      var p := Child([], key) + base;
      assert Parent(p + [leaf]) == p && p != [];
      assert Child([], key) <= p;
      Prefix(Child([], key), p);
      ViewClosed();
    }

    /** A root topic for a running server, unless the key is taken. */
    method AddRoot(key: string) returns (r: Result)
      requires Valid()
      modifies `Nodes, `topics
      ensures Valid() && InPlace(old(Nodes), Nodes) && fresh(Nodes.Values - old(Nodes.Values))
      ensures CanAdd(old(View()), Child([], key)) <==> Child([], key) !in old(View())
      ensures r == if Child([], key) in old(View()) then Err(Duplicate) else Ok
      ensures View() == if r.Ok? then old(View())[Child([], key) := Fresh(Child([], key), true)] else old(View())
    {
      hide *;
      InPlaceItself(Nodes);
      RootLink(key);
      RootPlace(key);
      RootNames(key);
      ViewClosed();
      if key in topics {
        return Err(Duplicate);
      }
      var nt := new Topic(this, Child([], key), key, key);
      nt.Run();
      NewTopic(nt, Child([], key));
      EnterRoot(nt, key);
      return Ok;
    }

    lemma RootNames(key: string)
      ensures Child([], key) != [] && |Child([], key)| == 1 && FullName(Child([], key)) == key && Last(Child([], key)) == key
    {
      FullNameChild([], key);
    }

    /** Fails without a change, or adds exactly the one topic the normalised name leads to. */
    method AddTopic(name: string, branch: string) returns (r: Result)
      requires Valid()
      modifies `Nodes, `topics, Nodes.Values
      ensures Valid() && InPlace(old(Nodes), Nodes) && fresh(Nodes.Values - old(Nodes.Values))
      ensures r == AddResult(old(View()), runned, name, branch)
      ensures View() == AddedTopic(old(View()), runned, name, branch)
    {
      AddUnfolds(name, branch);
      hide *;
      InPlaceItself(Nodes);
      if !runned {
        return Err(NotRunning);
      }
      if Trim(name) == "" {
        return Err(EmptyName);
      }
      var leaf, longBranch := Normalize(name, branch);
      var base := Parse(longBranch);
      if |base| == 0 {
        TargetRoot(name, branch);
        r := AddRoot(ToAbsolute(leaf));
        return;
      }
      TargetBelow(name, branch);
      var first := ToAbsolute(base[0]);
      RootLink(first);
      if first !in topics {
        NoRoot(base[1..], first, leaf);
        return Err(NoTopic);
      }
      r := topics[first].AddSubtopic(leaf, base[1..]);
    }

    lemma ResultUnfolds(t: Tree, topicsQueue: string, branch: string)
      ensures QueueResult(t, runned, topicsQueue, branch) ==
              var s := Segments(topicsQueue);
              if !BranchOk(t, branch) then Err(NoTopic)
              else if s == [] then Ok
              else if !runned then Err(NotRunning)
              else if TopicPath(Segments(Trim(branch)) + s[..1]) in t then Err(Duplicate)
              else Ok
    {
    }

    lemma AddUnfolds(name: string, branch: string)
      ensures AddResult(View(), runned, name, branch) ==
              if !runned then Err(NotRunning)
              else if Trim(name) == "" then Err(EmptyName)
              else if CanAdd(View(), Target(name, branch)) then Ok
              else if Base(name, branch) == [] || TopicPath(Base(name, branch)) in View() then Err(Duplicate)
              else Err(NoTopic)
      ensures AddedTopic(View(), runned, name, branch) ==
              if AddResult(View(), runned, name, branch).Ok? then View()[Target(name, branch) := Fresh(Target(name, branch), true)]
              else View()
    {
    }

    /** One round of `AddTopicQueue` for a nonempty piece. */
    method AddQueued(k: string, b: string, ghost start: Tree, ghost base: seq<string>, ghost done: seq<string>) returns (r: Result)
      requires Valid() && IsSegment(k) && Segments(b) == base + done
      requires Closed(start) && (base == [] || TopicPath(base) in start) && View() == AddedQueue(start, base, done)
      requires done != [] ==> runned && TopicPath(base + done[..1]) !in start
      modifies `Nodes, `topics, Nodes.Values
      ensures Valid() && InPlace(old(Nodes), Nodes) && fresh(Nodes.Values - old(Nodes.Values))
      ensures r == if !runned then Err(NotRunning) else if done == [] && TopicPath(base + [k]) in start then Err(Duplicate) else Ok
      ensures View() == if r.Ok? then AddedQueue(start, base, done + [k]) else old(View())
      ensures r.Ok? ==> TopicPath(base + (done + [k])[..1]) !in start
    {
      hide *;
      SegmentTarget(k, b);
      QueueStep(start, base, done, k);
      AddUnfolds(k, b);
      if done == [] {
        assert base + [] + [k] == base + [k] && ([] + [k])[..1] == [k];
      } else {
        assert (done + [k])[..1] == done[..1];
      }
      r := AddTopic(k, b);
    }

    /** Adds a whole path under an existing branch, or nothing: it fails exactly when the branch is
        missing, the server is stopped, or the first topic of the path already exists there. */
    method AddTopicQueue(topicsQueue: string, branch: string) returns (r: Result)
      requires Valid()
      modifies `Nodes, `topics, Nodes.Values
      ensures Valid() && InPlace(old(Nodes), Nodes) && fresh(Nodes.Values - old(Nodes.Values))
      ensures r == QueueResult(old(View()), runned, topicsQueue, branch)
      ensures View() == if r.Ok? then AddedQueue(old(View()), Segments(Trim(branch)), Segments(topicsQueue)) else old(View())
    {
      hide *;
      ghost var start, base := View(), Segments(Trim(branch));
      ResultUnfolds(start, topicsQueue, branch);
      InPlaceItself(Nodes);
      var b := Trim(branch);
      if b != "" && b != "/" {
        var has := HasTopic(b);
        if !has {
          BranchMissing(start, branch);
          return Err(NoTopic);
        }
      }
      BranchFound(start, branch);
      ViewClosed();
      BranchSegments(start, branch);
      r := AddPieces(Split(topicsQueue), b, topicsQueue, start, base);
    }

    /** The loop of `AddTopicQueue`. */
    method AddPieces(pieces: seq<string>, branch: string, ghost queue: string, ghost start: Tree, ghost base: seq<string>) returns (r: Result)
      requires Valid() && pieces == Split(queue) && Segments(branch) == base
      requires Closed(start) && (base == [] || TopicPath(base) in start) && View() == start
      modifies `Nodes, `topics, Nodes.Values
      ensures Valid() && InPlace(old(Nodes), Nodes) && fresh(Nodes.Values - old(Nodes.Values))
      ensures var s := Segments(queue);
              && r == (if s == [] then Ok else if !runned then Err(NotRunning)
                       else if TopicPath(base + s[..1]) in start then Err(Duplicate) else Ok)
              && View() == if r.Ok? then AddedQueue(start, base, s) else start
    {
      hide *;
      InPlaceItself(Nodes);
      var b := branch;
      ghost var done: seq<string> := [];
      NothingDone(pieces, queue, base);
      for i := 0 to |pieces|
        invariant Valid() && InPlace(old(Nodes), Nodes) && fresh(Nodes.Values - old(Nodes.Values))
        invariant done == Clean(pieces[..i]) && done <= Segments(queue) && Segments(b) == base + done
        invariant View() == AddedQueue(start, base, done) && (done == [] ==> View() == start)
        invariant done != [] ==> runned && TopicPath(base + done[..1]) !in start
      {
        PieceNext(pieces, i, queue);
        var t := Trim(pieces[i]);
        if |t| > 0 {
          SegmentTarget(t, b);
          ghost var nodes := Nodes;
          r := AddQueued(t, b, start, base, done);
          InPlaceOn(old(Nodes), nodes, Nodes);
          if r.Err? {
            assert done == [] && Segments(queue)[..1] == [t];
            return r;
          }
          b := b + "/" + t;
          done := done + [t];
        }
      }
      assert pieces[..|pieces|] == pieces;
      AllDone(pieces, queue);
      assert done != [] ==> Segments(queue)[..1] == done[..1];
      return Ok;
    }

    // ---- RemoveTopic

    lemma LeaveRootFacts(k: string)
      requires Valid() && TableOk(Nodes, Child([], k), map[])
      ensures WellFormed(this, Nodes - {Child([], k)}, topics - {k}, runned, Snap() - {Child([], k)})
      ensures Infos(Snap() - {Child([], k)}) == View() - {Child([], k)}
      ensures Child([], k) in Nodes ==> forall q :: q in Nodes && q != Child([], k) ==> Nodes[q] != Nodes[Child([], k)]
    {
      assert forall q :: q in Nodes ==> Nodes[q].path == q;
      hide Shape, AllTablesOk, AllLive, TableOk, Child;
      LeaveRootWellFormed(this, Nodes, topics, runned, Snap(), k);
    }

    method UnlinkRoot(k: string)
      modifies this`Nodes, this`topics
      ensures Nodes == old(Nodes) - {Child([], k)} && topics == old(topics) - {k}
      ensures Snap() == old(Snap()) - {Child([], k)}
    {
      hide Child;
      topics := topics - {k};
      Nodes := Nodes - {Child([], k)};
    }

    /** Stops a childless root topic and takes it out of the server's table. */
    method LeaveRoot(t: Topic, k: string)
      requires Valid() && Child([], k) in Nodes && Nodes[Child([], k)] == t && TableOk(Nodes, Child([], k), map[])
      modifies this`Nodes, this`topics, t`cancelled
      ensures Nodes == old(Nodes) - {Child([], k)} && t.cancelled
      ensures Valid() && View() == old(View()) - {Child([], k)}
    {
      hide *;
      LeaveRootFacts(k);
      ghost var snap, was := Snap(), Nodes;
      UnlinkRoot(k);
      NotInTree(t, was, Child([], k));
      CancelOutside(t);
      ValidFrom(snap - {Child([], k)});
    }

    /** Stops a topic and takes another key, if it is there, out of the server's table. */
    method CancelInside(t: Topic, key: string)
      requires Valid() && t.Placed() && t.eServer == this
      modifies this`topics, t`cancelled
      ensures topics == old(topics) - {key} && t.cancelled && t.Placed()
      ensures t.path in old(View()) && View() == old(View())[t.path := old(View())[t.path].(cancelled := true)]
    {
      PathsKnown();
      assert t.path in View();
      hide Valid, WellFormed, Infos, Stopped, Snap;
      ghost var snap := Snap();
      CancelSnap(t, key);
      InfosStopped(snap, t.path);
    }

    method CancelSnap(t: Topic, key: string)
      requires t.Placed() && t.eServer == this && forall q :: q in Nodes ==> Nodes[q].path == q
      modifies this`topics, t`cancelled
      ensures topics == old(topics) - {key} && t.cancelled && t.Placed()
      ensures t.path in old(Snap()) && Snap() == Stopped(old(Snap()), t.path)
    {
      topics := topics - {key};
      t.cancelled := true;
    }

    lemma FoundName(name: string)
      requires Valid() && LookupPath(name) in Nodes
      ensures var segs := Segments(name);
              && segs != [] && Split(Nodes[LookupPath(name)].fullName)[1..] == segs && |LookupPath(name)| == |segs|
      ensures |LookupPath(name)| == 1 ==> LookupPath(name) == Child([], LookupPath(name)[0])
      ensures |LookupPath(name)| > 1 ==>
                var segs := Segments(name);
                var front := Absolute(segs[..|segs| - 1]);
                && LookupPath(front) in Nodes && Child(LookupPath(front), segs[|segs| - 1]) == LookupPath(name)
                && segs[|segs| - 1] != ""
    {
      hide *;
      var p := LookupPath(name);
      NodeAt(p);
      FoundPieces(name);
      if |p| == 1 {
        RootName(name);
      }
      if |p| > 1 {
        ParentName(name);
        ChildOfParent(p);
      }
    }

    /** Removes the named topic and everything below it, or nothing. A root topic leaves the table
        only when it is named by its key; otherwise it stays there, stopped, and if the caller's
        string is the key of another root topic, that one leaves the table instead. */
    method RemoveTopic(topic: string, recursive: bool) returns (r: Result)
      requires Valid()
      modifies this`Nodes, this`topics, Nodes.Values
      ensures r == RemoveResult(old(View()), runned, topic, recursive)
      ensures r.Err? ==> Valid() && Nodes == old(Nodes) && View() == old(View())
      ensures r.Ok? && RemovesByKey(topic) ==>
                && Valid() && InPlace(Nodes, old(Nodes)) && View() == WithoutSubtree(old(View()), LookupPath(topic))
                && forall q :: q in old(Nodes) && q !in Nodes ==> old(Nodes[q]).cancelled
      ensures r.Ok? && !RemovesByKey(topic) ==>
                var p := LookupPath(topic);
                && p in old(View()) && topics == old(topics) - {topic} && InPlace(Nodes, old(Nodes)) && p in Nodes
                && View() == WithoutBelow(old(View()), p)[p := old(View())[p].(cancelled := true)]
                && forall q :: q in old(Nodes) && q !in Nodes ==> old(Nodes[q]).cancelled
    {
      hide *;
      ResultIs(topic, recursive);
      if !runned {
        return Err(NotRunning);
      }
      var t := FindTopic(topic);
      if t == null {
        return Err(NoTopic);
      }
      FoundName(topic);
      var tt := Split(t.fullName)[1..];
      if |tt| == 1 {
        r := RemoveRoot(t, topic, recursive);
        return;
      }
      var tn := BranchName(tt[..|tt| - 1]);
      var parent := FindTopic(tn);
      assert parent != null;
      ChildLink(parent.path, tt[|tt| - 1]);
      r := parent.RemoveSubtopics(tt[|tt| - 1], recursive);
    }

    lemma ResultIs(topic: string, recursive: bool)
      requires Valid()
      ensures RemoveResult(View(), runned, topic, recursive) ==
              if !runned then Err(NotRunning)
              else if LookupPath(topic) !in Nodes then Err(NoTopic)
              else if recursive || NoneBelow(View(), LookupPath(topic), if |LookupPath(topic)| == 1 then 1 else 0) then Ok
              else Err(HasSubtopics)
      ensures RemovesByKey(topic) <==> |LookupPath(topic)| != 1 || topic == LookupPath(topic)[0]
    {
    }

    method RemoveRoot(t: Topic, topic: string, recursive: bool) returns (r: Result)
      requires Valid() && runned && t.Placed() && t.eServer == this && t.path == LookupPath(topic)
      requires |LookupPath(topic)| == 1 && LookupPath(topic) == Child([], LookupPath(topic)[0])
      modifies this`Nodes, this`topics, Nodes.Values
      ensures r == if recursive || NoneBelow(old(View()), LookupPath(topic), 1) then Ok else Err(HasSubtopics)
      ensures r.Err? ==> Valid() && Nodes == old(Nodes) && View() == old(View())
      ensures r.Ok? && topic == LookupPath(topic)[0] ==>
                && Valid() && InPlace(Nodes, old(Nodes)) && View() == WithoutSubtree(old(View()), LookupPath(topic))
                && forall q :: q in old(Nodes) && q !in Nodes ==> old(Nodes[q]).cancelled
      ensures r.Ok? && topic != LookupPath(topic)[0] ==>
                var p := LookupPath(topic);
                && p in old(View()) && topics == old(topics) - {topic} && InPlace(Nodes, old(Nodes)) && p in Nodes
                && View() == WithoutBelow(old(View()), p)[p := old(View())[p].(cancelled := true)]
                && forall q :: q in old(Nodes) && q !in Nodes ==> old(Nodes[q]).cancelled
    {
      hide *;
      ghost var t0, nodes, p := View(), Nodes, LookupPath(topic);
      PlacedIs(t);
      TableAt(p);
      r := t.RemoveSubtopics("", recursive);
      if r.Err? {
        return;
      }
      ghost var rest := Nodes;
      PlacedIs(t);
      NodeAt(p);
      LastOfRoot(p);
      ChildrenGone(p, t0);
      RootStays(t0, p);
      // every case stops the topic and deletes the caller's string from the table
      if topic == t.name {
        LeaveRoot(t, topic);
        InPlaceMinus(rest, nodes, p);
        SubtreeIsBelowAndSelf(t0, p);
      } else {
        CancelInside(t, topic);
        PlacedIs(t);
      }
    }

    // ---- AddEvent

    /** The checks of `AddEvent` in their order, the topic it finds and the envelope it sends there. */
    method AddEvent(topic: string, evt: Option<Event>, sender: Uuid) returns (r: Result, t: Topic?, ee: EventEnvelope)
      requires Valid()
      ensures r == if !runned then Err(NotRunning)
                   else if evt.None? then Err(NoEvent)
                   else if sender == Nil then Err(NoSender)
                   else if LookupPath(topic) !in View() then Err(NoTopic)
                   else Ok
      ensures r.Ok? ==> t != null && LookupPath(topic) in Nodes && t == Nodes[LookupPath(topic)]
      ensures r.Ok? ==> ee == EventEnvelope(evt, topic, sender, 0) && ee.Check()
    {
      ee := EventEnvelope(evt, topic, sender, 0);
      t := null;
      if !runned {
        return Err(NotRunning), t, ee;
      }
      if evt.None? {
        return Err(NoEvent), t, ee;
      }
      if sender == Nil {
        return Err(NoSender), t, ee;
      }
      ViewClosed();
      hide *;
      t := FindTopic(topic);
      if t == null {
        return Err(NoTopic), t, ee;
      }
      EnvelopeChecks(ee);
      return Ok, t, ee;
    }

    lemma EnvelopeChecks(ee: EventEnvelope)
      ensures ee.Check() <==> ee.event.Some? && ee.publisher != Nil
    {
    }

    // ---- Subscribe, UnSubscribe and Run

    method Subscribe(subscriber: Uuid, reqs: seq<SubscrReq>) returns (r: Result)
      requires Valid()
      modifies Nodes.Values`subs
      ensures Valid()
      ensures !runned ==> r == Err(NotRunning) && View() == old(View())
      ensures runned && subscriber == Nil ==> r == Err(NoSubscriber) && View() == old(View())
      ensures runned && subscriber != Nil ==> (View(), r) == SubscribeAll(old(View()), subscriber, reqs)
      ensures runned && subscriber != Nil ==>
                && ListsGain(old(View()), View(), subscriber, reqs[..Served(old(View()), reqs)])
                && (r.Ok? <==> Served(old(View()), reqs) == |reqs|)
    {
      hide *;
      if !runned {
        return Err(NotRunning);
      }
      if subscriber == Nil {
        return Err(NoSubscriber);
      }
      ghost var t0 := View();
      SubscribeAllLists(t0, subscriber, reqs);
      NothingLeft(t0, subscriber, reqs, []);
      for i := 0 to |reqs|
        invariant Valid() && SubscribeAll(View(), subscriber, reqs[i..]) == SubscribeAll(t0, subscriber, reqs)
      {
        SubscribeAllStep(View(), subscriber, reqs, i);
        ViewClosed();
        if !reqs[i].Check() {
          return Err(BadRequest);
        }
        var t := FindTopic(reqs[i].topic);
        if t == null {
          return Err(NoTopic);
        }
        LiveRunned(t.path, reqs[i].Reach());
        r := t.Subscribe(subscriber, reqs[i]);
      }
      NothingLeft(View(), subscriber, reqs, []);
      return Ok;
    }

    method UnSubscribe(subscriber: Uuid, names: seq<string>) returns (r: Result)
      requires Valid()
      modifies Nodes.Values`subs
      ensures Valid()
      ensures !runned ==> r == Err(NotRunning) && View() == old(View())
      ensures runned && subscriber == Nil ==> r == Err(NoSubscriber) && View() == old(View())
      ensures runned && subscriber != Nil ==> (View(), r) == UnsubscribeAll(old(View()), subscriber, names)
      ensures runned && subscriber != Nil ==> (r.Ok? <==> AllListed(old(View()), subscriber, names))
      ensures r.Ok? ==> Unlisted(old(View()), View(), subscriber, names)
    {
      hide *;
      if !runned {
        return Err(NotRunning);
      }
      if subscriber == Nil {
        return Err(NoSubscriber);
      }
      ghost var t0 := View();
      AllUnlisted(t0, subscriber, names);
      NothingLeft(t0, subscriber, [], names);
      for i := 0 to |names|
        invariant Valid() && UnsubscribeAll(View(), subscriber, names[i..]) == UnsubscribeAll(t0, subscriber, names)
      {
        UnsubscribeAllStep(View(), subscriber, names, i);
        ViewClosed();
        var t := FindTopic(names[i]);
        if t == null {
          return Err(NoTopic);
        }
        UnsubscriptionFacts(t.path, subscriber);
        r := t.Unsubscribe(subscriber);
        if r.Err? {
          return;
        }
      }
      NothingLeft(View(), subscriber, [], names);
      return Ok;
    }

    /** Starting the server: a clean table if asked for, then the server's own topic. With a table of
        an earlier run this reports a duplicate after the server has been started, and topics stopped
        with that run stay stopped. */
    method Run(cleanStart: bool) returns (r: Result)
      requires Valid()
      modifies this, Nodes.Values
      ensures runned
      ensures r == if old(runned) then Err(AlreadyRunning)
                   else if !cleanStart && ["/server"] in old(View()) then Err(Duplicate)
                   else Ok
      ensures r.Err? ==> View() == old(View())
      ensures r.Ok? ==> View() == (if cleanStart then map[] else old(View()))[["/server"] := Fresh(["/server"], true)]
      ensures old(runned) || AllRunning(View()) ==> Valid()
    {
      hide *;
      if runned {
        return Err(AlreadyRunning);
      }
      if cleanStart {
        topics, Nodes := map[], map[];
        EmptyServer();
      }
      ServerKey();
      r := AddRoot("/server");
      StartRunning();
    }

    /** The running flag; the topics are not touched. */
    method StartRunning()
      requires Valid()
      modifies `runned
      ensures runned && View() == old(View()) && (AllRunning(View()) ==> Valid())
    {
      hide *;
      ghost var snap := Snap();
      Unfolded();
      NowRunning(this, Nodes, topics, runned, snap);
      SetFlag();
      if AllRunning(Infos(snap)) {
        ValidFrom(snap);
      }
      ViewIs();
    }

    method SetFlag()
      modifies `runned
      ensures runned && Snap() == old(Snap())
    {
      runned := true;
    }

    lemma Unfolded()
      requires Valid()
      ensures WellFormed(this, Nodes, topics, runned, Snap()) && View() == Infos(Snap())
    {
    }

    lemma ViewIs()
      ensures View() == Infos(Snap())
    {
    }

    lemma ServerKey()
      ensures Child([], "/server") == ["/server"]
    {
    }

    lemma EmptyServer()
      requires Nodes == map[] && topics == map[]
      ensures Valid() && View() == map[]
    {
    }
  }
}
