/** The requests of one `Subscribe` or `UnSubscribe` call, served one after the other, and what every
    topic's lists are afterwards. */
module SubscriptionRequests {
  import opened Wrappers
  import opened Events
  import opened Names
  import opened TopicTree

  datatype EsError = NotRunning | AlreadyRunning | EmptyName | NoTopic | Duplicate | HasSubtopics | BadRequest | NoSubscriber | NotSubscribed | NoEvent | NoSender

  type Result = Outcome<EsError>

  /** The requests are served in order up to the first bad one; what was subscribed stays. */
  ghost function SubscribeAll(t: Tree, u: Uuid, reqs: seq<SubscrReq>): (Tree, Result) {
    if reqs == [] then (t, Ok)
    else if !reqs[0].Check() then (t, Err(BadRequest))
    else if LookupPath(reqs[0].topic) !in t then (t, Err(NoTopic))
    else SubscribeAll(Subscribed(t, LookupPath(reqs[0].topic), reqs[0].Reach(), u, Rec(reqs[0])), u, reqs[1..])
  }

  /** The same for the names of an unsubscription. */
  ghost function UnsubscribeAll(t: Tree, u: Uuid, names: seq<string>): (Tree, Result) {
    if names == [] then (t, Ok)
    else if LookupPath(names[0]) !in t then (t, Err(NoTopic))
    else if u !in t[LookupPath(names[0])].subs then (t, Err(NotSubscribed))
    else UnsubscribeAll(Unsubscribed(t, LookupPath(names[0]), u), u, names[1..])
  }

  lemma TailStep<T>(s: seq<T>, i: nat)
    requires i < |s|
    ensures s[i..] != [] && s[i..][0] == s[i] && s[i..][1..] == s[i + 1..]
  {
  }

  lemma SubscribeAllStep(t: Tree, u: Uuid, reqs: seq<SubscrReq>, i: nat)
    requires i < |reqs|
    ensures SubscribeAll(t, u, reqs[i..]) ==
            var s := reqs[i];
            if !s.Check() then (t, Err(BadRequest))
            else if LookupPath(s.topic) !in t then (t, Err(NoTopic))
            else SubscribeAll(Subscribed(t, LookupPath(s.topic), s.Reach(), u, Rec(s)), u, reqs[i + 1..])
  {
    TailStep(reqs, i);
  }

  lemma UnsubscribeAllStep(t: Tree, u: Uuid, names: seq<string>, i: nat)
    requires i < |names|
    ensures UnsubscribeAll(t, u, names[i..]) ==
            var p := LookupPath(names[i]);
            if p !in t then (t, Err(NoTopic))
            else if u !in t[p].subs then (t, Err(NotSubscribed))
            else UnsubscribeAll(Unsubscribed(t, p, u), u, names[i + 1..])
  {
    TailStep(names, i);
  }

  lemma NothingLeft(t: Tree, u: Uuid, reqs: seq<SubscrReq>, names: seq<string>)
    ensures SubscribeAll(t, u, reqs[|reqs|..]) == (t, Ok) && UnsubscribeAll(t, u, names[|names|..]) == (t, Ok)
    ensures reqs[0..] == reqs && names[0..] == names
  {
  }

  // ---------------------------------------------------------------- one request, topic by topic

  /** The topics at most `levels` levels below `p`. */
  predicate Within(p: Path, q: Path, levels: nat) {
    p <= q && |q| <= |p| + levels
  }

  function ListOf(i: TopicInfo, u: Uuid): seq<SubRec> {
    if u in i.subs then i.subs[u] else []
  }

  /** `u` gained the records at the end of its list on one topic; there are no other changes. */
  ghost predicate Gains(i: TopicInfo, i': TopicInfo, u: Uuid, rs: seq<SubRec>) {
    && i'.fullName == i.fullName && i'.runned == i.runned && i'.cancelled == i.cancelled
    && (forall v :: v != u ==> (v in i'.subs <==> v in i.subs) && (v in i.subs ==> i'.subs[v] == i.subs[v]))
    && (u in i'.subs <==> u in i.subs || rs != [])
    && ListOf(i', u) == ListOf(i, u) + rs
  }

  lemma GainsNothing(i: TopicInfo, i': TopicInfo, u: Uuid)
    ensures Gains(i, i', u, []) <==> i' == i
  {
    if Gains(i, i', u, []) {
      assert ListOf(i', u) == ListOf(i, u);
      assert i'.subs.Keys == i.subs.Keys;
      assert i'.subs == i.subs;
    }
  }

  lemma GainsMore(i: TopicInfo, j: TopicInfo, k: TopicInfo, u: Uuid, rs: seq<SubRec>, more: seq<SubRec>)
    requires Gains(i, j, u, rs) && Gains(j, k, u, more)
    ensures Gains(i, k, u, rs + more)
  {
    assert ListOf(i, u) + rs + more == ListOf(i, u) + (rs + more);
  }

  lemma AddSubGains(i: TopicInfo, u: Uuid, r: SubRec)
    ensures Gains(i, AddSub(i, u, r), u, [r])
  {
  }

  /** What a subscription does to the lists of every topic of the tree: in reach the subscriber's list
      gains one record at its end; everything else is as before. */
  lemma SubscribedLists(t: Tree, p: Path, levels: nat, u: Uuid, r: SubRec, q: Path)
    requires q in t
    ensures Subscribed(t, p, levels, u, r).Keys == t.Keys
    ensures Gains(t[q], Subscribed(t, p, levels, u, r)[q], u, if Within(p, q, levels) then [r] else [])
  {
    AddSubGains(t[q], u, r);
    GainsNothing(t[q], t[q], u);
  }

  /** One request: every list in reach gained its record, no other list changed. */
  ghost predicate AllGain(t: Tree, t': Tree, u: Uuid, p: Path, levels: nat, r: SubRec) {
    t'.Keys == t.Keys && forall q :: q in t ==> Gains(t[q], t'[q], u, if Within(p, q, levels) then [r] else [])
  }

  lemma SubscribedGains(t: Tree, p: Path, sr: SubscrReq, u: Uuid)
    ensures AllGain(t, Subscribed(t, p, sr.Reach(), u, Rec(sr)), u, p, if sr.recursive then sr.depth else 0,
                    SubRec(sr.topic, sr.subCh, sr.startPos, sr.filters))
  {
    forall q | q in t ensures Gains(t[q], Subscribed(t, p, sr.Reach(), u, Rec(sr))[q], u, if Within(p, q, sr.Reach()) then [Rec(sr)] else []) {
      SubscribedLists(t, p, sr.Reach(), u, Rec(sr), q);
    }
    hide Gains, AddSub, Within;
  }

  /** A subscription that failed on the way: some of the topics in reach have gained the record. */
  lemma PartlySubscribedLists(t: Tree, t': Tree, p: Path, levels: nat, u: Uuid, r: SubRec, q: Path)
    requires PartlySubscribed(t, t', p, levels, u, r) && q in t
    ensures q in t' && (Gains(t[q], t'[q], u, []) || (Within(p, q, levels) && Gains(t[q], t'[q], u, [r])))
  {
    AddSubGains(t[q], u, r);
    GainsNothing(t[q], t[q], u);
  }

  // ---------------------------------------------------------------- all requests of a call

  /** A request that can be served: a topic name and a channel are given and the topic exists. */
  ghost predicate Servable(t: Tree, sr: SubscrReq) {
    Trim(sr.topic) != "" && sr.subCh.Some? && LookupPath(sr.topic) in t
  }

  /** How many requests come before the first that cannot be served. */
  ghost function Served(t: Tree, reqs: seq<SubscrReq>): (n: nat)
    ensures n <= |reqs| && (forall i :: 0 <= i < n ==> Servable(t, reqs[i])) && (n < |reqs| ==> !Servable(t, reqs[n]))
  {
    if reqs == [] || !Servable(t, reqs[0]) then 0 else 1 + Served(t, reqs[1..])
  }

  /** The records of the requests that reach `q`, in their order. */
  ghost function Reaching(reqs: seq<SubscrReq>, q: Path): seq<SubRec> {
    if reqs == [] then []
    else
      var sr := reqs[0];
      (if Within(LookupPath(sr.topic), q, if sr.recursive then sr.depth else 0)
       then [SubRec(sr.topic, sr.subCh, sr.startPos, sr.filters)] else []) + Reaching(reqs[1..], q)
  }

  /** Every topic's list of `u` gained the records of the requests that reach it. */
  ghost predicate ListsGain(t: Tree, t': Tree, u: Uuid, reqs: seq<SubscrReq>) {
    t'.Keys == t.Keys && forall q :: q in t ==> Gains(t[q], t'[q], u, Reaching(reqs, q))
  }

  lemma ServedSame(t: Tree, t': Tree, reqs: seq<SubscrReq>)
    requires t'.Keys == t.Keys
    ensures Served(t', reqs) == Served(t, reqs)
  {
    var n := Served(t, reqs);
    var n' := Served(t', reqs);
    assert forall sr :: Servable(t', sr) <==> Servable(t, sr);
  }

  lemma ReachingOne(sr: SubscrReq, q: Path)
    ensures Reaching([sr], q) == if Within(LookupPath(sr.topic), q, sr.Reach()) then [Rec(sr)] else []
  {
    assert Reaching([sr][1..], q) == [];
    hide LookupPath, Within;
  }

  lemma FirstServed(t: Tree, u: Uuid, sr: SubscrReq)
    ensures Subscribed(t, LookupPath(sr.topic), sr.Reach(), u, Rec(sr)).Keys == t.Keys
    ensures forall q :: q in t ==>
              Gains(t[q], Subscribed(t, LookupPath(sr.topic), sr.Reach(), u, Rec(sr))[q], u, Reaching([sr], q))
  {
    hide AddSub, LookupPath, Reaching, Gains, Within;
    var t1 := Subscribed(t, LookupPath(sr.topic), sr.Reach(), u, Rec(sr));
    forall q | q in t ensures Gains(t[q], t1[q], u, Reaching([sr], q)) {
      ReachingOne(sr, q);
      SubscribedLists(t, LookupPath(sr.topic), sr.Reach(), u, Rec(sr), q);
    }
  }

  lemma ReachingMore(reqs: seq<SubscrReq>, q: Path)
    requires reqs != []
    ensures Reaching(reqs, q) == Reaching([reqs[0]], q) + Reaching(reqs[1..], q)
  {
    assert [reqs[0]][1..] == [];
  }

  lemma ServedNext(t: Tree, reqs: seq<SubscrReq>)
    requires reqs != [] && Servable(t, reqs[0])
    ensures Served(t, reqs) == 1 + Served(t, reqs[1..])
  {
    hide Servable;
  }

  lemma NoneServed(t: Tree, u: Uuid, reqs: seq<SubscrReq>)
    requires reqs == [] || !Servable(t, reqs[0])
    ensures Served(t, reqs) == 0 && SubscribeAll(t, u, reqs).0 == t && (SubscribeAll(t, u, reqs).1.Ok? <==> reqs == [])
    ensures ListsGain(t, t, u, reqs[..0])
  {
    forall q | q in t ensures Gains(t[q], t[q], u, Reaching(reqs[..0], q)) {
      GainsNothing(t[q], t[q], u);
    }
    hide Gains, Subscribed, LookupPath, Trim;
  }

  /** What is left to do after the first request. */
  lemma AfterFirst(t: Tree, u: Uuid, reqs: seq<SubscrReq>) returns (t1: Tree)
    requires reqs != [] && Servable(t, reqs[0])
    ensures SubscribeAll(t, u, reqs) == SubscribeAll(t1, u, reqs[1..]) && t1.Keys == t.Keys
    ensures forall q :: q in t ==> Gains(t[q], t1[q], u, Reaching([reqs[0]], q))
    ensures Served(t, reqs) == 1 + Served(t1, reqs[1..])
  {
    t1 := Subscribed(t, LookupPath(reqs[0].topic), reqs[0].Reach(), u, Rec(reqs[0]));
    FirstServed(t, u, reqs[0]);
    ServedSame(t, t1, reqs[1..]);
    ServedNext(t, reqs);
    hide Gains, Subscribed, LookupPath, Trim, Reaching, Rec;
  }

  /** A `Subscribe` call serves its requests in order up to the first that cannot be served, succeeds
      exactly when there is none, and leaves on every topic the old list followed by the records of the
      served requests that reach it, in their order. */
  lemma {:induction false} SubscribeAllLists(t: Tree, u: Uuid, reqs: seq<SubscrReq>)
    ensures ListsGain(t, SubscribeAll(t, u, reqs).0, u, reqs[..Served(t, reqs)])
    ensures SubscribeAll(t, u, reqs).1.Ok? <==> Served(t, reqs) == |reqs|
  {
    hide *;
    if reqs == [] || !Servable(t, reqs[0]) {
      NoneServed(t, u, reqs);
    } else {
      var t1 := AfterFirst(t, u, reqs);
      SubscribeAllLists(t1, u, reqs[1..]);
      ListsGainMore(t, t1, SubscribeAll(t, u, reqs).0, u, reqs, Served(t, reqs));
    }
  }

  lemma ListsGainMore(t: Tree, t1: Tree, t': Tree, u: Uuid, reqs: seq<SubscrReq>, n: nat)
    requires 0 < n <= |reqs| && t1.Keys == t.Keys && ListsGain(t1, t', u, reqs[1..][..n - 1])
    requires forall q :: q in t ==> Gains(t[q], t1[q], u, Reaching([reqs[0]], q))
    ensures ListsGain(t, t', u, reqs[..n])
  {
    hide Reaching, Gains;
    forall q | q in t ensures Gains(t[q], t'[q], u, Reaching(reqs[..n], q)) {
      assert reqs[..n][1..] == reqs[1..][..n - 1];
      ReachingMore(reqs[..n], q);
      GainsMore(t[q], t1[q], t'[q], u, Reaching([reqs[0]], q), Reaching(reqs[1..][..n - 1], q));
    }
  }

  /** One topic, if it is named, has no list of `u` any more; there are no other changes. */
  ghost predicate Drops(i: TopicInfo, i': TopicInfo, u: Uuid, named: bool) {
    && i'.fullName == i.fullName && i'.runned == i.runned && i'.cancelled == i.cancelled
    && (forall v :: v != u ==> (v in i'.subs <==> v in i.subs) && (v in i.subs ==> i'.subs[v] == i.subs[v]))
    && (u in i'.subs <==> u in i.subs && !named)
    && (u in i'.subs ==> i'.subs[u] == i.subs[u])
  }

  ghost predicate Unlisted(t: Tree, t': Tree, u: Uuid, names: seq<string>) {
    t'.Keys == t.Keys && forall q :: q in t ==> Drops(t[q], t'[q], u, Named(names, q))
  }

  ghost predicate Named(names: seq<string>, q: Path) {
    exists i :: 0 <= i < |names| && LookupPath(names[i]) == q
  }

  ghost predicate AllListed(t: Tree, u: Uuid, names: seq<string>) {
    && (forall i :: 0 <= i < |names| ==> LookupPath(names[i]) in t && u in t[LookupPath(names[i])].subs)
    && (forall i, j :: 0 <= i < j < |names| ==> LookupPath(names[i]) != LookupPath(names[j]))
  }

  lemma NamedMore(names: seq<string>, q: Path)
    requires names != []
    ensures Named(names, q) <==> LookupPath(names[0]) == q || Named(names[1..], q)
  {
    hide LookupPath;
    assert forall i :: 0 <= i < |names| - 1 ==> names[1..][i] == names[i + 1];
    if i :| 0 < i < |names| && LookupPath(names[i]) == q {
      assert names[1..][i - 1] == names[i];
    }
  }

  lemma DropsMore(i: TopicInfo, j: TopicInfo, k: TopicInfo, u: Uuid, first: bool, more: bool)
    requires Drops(i, j, u, first) && Drops(j, k, u, more)
    ensures Drops(i, k, u, first || more)
  {
  }

  /** What one unsubscription does to the lists of every topic of the tree. */
  lemma UnsubscribedLists(t: Tree, p: Path, u: Uuid, q: Path)
    requires p in t && q in t
    ensures Unsubscribed(t, p, u).Keys == t.Keys && Drops(t[q], Unsubscribed(t, p, u)[q], u, q == p)
  {
  }

  lemma UnlistedMore(t: Tree, t': Tree, u: Uuid, names: seq<string>)
    requires names != [] && LookupPath(names[0]) in t && Unlisted(Unsubscribed(t, LookupPath(names[0]), u), t', u, names[1..])
    ensures Unlisted(t, t', u, names)
  {
    var p := LookupPath(names[0]);
    UnsubscribedLists(t, p, u, p);
    hide Named, LookupPath, Drops, Unsubscribed;
    forall q | q in t ensures Drops(t[q], t'[q], u, Named(names, q)) {
      NamedMore(names, q);
      UnsubscribedLists(t, p, u, q);
      DropsMore(t[q], Unsubscribed(t, p, u)[q], t'[q], u, q == p, Named(names[1..], q));
    }
  }

  lemma ListedMore(t: Tree, u: Uuid, names: seq<string>)
    requires names != [] && LookupPath(names[0]) in t && u in t[LookupPath(names[0])].subs
    ensures AllListed(Unsubscribed(t, LookupPath(names[0]), u), u, names[1..]) <==> AllListed(t, u, names)
  {
    hide LookupPath;
    var rest := names[1..];
    assert forall i :: 0 <= i < |rest| ==> rest[i] == names[i + 1];
    assert forall i :: 0 < i < |names| ==> names[i] == rest[i - 1];
  }

  lemma NotListed(t: Tree, u: Uuid, names: seq<string>)
    requires names == [] || LookupPath(names[0]) !in t || u !in t[LookupPath(names[0])].subs
    ensures AllListed(t, u, names[..0]) && Unlisted(t, t, u, names[..0])
    ensures names != [] ==> !AllListed(t, u, names) && !AllListed(t, u, names[..1])
    ensures UnsubscribeAll(t, u, names).0 == t && (UnsubscribeAll(t, u, names).1.Ok? <==> names == [])
  {
    hide LookupPath;
    if names != [] {
      assert names[..1][0] == names[0];
    }
  }

  lemma UnsubscribeFirst(t: Tree, u: Uuid, names: seq<string>)
    requires names != [] && LookupPath(names[0]) in t && u in t[LookupPath(names[0])].subs
    ensures UnsubscribeAll(t, u, names) == UnsubscribeAll(Unsubscribed(t, LookupPath(names[0]), u), u, names[1..])
  {
    hide LookupPath, Unsubscribed;
  }

  lemma TailSlice<T>(s: seq<T>, k: nat)
    requires 0 < k <= |s|
    ensures s[..k] != [] && s[..k][0] == s[0] && s[..k][1..] == s[1..][..k - 1] && s[..|s|] == s
  {
  }

  /** An `UnSubscribe` call takes the subscriber off the lists of the topics named before the first name
      it cannot serve, and changes nothing else. It succeeds exactly when the names lead to distinct
      topics on all of which the subscriber has a list. */
  lemma {:induction false} UnsubscribeAllLists(t: Tree, u: Uuid, names: seq<string>) returns (k: nat)
    ensures k <= |names| && AllListed(t, u, names[..k]) && (k < |names| ==> !AllListed(t, u, names[..k + 1]))
    ensures Unlisted(t, UnsubscribeAll(t, u, names).0, u, names[..k])
    ensures UnsubscribeAll(t, u, names).1.Ok? <==> AllListed(t, u, names)
    decreases |names|
  {
    hide *;
    if names == [] || LookupPath(names[0]) !in t || u !in t[LookupPath(names[0])].subs {
      k := 0;
      NotListed(t, u, names);
      assert names == [] ==> names[..0] == names;
    } else {
      UnsubscribeFirst(t, u, names);
      k := UnsubscribeAllLists(Unsubscribed(t, LookupPath(names[0]), u), u, names[1..]);
      k := k + 1;
      ListedMore(t, u, names);
      TailSlice(names, k);
      ListedMore(t, u, names[..k]);
      UnlistedMore(t, UnsubscribeAll(t, u, names).0, u, names[..k]);
      if k < |names| {
        TailSlice(names, k + 1);
        ListedMore(t, u, names[..k + 1]);
      }
    }
  }

  lemma AllUnlisted(t: Tree, u: Uuid, names: seq<string>)
    ensures UnsubscribeAll(t, u, names).1.Ok? <==> AllListed(t, u, names)
    ensures UnsubscribeAll(t, u, names).1.Ok? ==> Unlisted(t, UnsubscribeAll(t, u, names).0, u, names)
  {
    var k := UnsubscribeAllLists(t, u, names);
    hide *;
    assert names[..|names|] == names;
    if k < |names| && AllListed(t, u, names) {
      ListedPrefix(t, u, names, k + 1);
    }
  }

  lemma ListedPrefix(t: Tree, u: Uuid, names: seq<string>, k: nat)
    requires k <= |names| && AllListed(t, u, names)
    ensures AllListed(t, u, names[..k])
  {
    hide LookupPath;
    assert forall i :: 0 <= i < k ==> names[..k][i] == names[i];
  }
}
