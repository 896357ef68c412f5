/** Topic names: trimming, splitting at slashes, and the path of keys a name leads to. */
module Names {

  // ---------------------------------------------------------------- the string functions used

  function TrimLeft(s: string): string {
    if s != "" && s[0] == ' ' then TrimLeft(s[1..]) else s
  }

  function TrimRight(s: string): string {
    if s != "" && s[|s| - 1] == ' ' then TrimRight(s[..|s| - 1]) else s
  }

  /** `strings.Trim(s, " ")` */
  function Trim(s: string): string {
    TrimRight(TrimLeft(s))
  }

  function Spaces(n: nat): string {
    seq(n, _ => ' ')
  }

  lemma {:induction false} TrimLeftParts(s: string) returns (n: nat)
    ensures s == Spaces(n) + TrimLeft(s) && (TrimLeft(s) != "" ==> TrimLeft(s)[0] != ' ')
  {
    if s != "" && s[0] == ' ' {
      n := TrimLeftParts(s[1..]);
      n := n + 1;
    } else {
      n := 0;
    }
  }

  lemma {:induction false} TrimRightParts(s: string) returns (n: nat)
    ensures s == TrimRight(s) + Spaces(n) && (TrimRight(s) != "" ==> TrimRight(s)[|TrimRight(s)| - 1] != ' ')
  {
    if s != "" && s[|s| - 1] == ' ' {
      n := TrimRightParts(s[..|s| - 1]);
      assert s == s[..|s| - 1] + [' '];
      assert Spaces(n + 1) == Spaces(n) + [' '];
      n := n + 1;
    } else {
      n := 0;
    }
  }

  /** Trimming takes the spaces off both ends, all of them and nothing else. */
  lemma TrimParts(s: string) returns (before: nat, after: nat)
    ensures s == Spaces(before) + Trim(s) + Spaces(after)
    ensures Trim(s) != "" ==> Trim(s)[0] != ' ' && Trim(s)[|Trim(s)| - 1] != ' '
  {
    before := TrimLeftParts(s);
    after := TrimRightParts(TrimLeft(s));
    hide TrimLeft, TrimRight;
    if Trim(s) != "" {
      assert Trim(s)[0] == TrimLeft(s)[0];
    }
  }

  /** `strings.Split(s, "/")` */
  function Split(s: string): (pieces: seq<string>)
    ensures pieces != []
  {
    if s == "" then [""] else PushChar(s[0], Split(s[1..]))
  }

  /** One more character in front: a slash opens a new piece. */
  function PushChar(c: char, rest: seq<string>): (pieces: seq<string>)
    requires rest != []
    ensures pieces != []
  {
    if c == '/' then [""] + rest else [[c] + rest[0]] + rest[1..]
  }

  function JoinPieces(pieces: seq<string>): string
    requires pieces != []
  {
    if |pieces| == 1 then pieces[0] else pieces[0] + "/" + JoinPieces(pieces[1..])
  }

  /** Splitting is undone by joining, and no piece has a slash. */
  lemma {:induction false} SplitPieces(s: string)
    ensures JoinPieces(Split(s)) == s
    ensures forall i :: 0 <= i < |Split(s)| ==> '/' !in Split(s)[i]
  {
    if s != "" {
      var rest := Split(s[1..]);
      SplitPieces(s[1..]);
      hide Split;
      if s[0] == '/' {
        assert ([""] + rest)[1..] == rest;
        assert "" + "/" + JoinPieces(rest) == s;
      } else {
        var pieces := [[s[0]] + rest[0]] + rest[1..];
        assert pieces[1..] == rest[1..];
        assert s == [s[0]] + s[1..];
        if |rest| > 1 {
          assert [s[0]] + rest[0] + "/" + JoinPieces(rest[1..]) == [s[0]] + (rest[0] + "/" + JoinPieces(rest[1..]));
        }
      }
    }
  }

  /** `update2Absolute` */
  function ToAbsolute(path: string): string {
    var p := Trim(path);
    if p == "" then "/" else if p[0] != '/' then "/" + p else p
  }

  function Kept(piece: string): seq<string> {
    var t := Trim(piece);
    if t == "" then [] else [t]
  }

  /** The trimmed pieces that are not empty. */
  function Clean(pieces: seq<string>): seq<string> {
    if pieces == [] then [] else Kept(pieces[0]) + Clean(pieces[1..])
  }

  /** What every operation makes of a slash-separated name. */
  function Segments(s: string): seq<string> {
    Clean(Split(s))
  }

  // ---------------------------------------------------------------- paths and names

  /** The keys that lead to a topic: the key in the server's table, then one key per level. */
  type Path = seq<string>

  ghost predicate SlashFree(s: string) {
    forall i :: 0 <= i < |s| ==> s[i] != '/'
  }

  /** A well-formed segment: nonempty, without slashes and without outer spaces. */
  ghost predicate IsSegment(s: string) {
    s != "" && SlashFree(s) && Trim(s) == s
  }

  ghost predicate AllSegments(segs: seq<string>) {
    forall i :: 0 <= i < |segs| ==> IsSegment(segs[i])
  }

  /** The server's table holds root names with their slash. */
  function TopicPath(segs: seq<string>): Path {
    if segs == [] then [] else ["/" + segs[0]] + segs[1..]
  }

  function Absolute(segs: seq<string>): string {
    if segs == [] then "" else "/" + segs[0] + Absolute(segs[1..])
  }

  /** A root topic is called by its key; a subtopic by its parent's name, a slash and its key. */
  function FullName(path: Path): string
    requires path != []
  {
    path[0] + Absolute(path[1..])
  }

  ghost predicate Canonical(path: Path) {
    && path != [] && path[0] != "" && path[0][0] == '/'
    && IsSegment(path[0][1..]) && AllSegments(path[1..])
  }

  /** Where a lookup of `name` goes. */
  function LookupPath(name: string): Path {
    TopicPath(Segments(name))
  }

  // ---------------------------------------------------------------- trimming

  lemma TrimFixed(s: string)
    ensures Trim(s) != "" ==> Trim(s)[0] != ' ' && Trim(s)[|Trim(s)| - 1] != ' '
    ensures Trim(Trim(s)) == Trim(s)
    ensures SlashFree(s) ==> SlashFree(Trim(s))
  {
    LeftFixed(s);
    RightFixed(TrimLeft(s));
  }

  lemma LeftFixed(s: string)
    ensures TrimLeft(s) != "" ==> TrimLeft(s)[0] != ' '
    ensures SlashFree(s) ==> SlashFree(TrimLeft(s))
  {
  }

  lemma RightFixed(s: string)
    ensures TrimRight(s) != "" ==> TrimRight(s)[|TrimRight(s)| - 1] != ' ' && TrimRight(s)[0] == s[0]
    ensures SlashFree(s) ==> SlashFree(TrimRight(s))
  {
  }

  lemma {:induction false} TrimSnoc(s: string)
    ensures Trim(s + " ") == Trim(s)
  {
    if s == "" {
    } else if s[0] == ' ' {
      TrimSnoc(s[1..]);
      assert (s + " ")[1..] == s[1..] + " ";
    } else {
      assert (s + " ")[..|s + " "| - 1] == s;
    }
  }

  // ---------------------------------------------------------------- splitting

  lemma PushJoin(c: char, p: seq<string>, q: seq<string>)
    requires p != []
    ensures PushChar(c, p + q) == PushChar(c, p) + q
  {
    assert (p + q)[1..] == p[1..] + q;
  }

  lemma {:induction false} SplitJoin(a: string, b: string)
    ensures Split(a + "/" + b) == Split(a) + Split(b)
  {
    var s := a + "/" + b;
    if a == "" {
      assert s[1..] == b;
      assert Split(a) == [""];
    } else {
      assert s[1..] == a[1..] + "/" + b && s[0] == a[0];
      SplitJoin(a[1..], b);
      PushJoin(a[0], Split(a[1..]), Split(b));
    }
  }

  lemma {:induction false} SplitSlashFree(s: string)
    requires SlashFree(s)
    ensures Split(s) == [s]
  {
    if s != "" {
      SplitSlashFree(s[1..]);
      assert [s[0]] + s[1..] == s;
    }
  }

  lemma {:induction false} PiecesSlashFree(s: string)
    ensures forall i :: 0 <= i < |Split(s)| ==> SlashFree(Split(s)[i])
    ensures Split(s)[0] != "" ==> s != "" && s[0] != '/'
    ensures |Split(s)| > 1 ==> !SlashFree(s)
    ensures |Split(s)| == 1 ==> Split(s) == [s] && SlashFree(s)
  {
    if s != "" {
      PiecesSlashFree(s[1..]);
      assert [s[0]] + s[1..] == s;
      if s[0] != '/' && |Split(s[1..])| > 1 {
        var i :| 0 <= i < |s[1..]| && s[1..][i] == '/';
        assert s[i + 1] == '/';
      }
    }
  }

  lemma {:induction false} CleanJoin(p: seq<string>, q: seq<string>)
    ensures Clean(p + q) == Clean(p) + Clean(q)
  {
    hide Kept;
    if p == [] {
      assert p + q == q;
    } else {
      CleanJoin(p[1..], q);
      assert (p + q)[0] == p[0] && (p + q)[1..] == p[1..] + q;
      assert Clean(p + q) == Kept(p[0]) + Clean(p[1..] + q);
      assert Clean(p) == Kept(p[0]) + Clean(p[1..]);
      hide Clean;
    }
  }

  /** A slash between two names joins their segments. */
  lemma SegmentsJoin(a: string, b: string)
    ensures Segments(a + "/" + b) == Segments(a) + Segments(b)
  {
    SplitJoin(a, b);
    CleanJoin(Split(a), Split(b));
  }

  lemma {:induction false} CleanIsSegments(pieces: seq<string>)
    requires forall i :: 0 <= i < |pieces| ==> SlashFree(pieces[i])
    ensures AllSegments(Clean(pieces))
  {
    if pieces != [] {
      TrimFixed(pieces[0]);
      CleanIsSegments(pieces[1..]);
    }
  }

  lemma SegmentsAreSegments(s: string)
    ensures AllSegments(Segments(s))
  {
    PiecesSlashFree(s);
    CleanIsSegments(Split(s));
  }

  lemma {:induction false} CleanOfSegments(segs: seq<string>)
    requires AllSegments(segs)
    ensures Clean(segs) == segs
  {
    if segs != [] {
      CleanOfSegments(segs[1..]);
    }
  }

  lemma {:induction false} SplitAbsolute(segs: seq<string>)
    requires AllSegments(segs)
    ensures Split(Absolute(segs)) == [""] + segs
  {
    if segs != [] {
      var rest := Absolute(segs[1..]);
      SplitAbsolute(segs[1..]);
      SplitAfterPiece(segs[0], rest, segs[1..]);
      assert Absolute(segs)[1..] == segs[0] + rest;
      assert [segs[0]] + segs[1..] == segs;
    }
  }

  lemma {:induction false} SplitAfterPiece(x: string, rest: string, pieces: seq<string>)
    requires SlashFree(x) && Split(rest) == [""] + pieces
    ensures Split(x + rest) == [x] + pieces
  {
    if x == "" {
      assert x + rest == rest;
    } else {
      SplitAfterPiece(x[1..], rest, pieces);
      assert (x + rest)[0] == x[0] && (x + rest)[1..] == x[1..] + rest;
      assert [x[0]] + x[1..] == x;
      assert ([x[1..]] + pieces)[1..] == pieces;
    }
  }

  /** Joining well-formed segments with slashes and parsing the result gives them back. */
  lemma SegmentsOfAbsolute(segs: seq<string>)
    requires AllSegments(segs)
    ensures Segments(Absolute(segs)) == segs
  {
    SplitAbsolute(segs);
    CleanJoin([""], segs);
    CleanOfSegments(segs);
  }

  lemma SegmentsSnocSpace(s: string)
    ensures Segments(s + " ") == Segments(s)
  {
    var p := Split(s);
    var last := |p| - 1;
    SplitSnocSpace(s);
    assert p == p[..last] + [p[last]];
    CleanJoin(p[..last], [p[last]]);
    CleanJoin(p[..last], [p[last] + " "]);
    TrimSnoc(p[last]);
    CleanOne(p[last]);
    CleanOne(p[last] + " ");
  }

  lemma CleanOne(piece: string)
    ensures Clean([piece]) == Kept(piece)
  {
  }

  function SnocSpace(p: seq<string>): seq<string>
    requires p != []
  {
    p[..|p| - 1] + [p[|p| - 1] + " "]
  }

  lemma PushSnocSpace(c: char, p: seq<string>)
    requires p != []
    ensures PushChar(c, SnocSpace(p)) == SnocSpace(PushChar(c, p))
  {
    if c != '/' {
      if |p| == 1 {
        assert [c] + (p[0] + " ") == ([c] + p[0]) + " ";
      } else {
        assert SnocSpace(p)[1..] == p[1..|p| - 1] + [p[|p| - 1] + " "];
        assert ([[c] + p[0]] + p[1..])[..|p| - 1] == [[c] + p[0]] + p[1..|p| - 1];
      }
    }
  }

  lemma {:induction false} SplitSnocSpace(s: string)
    ensures Split(s + " ") == SnocSpace(Split(s))
  {
    if s == "" {
      assert s + " " == " ";
      assert " "[1..] == "";
      assert Split("") == [""];
      assert [' '] + "" == " ";
    } else {
      SplitSnocSpace(s[1..]);
      assert (s + " ")[0] == s[0] && (s + " ")[1..] == s[1..] + " ";
      PushSnocSpace(s[0], Split(s[1..]));
    }
  }

  lemma SegmentsConsSpace(s: string)
    ensures Segments(" " + s) == Segments(s)
  {
    var p := Split(s);
    assert (" " + s)[1..] == s;
    assert [' '] + p[0] == " " + p[0];
    assert Split(" " + s) == [" " + p[0]] + p[1..];
    assert (" " + p[0])[1..] == p[0];
    CleanJoin([" " + p[0]], p[1..]);
    CleanJoin([p[0]], p[1..]);
    CleanOne(p[0]);
    CleanOne(" " + p[0]);
    assert p == [p[0]] + p[1..];
  }

  /** Outer spaces do not matter to the segments of a name. */
  lemma SegmentsTrim(s: string)
    ensures Segments(Trim(s)) == Segments(s)
  {
    SegmentsTrimLeft(s);
    SegmentsTrimRight(TrimLeft(s));
  }

  lemma {:induction false} SegmentsTrimLeft(s: string)
    ensures Segments(TrimLeft(s)) == Segments(s)
  {
    if s != "" && s[0] == ' ' {
      SegmentsConsSpace(s[1..]);
      assert " " + s[1..] == s;
      SegmentsTrimLeft(s[1..]);
    }
  }

  lemma {:induction false} SegmentsTrimRight(s: string)
    ensures Segments(TrimRight(s)) == Segments(s)
  {
    if s != "" && s[|s| - 1] == ' ' {
      SegmentsSnocSpace(s[..|s| - 1]);
      assert s[..|s| - 1] + " " == s;
      SegmentsTrimRight(s[..|s| - 1]);
    }
  }

  // ---------------------------------------------------------------- names and paths

  lemma CanonicalPath(segs: seq<string>)
    requires AllSegments(segs) && segs != []
    ensures Canonical(TopicPath(segs)) && FullName(TopicPath(segs)) == Absolute(segs)
    ensures ToAbsolute(segs[0]) == "/" + segs[0]
  {
    var p := TopicPath(segs);
    assert p[0][1..] == segs[0] && p[1..] == segs[1..];
  }

  lemma CanonicalSegments(path: Path)
    requires Canonical(path)
    ensures AllSegments([path[0][1..]] + path[1..]) && TopicPath([path[0][1..]] + path[1..]) == path
  {
    var segs := [path[0][1..]] + path[1..];
    assert segs[1..] == path[1..];
    assert "/" + path[0][1..] == path[0];
  }

  /** Looking up a topic's own full name leads to that topic exactly when its path is made of
      well-formed segments. */
  lemma FullNameLookup(path: Path)
    requires path != []
    ensures LookupPath(FullName(path)) == path <==> Canonical(path)
  {
    if Canonical(path) {
      CanonicalSegments(path);
      var segs := [path[0][1..]] + path[1..];
      CanonicalPath(segs);
      SegmentsOfAbsolute(segs);
    }
    SegmentsAreSegments(FullName(path));
    if Segments(FullName(path)) != [] {
      CanonicalPath(Segments(FullName(path)));
    }
  }

  /** Topics on well-formed paths have different full names. */
  lemma FullNamesUnique(p: Path, q: Path)
    requires Canonical(p) && Canonical(q) && FullName(p) == FullName(q)
    ensures p == q
  {
    FullNameLookup(p);
    FullNameLookup(q);
  }

  // ---------------------------------------------------------------- where AddTopic puts a topic

  /** The last nonempty piece at or before `i`, but never before piece 0. */
  function LastPiece(nn: seq<string>, i: nat): (pos: nat)
    requires i < |nn|
    ensures pos <= i
    ensures pos > 0 ==> nn[pos] != ""
    ensures forall j :: pos < j <= i ==> nn[j] == ""
  {
    if i == 0 || nn[i] != "" then i else LastPiece(nn, i - 1)
  }

  /** The topic's own name: the last nonempty piece of the trimmed name; the whole of it when every
      piece after the first is empty. */
  function Leaf(name: string): string {
    var n := Trim(name);
    var nn := Split(n);
    var pos := LastPiece(nn, |nn| - 1);
    if pos > 0 then nn[pos] else n
  }

  /** The segments above the new topic: the branch, then the leading pieces of the name. */
  function Base(name: string, branch: string): seq<string> {
    var nn := Split(Trim(name));
    Segments(branch) + Clean(nn[..LastPiece(nn, |nn| - 1)])
  }

  function Target(name: string, branch: string): (p: Path)
    ensures p != []
  {
    var base := Base(name, branch);
    if base == [] then [ToAbsolute(Leaf(name))] else [ToAbsolute(base[0])] + base[1..] + [Leaf(name)]
  }

  /** The name is one piece, or some piece after the first is nonempty and the last such piece
      needs no trimming (a root topic's name is trimmed anyway, but must not be blank). */
  predicate WellPlaced(name: string, branch: string) {
    var nn := Split(Trim(name));
    var pos := LastPiece(nn, |nn| - 1);
    if pos == 0 then |nn| == 1
    else Trim(nn[pos]) != "" && (Base(name, branch) == [] || Trim(nn[pos]) == nn[pos])
  }

  lemma {:induction false} CleanOfEmpties(pieces: seq<string>)
    requires forall i :: 0 <= i < |pieces| ==> pieces[i] == ""
    ensures Clean(pieces) == []
  {
    if pieces != [] {
      CleanOfEmpties(pieces[1..]);
    }
  }

  lemma EmptyTail(nn: seq<string>, pos: nat)
    requires pos < |nn| && forall j :: pos < j < |nn| ==> nn[j] == ""
    ensures Clean(nn[pos + 1..]) == []
  {
    CleanOfEmpties(nn[pos + 1..]);
  }

  lemma CleanSplitAt(nn: seq<string>, pos: nat)
    requires pos < |nn| && Clean(nn[pos + 1..]) == []
    ensures Clean(nn) == Clean(nn[..pos]) + Clean([nn[pos]])
  {
    hide *;
    var front, rest := nn[..pos + 1], nn[pos + 1..];
    assert front + rest == nn;
    assert nn[..pos] + [nn[pos]] == front;
    CleanJoin(nn[..pos], [nn[pos]]);
    CleanJoin(front, rest);
  }

  lemma SegmentsSplitAt(name: string)
    ensures var nn := Split(Trim(name));
            var pos := LastPiece(nn, |nn| - 1);
            Segments(name) == Clean(nn[..pos]) + Clean([nn[pos]])
  {
    SegmentsTrim(name);
    var nn := Split(Trim(name));
    hide Clean, Split, Trim;
    EmptyTail(nn, LastPiece(nn, |nn| - 1));
    CleanSplitAt(nn, LastPiece(nn, |nn| - 1));
  }

  lemma PathSnoc(base: seq<string>, leaf: string)
    requires base != []
    ensures TopicPath(base + [leaf]) == TopicPath(base) + [leaf]
  {
    assert (base + [leaf])[1..] == base[1..] + [leaf];
  }

  lemma BaseIsSegments(name: string, branch: string)
    ensures AllSegments(Base(name, branch))
  {
    var nn := Split(Trim(name));
    SegmentsAreSegments(branch);
    PiecesSlashFree(Trim(name));
    hide SlashFree, Split, Trim, Clean, Segments, IsSegment, LastPiece;
    CleanIsSegments(nn[..LastPiece(nn, |nn| - 1)]);
  }

  lemma TargetShape(name: string, branch: string)
    ensures var base := Base(name, branch);
            Target(name, branch) == if base == [] then [ToAbsolute(Leaf(name))] else TopicPath(base) + [Leaf(name)]
  {
    BaseIsSegments(name, branch);
    var base := Base(name, branch);
    if base != [] {
      CanonicalPath(base);
    }
  }

  lemma PathSlashFree(segs: seq<string>, i: nat)
    requires AllSegments(segs) && i < |segs|
    ensures SlashFree(if i == 0 then TopicPath(segs)[0][1..] else TopicPath(segs)[i])
  {
    assert ("/" + segs[0])[1..] == segs[0];
    assert i > 0 ==> TopicPath(segs)[i] == segs[i];
  }

  /** A name such as "x/" stays with its slash, so no well-formed path reaches the topic. */
  lemma SlashyLeaf(name: string, branch: string)
    requires var nn := Split(Trim(name)); |nn| > 1 && LastPiece(nn, |nn| - 1) == 0
    ensures Target(name, branch) != TopicPath(Segments(branch) + Segments(name))
  {
    hide *;
    SlashyFacts(name, branch);
    TargetShape(name, branch);
    var n, base, segs := Trim(name), Segments(branch), Segments(branch) + Segments(name);
    BaseLength(segs);
    BaseLength(base);
    SegmentsAreSegments(name);
    SegmentsAreSegments(branch);
    if base != [] {
      assert Target(name, branch)[|base|] == n;
      if |segs| == |base| + 1 {
        PathSlashFree(segs, |base|);
      }
    } else if |segs| == 1 {
      assert segs == Segments(name);
      PathSlashFree(segs, 0);
      assert ("/" + n)[1..] == n;
    }
  }

  lemma SlashyFacts(name: string, branch: string)
    requires var nn := Split(Trim(name)); |nn| > 1 && LastPiece(nn, |nn| - 1) == 0
    ensures !SlashFree(Trim(name)) && Leaf(name) == Trim(name) && Base(name, branch) == Segments(branch)
    ensures Segments(name) != [] ==> ToAbsolute(Trim(name)) == "/" + Trim(name)
  {
    var n := Trim(name);
    TrimFixed(name);
    PiecesSlashFree(n);
    SegmentsSplitAt(name);
    var nn := Split(n);
    CleanOne(nn[0]);
    hide Split, Segments, SlashFree;
    assert nn[..0] == [] && Segments(branch) + [] == Segments(branch);
    if nn[0] == "" {
      assert Trim("") == "";
    }
  }

  lemma BaseLength(segs: seq<string>)
    ensures |TopicPath(segs)| == |segs|
  {
  }

  /** `AddTopic` puts a topic where the segments of branch and name, read one after the other,
      lead, exactly when the name is well placed. */
  lemma TargetIsConcatenation(name: string, branch: string)
    ensures Target(name, branch) == TopicPath(Segments(branch) + Segments(name)) && Trim(name) != ""
            <==> WellPlaced(name, branch) && Trim(name) != ""
  {
    if Trim(name) != "" {
      var n := Trim(name);
      var nn := Split(n);
      var pos := LastPiece(nn, |nn| - 1);
      if pos == 0 && |nn| > 1 {
        SlashyLeaf(name, branch);
      } else {
        ConcatenationAt(name, branch);
      }
    }
  }

  /** The piece that names the new topic. */
  function LastOf(name: string): string {
    var nn := Split(Trim(name));
    nn[LastPiece(nn, |nn| - 1)]
  }

  predicate OnePieceOrLater(name: string) {
    var nn := Split(Trim(name));
    |nn| == 1 || LastPiece(nn, |nn| - 1) > 0
  }

  lemma LeafIsLast(name: string)
    requires Trim(name) != "" && OnePieceOrLater(name)
    ensures Leaf(name) == LastOf(name) && LastOf(name) != "" && SlashFree(LastOf(name))
  {
    PiecesSlashFree(Trim(name));
    hide Split, Trim;
  }

  lemma WellPlacedIs(name: string, branch: string)
    requires Trim(name) != "" && OnePieceOrLater(name)
    ensures WellPlaced(name, branch) <==>
            Trim(LastOf(name)) != "" && (Base(name, branch) == [] || Trim(LastOf(name)) == LastOf(name))
  {
    TrimFixed(name);
    PiecesSlashFree(Trim(name));
    hide Split, Trim, Base;
  }

  lemma BaseAndLast(name: string, branch: string)
    ensures Segments(branch) + Segments(name) == Base(name, branch) + Clean([LastOf(name)])
  {
    SegmentsSplitAt(name);
    hide Split, Trim, Clean, Segments;
  }

  lemma ConcatenationAt(name: string, branch: string)
    requires Trim(name) != "" && OnePieceOrLater(name)
    ensures Target(name, branch) == TopicPath(Segments(branch) + Segments(name)) <==> WellPlaced(name, branch)
  {
    hide *;
    LeafIsLast(name);
    WellPlacedIs(name, branch);
    TargetShape(name, branch);
    BaseAndLast(name, branch);
    LeafPlaced(Base(name, branch), LastOf(name));
  }

  lemma LeafPlaced(base: seq<string>, leaf: string)
    requires leaf != "" && SlashFree(leaf)
    ensures (if base == [] then [ToAbsolute(leaf)] else TopicPath(base) + [leaf]) == TopicPath(base + Clean([leaf]))
            <==> Trim(leaf) != "" && (base == [] || Trim(leaf) == leaf)
  {
    CleanOne(leaf);
    TrimFixed(leaf);
    hide Trim, Clean;
    if base != [] {
      PathSnoc(base, Trim(leaf));
      assert base + [] == base;
      assert (TopicPath(base) + [leaf])[|base|] == leaf && (TopicPath(base) + [Trim(leaf)])[|base|] == Trim(leaf);
    } else {
      assert [] + [Trim(leaf)] == [Trim(leaf)];
    }
  }

  /** Moving leading segments between name and branch changes nothing. */
  lemma TargetDependsOnSegments(name: string, branch: string, name': string, branch': string)
    requires Trim(name) != "" && Trim(name') != "" && WellPlaced(name, branch) && WellPlaced(name', branch')
    requires Segments(branch) + Segments(name) == Segments(branch') + Segments(name')
    ensures Target(name, branch) == Target(name', branch')
  {
    TargetIsConcatenation(name, branch);
    TargetIsConcatenation(name', branch');
  }

  /** The new topic's path is made of well-formed segments exactly when the name is well placed. */
  lemma CanonicalTarget(name: string, branch: string)
    requires Trim(name) != ""
    ensures Canonical(Target(name, branch)) <==> WellPlaced(name, branch)
  {
    if OnePieceOrLater(name) {
      hide *;
      LeafIsLast(name);
      WellPlacedIs(name, branch);
      TargetShape(name, branch);
      BaseIsSegments(name, branch);
      LeafCanonical(Base(name, branch), LastOf(name));
    } else {
      SlashyNotCanonical(name, branch);
    }
  }

  lemma LeafCanonical(base: seq<string>, leaf: string)
    requires AllSegments(base) && leaf != "" && SlashFree(leaf)
    ensures Canonical(if base == [] then [ToAbsolute(leaf)] else TopicPath(base) + [leaf])
            <==> Trim(leaf) != "" && (base == [] || Trim(leaf) == leaf)
  {
    TrimFixed(leaf);
    if base == [] {
      if Trim(leaf) != "" {
        assert ("/" + Trim(leaf))[1..] == Trim(leaf);
      }
    } else {
      var p := TopicPath(base) + [leaf];
      CanonicalPath(base);
      assert p[0] == TopicPath(base)[0] && p[1..] == TopicPath(base)[1..] + [leaf];
      assert p[1..][|p| - 2] == leaf;
    }
  }

  lemma SlashyNotCanonical(name: string, branch: string)
    requires Trim(name) != "" && !OnePieceOrLater(name)
    ensures !Canonical(Target(name, branch))
  {
    var n, base := Trim(name), Base(name, branch);
    SlashyFacts(name, branch);
    TrimFixed(name);
    SlashyRoot(n);
    hide *;
    TargetShape(name, branch);
    NotCanonical(n, base);
  }

  lemma NotCanonical(n: string, base: seq<string>)
    requires !SlashFree(n) && !IsSegment(ToAbsolute(n)[1..])
    ensures !Canonical(if base == [] then [ToAbsolute(n)] else TopicPath(base) + [n])
  {
    if base != [] {
      var p := TopicPath(base) + [n];
      assert p[1..][|p| - 2] == n;
    }
  }

  lemma SplitRoot(n: string)
    requires n != "" && n[0] == '/' && SlashFree(n[1..])
    ensures Split(n) == ["", n[1..]]
  {
    SplitSlashFree(n[1..]);
  }

  /** What follows the first slash of such a name is empty or has another slash. */
  lemma SlashyRoot(n: string)
    requires n != "" && Trim(n) == n && |Split(n)| > 1 && LastPiece(Split(n), |Split(n)| - 1) == 0
    ensures !IsSegment(ToAbsolute(n)[1..])
  {
    PiecesSlashFree(n);
    if n[0] != '/' {
      assert ("/" + n)[1..] == n;
    } else if SlashFree(n[1..]) {
      SplitRoot(n);
    }
  }

  /** The segments above the new topic are all but the last of branch and name. */
  lemma BaseIsFront(name: string, branch: string)
    requires Trim(name) != "" && WellPlaced(name, branch)
    ensures var segs := Segments(branch) + Segments(name); segs != [] && Base(name, branch) == segs[..|segs| - 1]
  {
    BaseAndLast(name, branch);
    PlacedLast(name, branch);
    CleanOne(LastOf(name));
    hide Segments, Base, Clean, WellPlaced, LastOf, Trim;
    var segs := Segments(branch) + Segments(name);
    assert segs == Base(name, branch) + [Trim(LastOf(name))];
  }

  lemma PlacedLast(name: string, branch: string)
    requires WellPlaced(name, branch) && Trim(name) != ""
    ensures Trim(LastOf(name)) != ""
  {
    hide *;
    PlacedIsLater(name, branch);
    WellPlacedIs(name, branch);
  }

  lemma PlacedIsLater(name: string, branch: string)
    requires WellPlaced(name, branch)
    ensures OnePieceOrLater(name)
  {
  }

  /** The backward loop of `AddTopic`: where the topic's own name is. */
  method FindLeaf(nn: seq<string>) returns (pos: nat)
    requires nn != []
    ensures pos == LastPiece(nn, |nn| - 1)
  {
    pos := |nn| - 1;
    while pos > 0
      invariant 0 <= pos < |nn|
      invariant LastPiece(nn, |nn| - 1) == LastPiece(nn, pos)
    {
      if |nn[pos]| > 0 {
        break;
      }
      pos := pos - 1;
    }
  }

  lemma CleanSnoc(nn: seq<string>, i: nat)
    requires i < |nn|
    ensures Clean(nn[..i + 1]) == Clean(nn[..i]) + Clean([nn[i]])
  {
    assert nn[..i + 1] == nn[..i] + [nn[i]];
    CleanJoin(nn[..i], [nn[i]]);
  }

  lemma SegmentsOfPiece(piece: string)
    requires SlashFree(piece)
    ensures Segments(piece) == Clean([piece])
    ensures piece == "" ==> Clean([piece]) == []
  {
    SplitSlashFree(piece);
    CleanOne(piece);
  }

  /** The forward loop of `AddTopic`: leading pieces of the name move to the end of the branch. */
  method ExtendBranch(nn: seq<string>, pos: nat, branch: string) returns (longBranch: string)
    requires pos < |nn| && forall i :: 0 <= i < |nn| ==> SlashFree(nn[i])
    ensures Segments(longBranch) == Segments(branch) + Clean(nn[..pos])
  {
    hide Segments, Clean, SlashFree;
    longBranch := branch;
    assert nn[..0] == [];
    CleanOfEmpties(nn[..0]);
    for i := 0 to pos
      invariant Segments(longBranch) == Segments(branch) + Clean(nn[..i])
    {
      CleanSnoc(nn, i);
      SegmentsOfPiece(nn[i]);
      if |nn[i]| > 0 {
        SegmentsJoin(longBranch, nn[i]);
        longBranch := longBranch + "/" + nn[i];
      }
    }
  }

  method Normalize(name: string, branch: string) returns (leaf: string, longBranch: string)
    ensures leaf == Leaf(name)
    ensures Segments(longBranch) == Base(name, branch)
  {
    hide Segments, Clean, SlashFree, Split, Trim;
    leaf := Trim(name);
    var nn := Split(leaf);
    PiecesSlashFree(leaf);
    var pos := FindLeaf(nn);
    if pos > 0 {
      leaf := nn[pos];
    }
    longBranch := ExtendBranch(nn, pos, branch);
  }

  /** The loop that parses a name in `hasTopic`, `AddTopic` and `AddTopicQueue`. */
  method Parse(name: string) returns (tt: seq<string>)
    ensures tt == Segments(name)
  {
    tt := [];
    var pieces := Split(name);
    for i := 0 to |pieces|
      invariant tt == Clean(pieces[..i])
    {
      CleanSnoc(pieces, i);
      CleanOne(pieces[i]);
      var t := Trim(pieces[i]);
      if |t| != 0 {
        tt := tt + [t];
      }
    }
    assert pieces[..|pieces|] == pieces;
  }

  /** A name that leads to one root topic may be the key of another: after adding "a" and "a/" at the
      root, "/a/" is the key of the second and looks up the first. */
  lemma KeyOfAnother()
    ensures LookupPath("/a/") == ["/a"] && Target("a", "/") == ["/a"] && Target("a/", "/") == ["/a/"]
  {
    var a := "a";
    assert SlashFree(a) && Trim(a) == a;
    SplitSlashFree(a);
    assert "a/" == a + "/" + "" && "/a/" == "" + "/" + "a/" && "/" == "" + "/" + "";
    SplitJoin(a, "");
    SplitJoin("", "a/");
    SplitJoin("", "");
    assert Split("") == [""] && Split("a/") == [a, ""] && Split("/a/") == ["", a, ""] && Split("/") == ["", ""];
    OnlyA();
  }

  lemma OnlyA()
    ensures Clean(["", "a", ""]) == ["a"] && Clean(["", ""]) == [] && Clean([]) == []
    ensures Trim("a/") == "a/" && Trim("a") == "a" && ToAbsolute("a/") == "/a/" && ToAbsolute("a") == "/a"
    ensures LastPiece(["a", ""], 1) == 0 && LastPiece(["a"], 0) == 0
  {
    CleanOfEmpties(["", ""]);
    CleanOfEmpties([""]);
    assert ["", "a", ""] == [""] + ["a"] + [""];
    CleanJoin([""], ["a"]);
    CleanJoin([""] + ["a"], [""]);
    CleanOne("a");
    assert Trim("a") == "a" && Trim("a/") == "a/";
  }
}
