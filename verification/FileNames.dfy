/**
 Checkpoint file names.  The kubelet names a checkpoint

     checkpoint-<pod>_<namespace>-<container>-<timestamp>.tar

 and the destination recovers the pod name with a lazy regular expression and the container name
 by splitting at "-" and looking for the year (controllers/utils/utils.go).
 */
module FileNames {
  import opened Text
  import opened Storage

  /* ----- RetrievePodName: checkpoint-(.+?)_ ----- */

  const MARK: string := "checkpoint-"

  /** The expression matches from position `i` with its underscore at position `j`; the group is
      the text between the mark and the underscore, at least one character and no newline. */
  predicate Matches(s: string, i: nat, j: nat) {
    && At(s, MARK, i)
    && i + |MARK| + 1 <= j < |s| && s[j] == '_'
    && forall k :: i + |MARK| <= k < j ==> s[k] != '\n'
  }

  /** The match that a leftmost, lazy search reports. */
  ghost predicate LeftmostLazy(s: string, i: nat, j: nat) {
    && Matches(s, i, j)
    && (forall j': nat :: j' < j ==> !Matches(s, i, j'))
    && (forall i': nat, j': nat :: i' < i ==> !Matches(s, i', j'))
  }

  /** The first underscore at or after `j`, if no newline comes before it. */
  function Underscore(s: string, j: nat): (r: Option<nat>)
    ensures r.Some? ==> j <= r.value < |s|
    decreases |s| - j
  {
    if j >= |s| || s[j] == '\n' then None
    else if s[j] == '_' then Some(j)
    else Underscore(s, j + 1)
  }

  /** The leftmost match starting at or after `i`: its start and its underscore. */
  function Search(s: string, i: nat): (r: Option<(nat, nat)>)
    ensures r.Some? ==> i <= r.value.0 && r.value.0 + |MARK| < r.value.1 < |s|
    decreases |s| - i
  {
    if i >= |s| then None
    else
      var first := i + |MARK|;
      var end := if At(s, MARK, i) && first < |s| && s[first] != '\n' then Underscore(s, first + 1) else None;
      if end.Some? then Some((i, end.value)) else Search(s, i + 1)
  }

  function RetrievePodName(path: string): string {
    match Search(path, 0)
    case None => ""
    case Some((i, j)) => path[i + |MARK|..j]
  }

  lemma {:induction false} UnderscoreIsFirst(s: string, j: nat)
    ensures match Underscore(s, j)
            case Some(e) =>
              && j <= e < |s| && s[e] == '_'
              && (forall k :: j <= k < e ==> s[k] != '_' && s[k] != '\n')
            case None =>
              forall e :: j <= e < |s| && s[e] == '_' ==> exists k :: j <= k < e && s[k] == '\n'
    decreases |s| - j
  {
    if j < |s| && s[j] != '\n' && s[j] != '_' {
      UnderscoreIsFirst(s, j + 1);
      if Underscore(s, j).None? {
        forall e | j <= e < |s| && s[e] == '_' ensures exists k :: j <= k < e && s[k] == '\n' {
          var k :| j + 1 <= k < e && s[k] == '\n';
        }
      }
    } else if j < |s| && s[j] == '\n' {
      assert forall e :: j <= e < |s| && s[e] == '_' ==> j <= j < e;
    }
  }

  lemma NoMatchHere(s: string, i: nat)
    requires i < |s|
    requires var first := i + |MARK|;
             !(At(s, MARK, i) && first < |s| && s[first] != '\n') || Underscore(s, first + 1).None?
    ensures forall j: nat :: !Matches(s, i, j)
  {
    UnderscoreIsFirst(s, i + |MARK| + 1);
  }

  /** The search reports the leftmost lazy match, and reports none only if there is none. */
  lemma {:induction false} SearchIsLeftmostLazy(s: string, i: nat)
    requires forall i': nat, j: nat :: i' < i ==> !Matches(s, i', j)
    ensures match Search(s, i)
            case Some((a, b)) => LeftmostLazy(s, a, b)
            case None => forall a: nat, b: nat :: !Matches(s, a, b)
    decreases |s| - i
  {
    if i >= |s| {
    } else {
      var first := i + |MARK|;
      if At(s, MARK, i) && first < |s| && s[first] != '\n' && Underscore(s, first + 1).Some? {
        UnderscoreIsFirst(s, first + 1);
      } else {
        NoMatchHere(s, i);
        SearchIsLeftmostLazy(s, i + 1);
      }
    }
  }

  /** RetrievePodName returns the group of the one leftmost lazy match, or nothing if nothing
      matches. */
  lemma PodNameIsTheGroup(path: string)
    ensures forall i: nat, j: nat :: LeftmostLazy(path, i, j) ==> RetrievePodName(path) == path[i + |MARK|..j]
    ensures (exists i: nat, j: nat :: LeftmostLazy(path, i, j) && RetrievePodName(path) == path[i + |MARK|..j])
            || (RetrievePodName(path) == "" && forall i: nat, j: nat :: !Matches(path, i, j))
  {
    SearchIsLeftmostLazy(path, 0);
  }

  /** The mark does not overlap itself: a directory without the mark cannot start one that ends
      inside the file name's own. */
  lemma MarkHasNoOverlap(dir: string, rest: string, i: nat)
    requires !Contains(dir, MARK) && i < |dir|
    ensures !At(dir + MARK + rest, MARK, i)
  {
    var path := dir + MARK + rest;
    assert path == dir + (MARK + rest);
    assert path[|dir|] == MARK[0] == 'c' && path[|dir| + 1] == MARK[1] == 'h';
    if i + |MARK| <= |dir| {
      AtPrefix(dir, MARK + rest, MARK, i);
    } else if At(path, MARK, i) {
      var k := |dir| - i;
      AtChar(path, MARK, i, k);
      if k + 1 < |MARK| { AtChar(path, MARK, i, k + 1); }
    }
  }

  /** `path` has the mark at `i`, then `pod`, then an underscore at `j`, and no match starts before. */
  ghost predicate Printed(path: string, i: nat, j: nat, pod: string) {
    && j == i + |MARK| + |pod| && j < |path| && path[i + |MARK|..j] == pod && path[j] == '_' && At(path, MARK, i)
    && (forall i': nat, j': nat :: i' < i ==> !Matches(path, i', j'))
  }

  lemma PrintedPath(dir: string, pod: string, rest: string)
    requires !Contains(dir, MARK) && pod != ""
    ensures Printed(dir + MARK + pod + "_" + rest, |dir|, |dir| + |MARK| + |pod|, pod)
  {
    var path := dir + MARK + pod + "_" + rest;
    assert path == dir + MARK + (pod + "_" + rest);
    forall i': nat, j': nat | i' < |dir| ensures !Matches(path, i', j') {
      MarkHasNoOverlap(dir, pod + "_" + rest, i');
    }
  }

  lemma PrintedChars(path: string, i: nat, j: nat, pod: string)
    requires Printed(path, i, j, pod)
    ensures forall k :: 0 <= k < |pod| ==> path[i + |MARK| + k] == pod[k]
  {
    forall k | 0 <= k < |pod| ensures path[i + |MARK| + k] == pod[k] {
      assert path[i + |MARK|..j][k] == path[i + |MARK| + k];
    }
  }

  lemma CleanPodName(path: string, i: nat, j: nat, pod: string)
    requires Printed(path, i, j, pod) && pod != "" && '\n' !in pod && '_' !in pod[1..]
    ensures RetrievePodName(path) == pod
  {
    PrintedChars(path, i, j, pod);
    forall k | i + |MARK| <= k < j ensures path[k] != '\n' && (i + |MARK| < k ==> path[k] != '_') {
      var c := k - i - |MARK|;
      assert path[k] == path[i + |MARK| + c] == pod[c];
      if c > 0 { assert pod[c] == pod[1..][c - 1]; }
    }
    assert LeftmostLazy(path, i, j);
    PodNameIsTheGroup(path);
  }

  lemma ReturnedNamesHaveNoNewline(path: string)
    ensures '\n' !in RetrievePodName(path)
  {
    PodNameIsTheGroup(path);
    if RetrievePodName(path) != "" {
      var a: nat, b: nat :| LeftmostLazy(path, a, b) && RetrievePodName(path) == path[a + |MARK|..b];
      forall k | 0 <= k < |RetrievePodName(path)| ensures RetrievePodName(path)[k] != '\n' {
        assert RetrievePodName(path)[k] == path[a + |MARK| + k];
      }
    }
  }

  lemma OnlyCleanPodNames(path: string, i: nat, j: nat, pod: string)
    requires Printed(path, i, j, pod) && pod != "" && RetrievePodName(path) == pod
    ensures '\n' !in pod && '_' !in pod[1..]
  {
    ReturnedNamesHaveNoNewline(path);
    PrintedChars(path, i, j, pod);
    PodNameIsTheGroup(path);
    var a: nat, b: nat :| LeftmostLazy(path, a, b) && pod == path[a + |MARK|..b];
    forall k | i + |MARK| <= k < j ensures path[k] != '\n' {
      assert path[k] == path[i + |MARK| + (k - i - |MARK|)];
    }
    assert Matches(path, i, j) && a == i;
    forall k | 0 <= k < |pod| - 1 ensures pod[1..][k] != '_' {
      assert path[i + |MARK| + (k + 1)] == pod[k + 1] == pod[1..][k];
      assert !Matches(path, i, i + |MARK| + (k + 1));
    }
  }

  /** Pod names that extraction gives back. */
  predicate Extractable(pod: string) {
    pod != "" && '\n' !in pod && '_' !in pod[1..]
  }

  /** Pod-name round trip: for every directory without the mark and every nonempty pod name,
      extraction returns the pod name exactly when it has no newline and no underscore after its
      first character. */
  lemma PodNameRoundTrip(dir: string, pod: string, rest: string)
    requires !Contains(dir, MARK) && pod != ""
    ensures RetrievePodName(dir + MARK + pod + "_" + rest) == pod <==> Extractable(pod)
  {
    PrintedPath(dir, pod, rest);
    var path, i, j := dir + MARK + pod + "_" + rest, |dir|, |dir| + |MARK| + |pod|;
    if Extractable(pod) {
      CleanPodName(path, i, j, pod);
    } else if RetrievePodName(path) == pod {
      OnlyCleanPodNames(path, i, j, pod);
    }
  }

  /** A file name that begins like a checkpoint of `pod`; namespace, container and date are open. */
  predicate NamesPod(name: string, pod: string) {
    MARK + pod + "_" <= name
  }

  lemma PodOfName(dir: string, name: string, pod: string)
    requires !Contains(dir, MARK) && Extractable(pod) && NamesPod(name, pod)
    ensures RetrievePodName(dir + name) == pod
  {
    var rest := name[|MARK + pod + "_"|..];
    assert name == MARK + pod + "_" + rest;
    assert dir + name == dir + MARK + pod + "_" + rest;
    PodNameRoundTrip(dir, pod, rest);
  }

  /* ----- splitting at hyphens ----- */

  /** strings.Split(s, "-"). */
  function Split(s: string): (parts: seq<string>)
    ensures |parts| >= 1
  {
    if s == "" then [""] else Prepend(s[0], Split(s[1..]))
  }

  function Prepend(c: char, parts: seq<string>): (r: seq<string>)
    requires |parts| >= 1
    ensures |r| >= 1
  {
    if c == '-' then [""] + parts else [[c] + parts[0]] + parts[1..]
  }

  lemma PrependBefore(c: char, parts: seq<string>, more: seq<string>)
    requires |parts| >= 1
    ensures Prepend(c, parts + more) == Prepend(c, parts) + more
  {
    if c == '-' {
      assert [""] + (parts + more) == [""] + parts + more;
    } else {
      assert (parts + more)[0] == parts[0] && (parts + more)[1..] == parts[1..] + more;
      assert [[c] + parts[0]] + (parts[1..] + more) == [[c] + parts[0]] + parts[1..] + more;
    }
  }

  /** Putting the parts together again. */
  function Join(parts: seq<string>): string
    requires |parts| >= 1
  {
    if |parts| == 1 then parts[0] else parts[0] + "-" + Join(parts[1..])
  }

  function Hyphens(s: string): nat {
    if s == "" then 0 else (if s[0] == '-' then 1 else 0) + Hyphens(s[1..])
  }

  lemma JoinCons(p: string, parts: seq<string>)
    requires |parts| >= 1
    ensures Join([p] + parts) == p + "-" + Join(parts)
  {
    assert ([p] + parts)[1..] == parts;
  }

  lemma JoinHyphen(parts: seq<string>)
    requires |parts| >= 1
    ensures Join([""] + parts) == ['-'] + Join(parts)
  {
    JoinCons("", parts);
    LeadingHyphen(Join(parts));
  }

  lemma LeadingHyphen(s: string)
    ensures "" + "-" + s == ['-'] + s
  {
  }

  lemma JoinLetter(c: char, head: string, tail: seq<string>)
    ensures Join([[c] + head] + tail) == [c] + Join([head] + tail)
  {
    if tail == [] {
      assert [[c] + head] + tail == [[c] + head] && [head] + tail == [head];
    } else {
      JoinCons([c] + head, tail);
      JoinCons(head, tail);
      var j := Join(tail);
      assert [c] + head + "-" + j == [c] + (head + "-" + j);
    }
  }

  lemma JoinPrepend(c: char, parts: seq<string>)
    requires |parts| >= 1
    ensures Join(Prepend(c, parts)) == [c] + Join(parts)
  {
    if c == '-' {
      JoinHyphen(parts);
    } else {
      JoinLetter(c, parts[0], parts[1..]);
      assert [parts[0]] + parts[1..] == parts;
    }
  }

  /** The parts have no hyphen, there is one more of them than hyphens, and joined they give the
      text back. */
  lemma {:induction false} SplitJoin(s: string)
    ensures Join(Split(s)) == s && |Split(s)| == Hyphens(s) + 1
    ensures forall k :: 0 <= k < |Split(s)| ==> '-' !in Split(s)[k]
  {
    if s == "" {
    } else {
      SplitJoin(s[1..]);
      JoinPrepend(s[0], Split(s[1..]));
      assert s == [s[0]] + s[1..];
    }
  }

  lemma {:induction false} SplitAround(a: string, b: string)
    ensures Split(a + "-" + b) == Split(a) + Split(b)
  {
    var s := a + "-" + b;
    if a == "" {
      assert s[1..] == b && s[0] == '-';
    } else {
      SplitAround(a[1..], b);
      assert s[1..] == a[1..] + "-" + b && s[0] == a[0];
      PrependBefore(a[0], Split(a[1..]), Split(b));
    }
  }

  lemma {:induction false} SplitPlain(a: string)
    requires '-' !in a
    ensures Split(a) == [a]
  {
    if a == "" {
    } else {
      SplitPlain(a[1..]);
      assert a == [a[0]] + a[1..];
    }
  }

  lemma {:induction false} JoinIsLonger(parts: seq<string>)
    requires |parts| >= 3
    ensures |Join(parts)| > |parts[|parts| - 2]| + 1 + |parts[|parts| - 1]|
  {
    if |parts| > 3 {
      JoinIsLonger(parts[1..]);
    } else {
      assert Join(parts[1..]) == parts[1] + "-" + parts[2];
    }
  }

  /* ----- RetrieveContainerName ----- */

  const YEAR: string := "2024"

  /** `Missing` is the empty result; `OutOfRange` is the run-time panic of an index below zero. */
  datatype Extraction = Found(name: string) | Missing | OutOfRange

  /** The position of the last part that is the year, or -1. */
  function LastYear(parts: seq<string>): (y: int)
    ensures -1 <= y < |parts|
    ensures y >= 0 ==> parts[y] == YEAR
    ensures forall k :: y < k < |parts| ==> parts[k] != YEAR
  {
    if parts == [] then -1
    else if parts[|parts| - 1] == YEAR then |parts| - 1
    else LastYear(parts[..|parts| - 1])
  }

  /** The two parts before the last year make up the name. */
  function ContainerName(path: string): Extraction {
    NameIn(Split(path))
  }

  function NameIn(parts: seq<string>): Extraction {
    var y := LastYear(parts);
    if y <= 0 then Missing
    else if y == 1 then OutOfRange
    else Found(parts[y - 2] + "-" + parts[y - 1])
  }

  lemma YearIsAt(parts: seq<string>, y: nat)
    requires y < |parts| && parts[y] == YEAR && forall k :: y < k < |parts| ==> parts[k] != YEAR
    ensures LastYear(parts) == y
  {
    var x := LastYear(parts);
    assert !(x < y) && !(y < x);
  }

  /** The descending scan.  Its guard `i > 0` is the source's. */
  method RetrieveContainerName(path: string) returns (r: Extraction)
    ensures r == ContainerName(path)
  {
    var parts := Split(path);
    var i := |parts| - 1;
    while i >= 0
      invariant -1 <= i < |parts|
      invariant forall k :: i < k < |parts| ==> parts[k] != YEAR
    {
      if parts[i] == YEAR {
        if i > 0 {
          if i - 2 < 0 {
            return OutOfRange;
          }
          return Found(parts[i - 2] + "-" + parts[i - 1]);
        } else {
          break;
        }
      }
      i := i - 1;
    }
    return Missing;
  }

  lemma YearHasNoHyphen()
    ensures Split(YEAR) == [YEAR]
  {
    SplitPlain(YEAR);
  }

  /** A path `head-container-2024-rest` in parts. */
  lemma PathParts(head: string, container: string, rest: string)
    ensures Split(head + "-" + container + "-" + YEAR + "-" + rest) ==
            Split(head) + Split(container) + [YEAR] + Split(rest)
  {
    YearHasNoHyphen();
    var a, b := head + "-" + container, YEAR + "-" + rest;
    assert head + "-" + container + "-" + YEAR + "-" + rest == a + "-" + b;
    SplitAround(a, b);
    SplitAround(head, container);
    SplitAround(YEAR, rest);
  }

  /** The last two parts before the year, given the parts before the container and its own. */
  function LastTwoParts(hs: seq<string>, cs: seq<string>): string
    requires |hs| >= 1 && |cs| >= 1
  {
    (if |cs| >= 2 then cs[|cs| - 2] else hs[|hs| - 1]) + "-" + cs[|cs| - 1]
  }

  lemma NameInParts(hs: seq<string>, cs: seq<string>, rs: seq<string>)
    requires |hs| >= 1 && |cs| >= 1 && YEAR !in rs
    ensures NameIn(hs + cs + [YEAR] + rs) == Found(LastTwoParts(hs, cs))
  {
    var parts, y := hs + cs + [YEAR] + rs, |hs| + |cs|;
    YearBetween(hs + cs, rs);
    assert parts[y - 1] == cs[|cs| - 1];
    assert parts[y - 2] == if |cs| >= 2 then cs[|cs| - 2] else hs[|hs| - 1];
  }

  /** ... and what extraction makes of it. */
  lemma PathName(path: string, head: string, container: string, rest: string)
    requires path == head + "-" + container + "-" + YEAR + "-" + rest && YEAR !in Split(rest)
    ensures ContainerName(path) == Found(LastTwoParts(Split(head), Split(container)))
  {
    PathParts(head, container, rest);
    var hs, cs, rs := Split(head), Split(container), Split(rest);
    NameInParts(hs, cs, rs);
    assert NameIn(Split(path)) == NameIn(hs + cs + [YEAR] + rs);
  }

  /** Container-name round trip: on every checkpoint path with a 2024 date and no later "2024"
      part the index is in range, and extraction returns the container name exactly when that name
      has one hyphen. */
  lemma ContainerNameRoundTrip(head: string, container: string, rest: string)
    requires YEAR !in Split(rest)
    ensures var r := ContainerName(head + "-" + container + "-" + YEAR + "-" + rest);
            r.Found? && (r == Found(container) <==> Hyphens(container) == 1)
  {
    PathName(head + "-" + container + "-" + YEAR + "-" + rest, head, container, rest);
    SplitJoin(container);
    var cs := Split(container);
    if |cs| >= 3 {
      JoinIsLonger(cs);
    } else if |cs| == 2 {
      assert Join(cs[1..]) == cs[1];
    } else {
      assert cs[0] == container;
    }
  }

  /** Nothing is found exactly if no part after the first is the year. */
  lemma MissingExactly(path: string)
    ensures ContainerName(path) == Missing <==> YEAR !in Split(path)[1..]
  {
    var parts := Split(path);
    var y := LastYear(parts);
    if y >= 1 {
      assert parts[1..][y - 1] == YEAR;
    } else {
      forall k | 0 <= k < |parts| - 1 ensures parts[1..][k] != YEAR { assert parts[1..][k] == parts[k + 1]; }
    }
  }

  /** Only one part, `x`, stands before the last year. */
  ghost predicate OnePartBeforeYear(path: string, x: string, y: string) {
    && '-' !in x
    && ((path == x + "-" + YEAR && y == "") || (path == x + "-" + YEAR + "-" + y && YEAR !in Split(y)))
  }

  /** The scan runs into the negative index exactly on the paths with a single part before the
      last year. */
  lemma OutOfRangeExactly(path: string)
    ensures ContainerName(path) == OutOfRange <==> exists x, y :: OnePartBeforeYear(path, x, y)
  {
    if ContainerName(path) == OutOfRange {
      var parts := Split(path);
      SplitJoin(path);
      var x := parts[0];
      if |parts| == 2 {
        assert Join(parts[1..]) == YEAR;
        assert OnePartBeforeYear(path, x, "");
      } else {
        var y := Join(parts[2..]);
        JoinSplit(parts[2..]);
        assert parts[1..][1..] == parts[2..];
        assert Join(parts[1..]) == YEAR + "-" + y;
        assert path == x + "-" + YEAR + "-" + y;
        assert OnePartBeforeYear(path, x, y);
      }
    }
    forall x, y | OnePartBeforeYear(path, x, y) ensures ContainerName(path) == OutOfRange {
      ShortPath(path, x, y);
    }
  }

  /** In a directory without a hyphen, a checkpoint of `pod` runs into it exactly if the pod's name
      begins with the year and no later part of the file name is the year. */
  lemma PodPanicsExactly(dir: string, pod: string, rest: string)
    requires '-' !in dir && Extractable(pod)
    ensures ContainerName(dir + MARK + pod + "_" + rest) == OutOfRange <==>
            YEAR + "-" <= pod && YEAR !in Split(pod[|YEAR| + 1..] + "_" + rest)
  {
    var body, first := pod + "_" + rest, dir + MARK[..|MARK| - 1];
    assert MARK[|MARK| - 1] == '-';
    assert dir + MARK + pod + "_" + rest == first + "-" + body;
    MarkParts(dir);
    SplitAround(first, body);
    SecondYear(first, Split(body));
    if YEAR + "-" <= pod {
      var tail := pod[|YEAR| + 1..] + "_" + rest;
      assert body == YEAR + "-" + tail;
      YearHasNoHyphen();
      SplitAround(YEAR, tail);
      assert ([YEAR] + Split(tail))[1..] == Split(tail);
    } else if Split(body)[0] == YEAR {
      LeadingYear(pod, rest);
    }
  }

  lemma MarkParts(dir: string)
    requires '-' !in dir
    ensures Split(dir + MARK[..|MARK| - 1]) == [dir + MARK[..|MARK| - 1]]
  {
    assert MARK[..|MARK| - 1] == ['c', 'h', 'e', 'c', 'k', 'p', 'o', 'i', 'n', 't'];
    SplitPlain(dir + MARK[..|MARK| - 1]);
  }

  lemma SecondYear(first: string, more: seq<string>)
    requires |more| >= 1
    ensures NameIn([first] + more) == OutOfRange <==> more[0] == YEAR && YEAR !in more[1..]
  {
    var parts := [first] + more;
    assert forall k :: 1 <= k < |parts| ==> parts[k] == more[k - 1];
    if more[0] == YEAR && YEAR !in more[1..] {
      forall k | 1 < k < |parts| ensures parts[k] != YEAR { assert parts[k] == more[1..][k - 2]; }
      YearIsAt(parts, 1);
    } else if LastYear(parts) == 1 {
      forall k | 0 <= k < |more| - 1 ensures more[1..][k] != YEAR { assert more[1..][k] == parts[k + 2]; }
    }
  }

  /** If the first part is the year, the pod's name begins with it: its underscore is no part of it. */
  lemma LeadingYear(pod: string, rest: string)
    requires Extractable(pod) && Split(pod + "_" + rest)[0] == YEAR
    ensures YEAR + "-" <= pod
  {
    var body := pod + "_" + rest;
    SplitJoin(body);
    assert body[|pod|] == '_';
    assert YEAR == ['2', '0', '2', '4'];
    var parts := Split(body);
    if |parts| > 1 {
      assert body == YEAR + "-" + Join(parts[1..]);
      assert (YEAR + "-")[4] == '-';
      assert forall k :: 0 <= k < 5 ==> body[k] == (YEAR + "-")[k] != '_';
      assert body[..5] == YEAR + "-";
      assert pod == body[..|pod|];
    }
  }

  lemma {:induction false} JoinSplit(parts: seq<string>)
    requires |parts| >= 1 && forall k :: 0 <= k < |parts| ==> '-' !in parts[k]
    ensures Split(Join(parts)) == parts
  {
    if |parts| == 1 {
      SplitPlain(parts[0]);
    } else {
      JoinSplit(parts[1..]);
      SplitAround(parts[0], Join(parts[1..]));
      SplitPlain(parts[0]);
    }
  }

  lemma ShortPath(path: string, x: string, y: string)
    requires OnePartBeforeYear(path, x, y)
    ensures ContainerName(path) == OutOfRange
  {
    YearHasNoHyphen();
    SplitPlain(x);
    if path == x + "-" + YEAR && y == "" {
      SplitAround(x, YEAR);
      YearIsAt([x] + [YEAR], 1);
    } else {
      assert path == x + "-" + (YEAR + "-" + y);
      SplitAround(x, YEAR + "-" + y);
      SplitAround(YEAR, y);
      assert [x] + ([YEAR] + Split(y)) == [x] + [YEAR] + Split(y);
      YearBetween([x], Split(y));
    }
  }

  /* ----- the printer ----- */

  datatype CheckpointName = CheckpointName(pod: string, ns: string, container: string, stamp: string)

  /** The name of a checkpoint taken in 2024; `stamp` is the rest of the date and time. */
  function FileName(c: CheckpointName): string {
    MARK + c.pod + "_" + c.ns + "-" + c.container + "-" + YEAR + "-" + c.stamp
  }

  predicate WellFormed(c: CheckpointName) {
    && Extractable(c.pod)
    && YEAR !in Split(c.stamp)
  }

  /** The rest of a date in the form of section 5.6 of RFC 3339: month, day, time of day with an
      optional negative offset.  Its parts never look like the year. */
  lemma StampHasNoYear(month: string, day: string, time: string, offset: string)
    requires |month| == 2 && |day| == 2 && |offset| >= 3 && offset[2] == ':'
    requires '-' !in month && '-' !in day && '-' !in time && '-' !in offset
    ensures YEAR !in Split(month + "-" + (day + "T" + time))
    ensures YEAR !in Split(month + "-" + (day + "T" + time) + "-" + offset)
  {
    var late := day + "T" + time;
    SplitPlain(month);
    SplitPlain(late);
    SplitPlain(offset);
    SplitAround(month, late);
    SplitAround(month + "-" + late, offset);
    assert late[2] == 'T' && YEAR[2] == '2';
  }

  /** Both extractors on a printed name, in any directory whose own path has no mark. */
  lemma FileNameRoundTrip(dir: string, c: CheckpointName)
    requires WellFormed(c) && !Contains(dir, MARK)
    ensures RetrievePodName(dir + FileName(c)) == c.pod
    ensures ContainerName(dir + FileName(c)).Found?
    ensures ContainerName(dir + FileName(c)) == Found(c.container) <==> Hyphens(c.container) == 1
  {
    var rest := c.ns + "-" + c.container + "-" + YEAR + "-" + c.stamp;
    assert dir + FileName(c) == dir + MARK + c.pod + "_" + rest;
    PodNameRoundTrip(dir, c.pod, rest);
    var head := dir + MARK + c.pod + "_" + c.ns;
    assert dir + FileName(c) == head + "-" + c.container + "-" + YEAR + "-" + c.stamp;
    ContainerNameRoundTrip(head, c.container, c.stamp);
  }

  /** Two checkpoints with the same file name are the same exactly if their container names have
      equally many hyphens; so printing is injective on names of one hyphen count. */
  lemma FileNameInjective(a: CheckpointName, b: CheckpointName)
    requires WellFormed(a) && WellFormed(b) && FileName(a) == FileName(b)
    ensures a == b <==> Hyphens(a.container) == Hyphens(b.container)
  {
    if Hyphens(a.container) == Hyphens(b.container) {
      assert !Contains("", MARK);
      assert "" + FileName(a) == FileName(a) && "" + FileName(b) == FileName(b);
      FileNameRoundTrip("", a);
      FileNameRoundTrip("", b);
      SameStamp(a, b);
      SameMiddle(a, b);
      SameContainer(a, b);
    }
  }

  /** With different counts they can differ: a hyphen may belong to the namespace or to the
      container. */
  lemma SharedFileName(pod: string, x: string, y: string, z: string, stamp: string)
    ensures FileName(CheckpointName(pod, x + "-" + y, z, stamp)) == FileName(CheckpointName(pod, x, y + "-" + z, stamp))
  {
    var front, back := MARK + pod + "_", "-" + YEAR + "-" + stamp;
    assert FileName(CheckpointName(pod, x + "-" + y, z, stamp)) == front + (x + "-" + y + "-" + z) + back;
    assert FileName(CheckpointName(pod, x, y + "-" + z, stamp)) == front + (x + "-" + y + "-" + z) + back;
  }

  lemma SameStamp(a: CheckpointName, b: CheckpointName)
    requires WellFormed(a) && WellFormed(b) && FileName(a) == FileName(b)
    ensures a.stamp == b.stamp
  {
    var headA, headB := MARK + a.pod + "_" + a.ns, MARK + b.pod + "_" + b.ns;
    PathParts(headA, a.container, a.stamp);
    PathParts(headB, b.container, b.stamp);
    SameTail(Split(headA) + Split(a.container), Split(a.stamp), Split(headB) + Split(b.container), Split(b.stamp));
    SplitJoin(a.stamp);
    SplitJoin(b.stamp);
  }

  /** What follows the last year is determined by the parts. */
  lemma SameTail(p: seq<string>, q: seq<string>, p': seq<string>, q': seq<string>)
    requires p + [YEAR] + q == p' + [YEAR] + q' && YEAR !in q && YEAR !in q'
    ensures q == q'
  {
    var s := p + [YEAR] + q;
    YearBetween(p, q);
    YearBetween(p', q');
    assert q == s[|p| + 1..] && q' == s[|p'| + 1..];
  }

  lemma YearBetween(p: seq<string>, q: seq<string>)
    requires YEAR !in q
    ensures LastYear(p + [YEAR] + q) == |p|
  {
    var s := p + [YEAR] + q;
    assert s[|p|] == YEAR;
    assert s[|p| + 1..] == q;
    forall k | |p| < k < |s| ensures s[k] != YEAR { assert s[k] == s[|p| + 1..][k - |p| - 1]; }
    YearIsAt(s, |p|);
  }

  lemma SameMiddle(a: CheckpointName, b: CheckpointName)
    requires FileName(a) == FileName(b) && a.pod == b.pod && a.stamp == b.stamp
    ensures a.ns + "-" + a.container == b.ns + "-" + b.container
  {
    var front, back := MARK + a.pod + "_", "-" + YEAR + "-" + a.stamp;
    var x, y := a.ns + "-" + a.container, b.ns + "-" + b.container;
    assert FileName(a) == front + x + back;
    assert FileName(b) == front + y + back;
    assert x == FileName(a)[|front|..|FileName(a)| - |back|];
    assert y == FileName(b)[|front|..|FileName(b)| - |back|];
  }

  lemma SameContainer(a: CheckpointName, b: CheckpointName)
    requires a.ns + "-" + a.container == b.ns + "-" + b.container && Hyphens(a.container) == Hyphens(b.container)
    ensures a.ns == b.ns && a.container == b.container
  {
    SplitAround(a.ns, a.container);
    SplitAround(b.ns, b.container);
    SplitJoin(a.container);
    SplitJoin(b.container);
    SplitJoin(a.ns);
    SplitJoin(b.ns);
    SameHalves(Split(a.ns), Split(a.container), Split(b.ns), Split(b.container));
  }

  lemma SameHalves(x: seq<string>, y: seq<string>, x': seq<string>, y': seq<string>)
    requires x + y == x' + y' && |y| == |y'|
    ensures x == x' && y == y'
  {
    assert x == (x + y)[..|x|] && y == (x + y)[|x|..];
    assert x' == (x' + y')[..|x|] && y' == (x' + y')[|x|..];
  }

  /** Both round trips with the texts written out. */
  lemma RoundTripsWrittenOut(dir: string, pod: string, ns: string, container: string, stamp: string)
    requires !Contains(dir, "checkpoint-") && pod != "" && '\n' !in pod && '_' !in pod[1..]
    requires "2024" !in Split(stamp) && Hyphens(container) == 1
    ensures var path := dir + "checkpoint-" + pod + "_" + ns + "-" + container + "-" + "2024" + "-" + stamp;
            RetrievePodName(path) == pod && ContainerName(path) == Found(container)
  {
    var c := CheckpointName(pod, ns, container, stamp);
    assert dir + FileName(c) == dir + "checkpoint-" + pod + "_" + ns + "-" + container + "-" + "2024" + "-" + stamp;
    FileNameRoundTrip(dir, c);
  }

  /* ----- image tags ----- */

  function Tag(container: string): string {
    "leonardopoggiani/checkpoint-images:" + container
  }

  /** The part of a checkpoint's path before the container name. */
  function Head(dir: string, c: CheckpointName): string {
    dir + MARK + c.pod + "_" + c.ns
  }

  /** The name extracted from a printed name: the last two parts before the year, the first of which
      belongs to the namespace if the container name has no hyphen. */
  function Extracted(dir: string, c: CheckpointName): string {
    LastTwoParts(Split(Head(dir, c)), Split(c.container))
  }

  lemma ExtractedName(dir: string, c: CheckpointName)
    requires WellFormed(c)
    ensures ContainerName(dir + FileName(c)) == Found(Extracted(dir, c))
  {
    assert dir + FileName(c) == Head(dir, c) + "-" + c.container + "-" + YEAR + "-" + c.stamp;
    PathName(dir + FileName(c), Head(dir, c), c.container, c.stamp);
  }

  /** Two checkpoints are committed under the same image tag exactly when the last two parts before
      the year agree, in their whole paths. */
  lemma TagsCollideExactly(dir: string, a: CheckpointName, b: CheckpointName)
    requires WellFormed(a) && WellFormed(b)
    ensures var ra, rb := ContainerName(dir + FileName(a)), ContainerName(dir + FileName(b));
            && ra.Found? && rb.Found?
            && (Tag(ra.name) == Tag(rb.name) <==>
                LastTwoParts(Split(Head(dir, a)), Split(a.container)) ==
                LastTwoParts(Split(Head(dir, b)), Split(b.container)))
  {
    ExtractedName(dir, a);
    ExtractedName(dir, b);
    TagInjective(Extracted(dir, a), Extracted(dir, b));
  }

  /** For container names with at least one hyphen these are the last two parts of the names. */
  lemma HyphenatedTagsCollideExactly(dir: string, a: CheckpointName, b: CheckpointName)
    requires WellFormed(a) && WellFormed(b)
    requires Hyphens(a.container) >= 1 && Hyphens(b.container) >= 1
    ensures var ra, rb := ContainerName(dir + FileName(a)), ContainerName(dir + FileName(b));
            var ap, bp := Split(a.container), Split(b.container);
            && ra.Found? && rb.Found? && |ap| >= 2 && |bp| >= 2
            && (Tag(ra.name) == Tag(rb.name) <==>
                ap[|ap| - 2] == bp[|bp| - 2] && ap[|ap| - 1] == bp[|bp| - 1])
  {
    TagsCollideExactly(dir, a, b);
    SplitJoin(a.container);
    SplitJoin(b.container);
    var ap, bp := Split(a.container), Split(b.container);
    TwoParts(ap[|ap| - 2], ap[|ap| - 1], bp[|bp| - 2], bp[|bp| - 1]);
  }

  /** Of two hyphen-free names of one pod the tags collide only if the names are the same. */
  lemma PlainTagsDoNotCollide(dir: string, a: CheckpointName, b: CheckpointName)
    requires WellFormed(a) && WellFormed(b) && a.pod == b.pod && a.ns == b.ns
    requires Hyphens(a.container) == 0 && Hyphens(b.container) == 0 && a.container != b.container
    ensures Extracted(dir, a) != Extracted(dir, b)
  {
    SplitJoin(a.container);
    SplitJoin(b.container);
    var hs := Split(Head(dir, a));
    SplitJoin(Head(dir, a));
    TwoParts(hs[|hs| - 1], a.container, hs[|hs| - 1], b.container);
  }

  lemma TagInjective(x: string, y: string)
    ensures Tag(x) == Tag(y) <==> x == y
  {
    var n := |Tag("")|;
    assert x == Tag(x)[n..] && y == Tag(y)[n..];
  }

  lemma TwoParts(x: string, y: string, x': string, y': string)
    requires '-' !in x && '-' !in y && '-' !in x' && '-' !in y'
    ensures x + "-" + y == x' + "-" + y' <==> x == x' && y == y'
  {
    SplitPlain(x);
    SplitPlain(y);
    SplitPlain(x');
    SplitPlain(y');
    SplitAround(x, y);
    SplitAround(x', y');
    assert ([x] + [y])[0] == x && ([x] + [y])[1] == y;
    assert ([x'] + [y'])[0] == x' && ([x'] + [y'])[1] == y';
  }

  /** So over one-hyphen names distinct containers get distinct tags. */
  lemma TagsDoNotCollide(dir: string, a: CheckpointName, b: CheckpointName)
    requires WellFormed(a) && WellFormed(b)
    requires Hyphens(a.container) == 1 && Hyphens(b.container) == 1 && a.container != b.container
    ensures ContainerName(dir + FileName(a)) == Found(a.container)
    ensures ContainerName(dir + FileName(b)) == Found(b.container)
    ensures Tag(a.container) != Tag(b.container)
  {
    OneHyphen(dir, a);
    OneHyphen(dir, b);
    TagInjective(a.container, b.container);
  }

  lemma OneHyphen(dir: string, c: CheckpointName)
    requires WellFormed(c) && Hyphens(c.container) == 1
    ensures ContainerName(dir + FileName(c)) == Found(c.container)
  {
    assert dir + FileName(c) == Head(dir, c) + "-" + c.container + "-" + YEAR + "-" + c.stamp;
    ContainerNameRoundTrip(Head(dir, c), c.container, c.stamp);
  }

  /** With more hyphens they can collide: any two names that differ only before their last two
      parts do. */
  lemma TagCollision(dir: string, pod: string, ns: string, stamp: string, x: string, y: string, shared: string)
    requires WellFormed(CheckpointName(pod, ns, x + "-" + shared, stamp)) && Hyphens(shared) == 1
    ensures ContainerName(dir + FileName(CheckpointName(pod, ns, x + "-" + shared, stamp))) ==
            ContainerName(dir + FileName(CheckpointName(pod, ns, y + "-" + shared, stamp))) == Found(shared)
  {
    LastTwo(dir, CheckpointName(pod, ns, x + "-" + shared, stamp), x, shared);
    LastTwo(dir, CheckpointName(pod, ns, y + "-" + shared, stamp), y, shared);
  }

  lemma LastTwo(dir: string, c: CheckpointName, x: string, shared: string)
    requires WellFormed(c) && c.container == x + "-" + shared && Hyphens(shared) == 1
    ensures ContainerName(dir + FileName(c)) == Found(shared)
  {
    SplitAround(x, shared);
    SplitJoin(shared);
    ExtractedName(dir, c);
    var ss := Split(shared);
    assert Join(ss[1..]) == ss[1];
  }

  /** So can a name without a hyphen: next to a container `y-z`, a container `z` in a namespace that
      ends in `-y` is committed under the same tag. */
  lemma NamespaceCollision(dir: string, pod: string, x: string, y: string, z: string, stamp: string)
    requires WellFormed(CheckpointName(pod, x + "-" + y, z, stamp)) && '-' !in y && '-' !in z
    ensures ContainerName(dir + FileName(CheckpointName(pod, x + "-" + y, z, stamp))) ==
            ContainerName(dir + FileName(CheckpointName(pod, x + "-" + y, y + "-" + z, stamp))) ==
            Found(y + "-" + z)
  {
    PlainBorrows(dir, CheckpointName(pod, x + "-" + y, z, stamp), x, y);
    OneHyphenOf(y, z);
    OneHyphen(dir, CheckpointName(pod, x + "-" + y, y + "-" + z, stamp));
  }

  /** A container name without a hyphen borrows the last part of the namespace. */
  lemma PlainBorrows(dir: string, c: CheckpointName, x: string, y: string)
    requires WellFormed(c) && c.ns == x + "-" + y && '-' !in y && '-' !in c.container
    ensures ContainerName(dir + FileName(c)) == Found(y + "-" + c.container)
  {
    ExtractedName(dir, c);
    SplitPlain(y);
    SplitPlain(c.container);
    var front := dir + MARK + c.pod + "_" + x;
    assert Head(dir, c) == front + "-" + y;
    SplitAround(front, y);
  }

  lemma OneHyphenOf(y: string, z: string)
    requires '-' !in y && '-' !in z
    ensures Hyphens(y + "-" + z) == 1
  {
    SplitPlain(y);
    SplitPlain(z);
    SplitAround(y, z);
    SplitJoin(y + "-" + z);
  }
}
