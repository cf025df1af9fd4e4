/**
 The two directories of a migration: the source directory that checkpoints are written to and
 read from, and the destination directory that the file handler fills and the watcher watches.
 */
module Storage {

  datatype Option<+T> = None | Some(value: T)

  /** A file of the destination: open and still being copied, cut off by a failed copy, or whole. */
  datatype Copy = Copying | Truncated(prefix: string) | Whole(content: string)

  /** What happens to one upload: the entry's info cannot be read; the request or the creation of
      the destination file fails; the copy breaks off after some bytes; everything works. */
  datatype Outcome = NoInfo | NotCreated | CopyFails(bytes: nat) | Stores {
    predicate Creates() { CopyFails? || Stores? }
  }

  type SourceDir = map<string, string>
  type DestDir = map<string, Copy>

  const SENTINEL: string := "dummy"

  function Get<K, V>(m: map<K, V>, k: K): Option<V> {
    if k in m then Some(m[k]) else None
  }

  /** The first `b` bytes of a content, or all of it if there are not so many. */
  function FirstBytes(content: string, b: nat): (r: string)
    ensures r <= content && |r| == if b < |content| then b else |content|
  {
    content[..if b < |content| then b else |content|]
  }

  /** What the handler leaves of an upload of `content` whose file was created. */
  function Filled(content: string, out: Outcome): Copy
    requires out.Creates()
  {
    match out
    case CopyFails(b) => Truncated(FirstBytes(content, b))
    case Stores => Whole(content)
  }

  /** The destination after one upload has run from start to end. */
  function Put(d: DestDir, n: string, content: string, out: Outcome): DestDir {
    if out.Creates() then d[n := Filled(content, out)] else d
  }

  /** The sequential reference: upload the files one after the other (controllers/migrate.go,
      MigrateCheckpoint). */
  function UploadAll(d: DestDir, src: SourceDir, files: seq<string>, upload: string -> Outcome): DestDir
    requires forall i :: 0 <= i < |files| ==> files[i] in src
  {
    if files == [] then d
    else
      var n := files[|files| - 1];
      Put(UploadAll(d, src, files[..|files| - 1], upload), n, src[n], upload(n))
  }

  predicate Distinct(files: seq<string>) {
    forall i, j :: 0 <= i < j < |files| ==> files[i] != files[j]
  }

  /** What is found under one name after the upload of that name. */
  function After(before: Option<Copy>, content: string, out: Outcome): Option<Copy> {
    if out.Creates() then Some(Filled(content, out)) else before
  }

  /** The sequential reference, name by name. */
  lemma {:induction false} UploadAllAt(d: DestDir, src: SourceDir, files: seq<string>, upload: string -> Outcome)
    requires forall i :: 0 <= i < |files| ==> files[i] in src
    requires Distinct(files)
    ensures var r := UploadAll(d, src, files, upload);
            && (forall i :: 0 <= i < |files| ==>
                  Get(r, files[i]) == After(Get(d, files[i]), src[files[i]], upload(files[i])))
            && (forall n :: n !in files ==> Get(r, n) == Get(d, n))
  {
    if files == [] {
    } else {
      var init, n := files[..|files| - 1], files[|files| - 1];
      UploadAllAt(d, src, init, upload);
      var before, r := UploadAll(d, src, init, upload), UploadAll(d, src, files, upload);
      assert r == Put(before, n, src[n], upload(n));
      forall i | 0 <= i < |files|
        ensures Get(r, files[i]) == After(Get(d, files[i]), src[files[i]], upload(files[i]))
      {
        if i < |init| { assert files[i] == init[i] != n; } else { assert n !in init; }
      }
      forall x | x !in files ensures Get(r, x) == Get(d, x) {
        assert n in files && x !in init;
      }
    }
  }

  /** Two maps with the same look-ups are the same map. */
  lemma SameLookups<K, V>(a: map<K, V>, b: map<K, V>)
    requires forall k :: Get(a, k) == Get(b, k)
    ensures a == b
  {
    assert forall k :: k in a ==> Get(a, k) == Get(b, k) && k in b && a[k] == b[k];
    assert forall k :: k in b ==> Get(a, k) == Get(b, k) && k in a;
  }

  /* ----- directory listings (os.ReadDir) ----- */

  /** Go's order on file names. */
  predicate Less(a: string, b: string) {
    if b == [] then false
    else if a == [] then true
    else if a[0] != b[0] then a[0] < b[0]
    else Less(a[1..], b[1..])
  }

  /** It is the lexicographic one: `a` ends where `b` goes on, or the first difference decides. */
  lemma {:induction false} LessExactly(a: string, b: string)
    ensures Less(a, b) <==>
            exists k: nat :: k <= |a| && k < |b| && a[..k] == b[..k] && (k == |a| || a[k] < b[k])
  {
    if a == [] || b == [] || a[0] != b[0] {
      if b != [] { assert a[..0] == b[..0]; }
    } else {
      LessExactly(a[1..], b[1..]);
      if Less(a, b) {
        var k: nat :| k <= |a[1..]| && k < |b[1..]| && a[1..][..k] == b[1..][..k]
                      && (k == |a[1..]| || a[1..][k] < b[1..][k]);
        assert a[..k + 1] == [a[0]] + a[1..][..k] && b[..k + 1] == [b[0]] + b[1..][..k];
        assert k + 1 <= |a|;
      }
      if k: nat :| k <= |a| && k < |b| && a[..k] == b[..k] && (k == |a| || a[k] < b[k]) {
        assert k > 0;
        assert a[1..][..k - 1] == a[..k][1..] && b[1..][..k - 1] == b[..k][1..];
      }
    }
  }

  lemma {:induction false} LessTransitive(a: string, b: string, c: string)
    requires Less(a, b) && Less(b, c)
    ensures Less(a, c)
  {
    if a != [] && a[0] == b[0] && b[0] == c[0] { LessTransitive(a[1..], b[1..], c[1..]); }
  }

  lemma {:induction false} LessTotal(a: string, b: string)
    ensures Less(a, b) || a == b || Less(b, a)
    ensures !Less(a, a) && !(Less(a, b) && Less(b, a))
  {
    if a == [] {
    } else {
      LessTotal(a[1..], a[1..]);
    }
    if a != [] && b != [] && a[0] == b[0] {
      LessTotal(a[1..], b[1..]);
      assert a == [a[0]] + a[1..] && b == [b[0]] + b[1..];
    }
  }

  ghost predicate Sorted(files: seq<string>) {
    forall i, j :: 0 <= i < j < |files| ==> Less(files[i], files[j])
  }

  /** `files` is what `os.ReadDir` returns for a directory with these names. */
  ghost predicate IsListing(files: seq<string>, names: set<string>) {
    && Sorted(files)
    && (forall i :: 0 <= i < |files| ==> files[i] in names)
    && (forall n :: n in names ==> n in files)
  }

  lemma SortedDistinct(files: seq<string>)
    requires Sorted(files)
    ensures Distinct(files)
  {
    forall i, j | 0 <= i < j < |files| ensures files[i] != files[j] {
      LessTotal(files[i], files[j]);
    }
  }

  /** The least of a nonempty set of names. */
  lemma {:induction false} Least(names: set<string>) returns (n: string)
    requires names != {}
    ensures n in names && forall x :: x in names && x != n ==> Less(n, x)
  {
    n :| n in names;
    var rest := names - {n};
    if rest != {} {
      var m := Least(rest);
      LessTotal(n, m);
      if Less(m, n) {
        n := m;
      } else {
        forall x | x in names && x != n ensures Less(n, x) {
          if x != m { LessTransitive(n, m, x); }
        }
      }
    } else {
      assert forall x :: x in names ==> x == n || x in rest;
    }
  }

  /** Every finite directory has a listing. */
  lemma {:induction false} ListingExists(names: set<string>) returns (files: seq<string>)
    ensures IsListing(files, names)
    decreases |names|
  {
    if names == {} {
      files := [];
    } else {
      var n := Least(names);
      var rest := ListingExists(names - {n});
      files := [n] + rest;
      forall i, j | 0 <= i < j < |files| ensures Less(files[i], files[j]) {
        if i == 0 { assert files[j] == rest[j - 1] && rest[j - 1] in rest; }
      }
    }
  }

  lemma HeadIn(files: seq<string>)
    ensures files != [] ==> files[0] in files
  {
  }

  /** ... and only one. */
  lemma {:induction false} ListingUnique(a: seq<string>, b: seq<string>, names: set<string>)
    requires IsListing(a, names) && IsListing(b, names)
    ensures a == b
    decreases |a|
  {
    if a == [] {
      HeadIn(b);
    } else {
      assert a[0] in a && a[0] in b;
      assert b != [] && b[0] in b && b[0] in a;
      var k :| 0 <= k < |b| && b[k] == a[0];
      var l :| 0 <= l < |a| && a[l] == b[0];
      LessTotal(a[0], b[0]);
      assert a[0] == b[0];
      SortedDistinct(a);
      SortedDistinct(b);
      assert IsListing(a[1..], names - {a[0]}) by {
        assert forall n :: n in a <==> n == a[0] || n in a[1..];
      }
      assert IsListing(b[1..], names - {a[0]}) by {
        assert forall n :: n in b <==> n == b[0] || n in b[1..];
      }
      ListingUnique(a[1..], b[1..], names - {a[0]});
      assert a == [a[0]] + a[1..] && b == [b[0]] + b[1..];
    }
  }

  lemma {:induction false} ListingSize(files: seq<string>, names: set<string>)
    requires IsListing(files, names)
    ensures |files| == |names|
  {
    if files == [] {
      assert names == {};
    } else {
      SortedDistinct(files);
      assert files[0] in files;
      assert IsListing(files[1..], names - {files[0]}) by {
        assert forall n :: n in files <==> n == files[0] || n in files[1..];
      }
      ListingSize(files[1..], names - {files[0]});
    }
  }
}
