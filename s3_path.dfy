/**
 * The object-storage path resolver shared, line for line, by the three
 * bulk-intake variants: a path must start with `s3://`, and the rest is
 * split once at its first `/` into a bucket and a key.
 */
module S3Path {
  import opened Common

  const Scheme: string := "s3://"

  /** Go's `strings.HasPrefix`. */
  predicate HasPrefix(s: string, prefix: string) {
    |prefix| <= |s| && s[..|prefix|] == prefix
  }

  /** Go's `strings.TrimPrefix`: drops the prefix when present. */
  function TrimPrefix(s: string, prefix: string): (r: string)
    ensures HasPrefix(s, prefix) ==> prefix + r == s
    ensures !HasPrefix(s, prefix) ==> r == s
  {
    if HasPrefix(s, prefix) then s[|prefix|..] else s
  }

  /** Position of the first occurrence of `c` in `s`. */
  function IndexOf(s: string, c: char): (r: Option<nat>)
    ensures r.Some? ==> r.value < |s| && s[r.value] == c && c !in s[..r.value]
    ensures r.None? <==> c !in s
  {
    if |s| == 0 then None
    else if s[0] == c then Some(0)
    else match IndexOf(s[1..], c)
      case None => None
      case Some(i) =>
        assert s[1..][..i] == s[1..i + 1];
        assert s[..i + 1] == [s[0]] + s[1..i + 1];
        Some(i + 1)
  }

  /**
   * Go's `strings.SplitN(s, sep, 2)` for a one-character separator: the
   * whole string when the separator is absent, otherwise the text before
   * its first occurrence and everything after it.
   */
  function SplitN2(s: string, sep: char): (parts: seq<string>)
    ensures 1 <= |parts| <= 2
    ensures |parts| == 1 <==> sep !in s
    ensures |parts| == 1 ==> parts[0] == s
    ensures |parts| == 2 ==> parts[0] + [sep] + parts[1] == s && sep !in parts[0]
  {
    match IndexOf(s, sep)
    case None => [s]
    case Some(i) =>
      assert s[..i] + [sep] + s[i + 1..] == s;
      [s[..i], s[i + 1..]]
  }

  datatype Location = Location(bucket: string, key: string)

  datatype PathError =
    | MissingScheme   // "invalid S3 path format: must start with s3://"
    | NotBucketKey    // "invalid S3 path: must be in s3://bucket/key format"

  datatype Resolved = Resolved(loc: Location) | Malformed(error: PathError)

  /** The pure part of `ValidateAndPushToSQS`: prefix check, then split. */
  function Resolve(filePath: string): (r: Resolved)
    ensures r == Malformed(MissingScheme) <==> !HasPrefix(filePath, Scheme)
    ensures r == Malformed(NotBucketKey) <==>
              HasPrefix(filePath, Scheme) && '/' !in filePath[|Scheme|..]
    ensures r.Resolved? ==>
              filePath == Scheme + r.loc.bucket + "/" + r.loc.key && '/' !in r.loc.bucket
  {
    if !HasPrefix(filePath, Scheme) then Malformed(MissingScheme)
    else
      var parts := SplitN2(TrimPrefix(filePath, Scheme), '/');
      if |parts| != 2 then Malformed(NotBucketKey)
      else Resolved(Location(parts[0], parts[1]))
  }

  /**
   * The split is at the first `/` only: for every bucket without `/` and
   * every key (empty, or itself holding `/`), the joined path resolves
   * back to exactly that bucket and key.
   */
  lemma ResolveRoundTrip(bucket: string, key: string)
    requires '/' !in bucket
    ensures Resolve(Scheme + bucket + "/" + key) == Resolved(Location(bucket, key))
  {
    var p := Scheme + bucket + "/" + key;
    assert p[..|Scheme|] == Scheme;
    var rest := TrimPrefix(p, Scheme);
    assert rest == bucket + "/" + key;
    var parts := SplitN2(rest, '/');
    assert rest[|bucket|] == '/';
    assert |parts| == 2;
    SplitUnique(parts[0], parts[1], bucket, key);
  }

  /** In `a + "/" + b` with no `/` in `a`, the first `/` is the one after `a`. */
  lemma FirstSlash(a: string, b: string)
    requires '/' !in a
    ensures IndexOf(a + "/" + b, '/') == Some(|a|)
  {
    var s := a + "/" + b;
    assert s[|a|] == '/';
  }

  /** Two ways of writing a string around a first separator agree. */
  lemma SplitUnique(a: string, b: string, c: string, d: string)
    requires '/' !in a && '/' !in c
    requires a + "/" + b == c + "/" + d
    ensures a == c && b == d
  {
    var s := a + "/" + b;
    FirstSlash(a, b);
    FirstSlash(c, d);
    assert a == s[..|a|] == c;
    assert b == s[|a| + 1..] == d;
  }

  /** The split inverts the join: a resolved path is rebuilt by joining. */
  lemma JoinRoundTrip(filePath: string)
    requires Resolve(filePath).Resolved?
    ensures var loc := Resolve(filePath).loc;
            Scheme + loc.bucket + "/" + loc.key == filePath
  {
  }

  /** The accepted cases of the repository's own path table. */
  lemma ResolveAcceptsPlainKey()
    ensures Resolve("s3://my-bucket/file.csv") == Resolved(Location("my-bucket", "file.csv"))
  {
    ResolveJoined("my-bucket", "file.csv", "s3://my-bucket/file.csv");
  }

  lemma ResolveAcceptsNestedKey()
    ensures Resolve("s3://bucket/path/to/file.csv") == Resolved(Location("bucket", "path/to/file.csv"))
  {
    ResolveJoined("bucket", "path/to/file.csv", "s3://bucket/path/to/file.csv");
  }

  /** Neither an empty bucket nor an empty key is rejected. */
  lemma ResolveAcceptsEmptyParts()
    ensures Resolve("s3:///") == Resolved(Location("", ""))
  {
    ResolveJoined("", "", "s3:///");
  }

  lemma ResolveJoined(bucket: string, key: string, p: string)
    requires '/' !in bucket && p == Scheme + bucket + "/" + key
    ensures Resolve(p) == Resolved(Location(bucket, key))
  {
    ResolveRoundTrip(bucket, key);
  }

  /** The rejected cases of the repository's own path table. */
  lemma ResolveRejectsExamples()
    ensures Resolve("http://bucket/file.csv") == Malformed(MissingScheme)
    ensures Resolve("s3://onlybucket") == Malformed(NotBucketKey)
    ensures Resolve("") == Malformed(MissingScheme)
  {
    assert "http://bucket/file.csv"[0] != Scheme[0];
    var p := "s3://onlybucket";
    assert p[..5] == Scheme;
    assert p[5..] == "onlybucket";
    assert '/' !in p[5..];
  }
}
