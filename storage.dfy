/**
 * Object-storage helpers: reading the bucket and object path back out of a
 * public URL, and choosing the content type of an upload.
 */
module Storage {
  import opened Wrappers
  import opened Text

  /** The path segment that precedes `<bucket>/<path>` in a public object URL. */
  const Marker: string := "/storage/v1/object/public/"

  /** Where an object lives: its bucket and its path inside the bucket. */
  datatype ObjectRef = ObjectRef(bucket: string, path: string)

  /** `getStoragePathFromPublicUrl`: the text after the first marker, split at
      its first '/' into bucket and path; null when there is no marker, the
      bucket is empty, or no '/' follows the bucket. */
  function ParsePublicUrl(url: string): (r: Option<ObjectRef>)
    ensures (forall i :: 0 <= i <= |url| ==> !OccursAt(url, Marker, i)) ==> r == None
    ensures r.Some? ==> r.value.bucket != "" && '/' !in r.value.bucket
  {
    var index := IndexOf(url, Marker);
    if index == -1 then None
    else
      var parts := Split(url[index + |Marker|..], '/');
      if parts[0] == "" || |parts| == 1 then None
      else Some(ObjectRef(parts[0], Join(parts[1..], "/")))
  }

  /** What a successful parse means: the URL is some prefix, the marker, the
      bucket, '/', and the path, where the marker occurs nowhere earlier. */
  lemma ParsedUrlShape(url: string)
    requires ParsePublicUrl(url).Some?
    ensures var r := ParsePublicUrl(url).value;
      var i := IndexOf(url, Marker);
      0 <= i && url == url[..i] + Marker + r.bucket + "/" + r.path
      && (forall j :: 0 <= j < i ==> !OccursAt(url, Marker, j))
  {
    var r := ParsePublicUrl(url).value;
    var i := IndexOf(url, Marker);
    var rest := url[i + |Marker|..];
    var parts := Split(rest, '/');
    assert r == ObjectRef(parts[0], Join(parts[1..], "/"));
    JoinSplit(rest, '/');
    assert rest == Join(parts, "/");
    assert Join(parts, "/") == parts[0] + "/" + Join(parts[1..], "/");
    assert rest == r.bucket + "/" + r.path;
    assert url[i..i + |Marker|] == Marker;
    assert url == url[..i] + url[i..i + |Marker|] + rest;
  }

  /** The marker does not start anywhere inside `prefix` in `prefix + Marker`,
      so in any URL that continues `prefix + Marker` the first marker is the one
      right after `prefix`. */
  predicate MarkerFirstAfter(prefix: string) {
    forall j :: 0 <= j < |prefix| ==> !OccursAt(prefix + Marker, Marker, j)
  }

  /** `getPublicUrl`: the public address of an object, under the project's base URL. */
  function PublicUrl(base: string, obj: ObjectRef): string {
    base + Marker + obj.bucket + "/" + obj.path
  }

  /** Composing a URL from a prefix, a bucket and a path and parsing it back
      gives the bucket and the path. */
  lemma ParsePublicUrlRoundTrip(prefix: string, bucket: string, path: string)
    requires MarkerFirstAfter(prefix)
    requires bucket != "" && '/' !in bucket
    ensures ParsePublicUrl(prefix + Marker + bucket + "/" + path) == Some(ObjectRef(bucket, path))
  {
    var url := prefix + Marker + bucket + "/" + path;
    var head := prefix + Marker;
    assert url == head + (bucket + "/" + path);
    forall j | 0 <= j < |prefix|
      ensures !OccursAt(url, Marker, j)
    {
      assert !OccursAt(head, Marker, j);
      assert url[j..j + |Marker|] == head[j..j + |Marker|];
    }
    assert url[|prefix|..|prefix| + |Marker|] == Marker;
    assert OccursAt(url, Marker, |prefix|);
    var i := IndexOf(url, Marker);
    assert i == |prefix|;
    assert url[i + |Marker|..] == bucket + [ '/' ] + path;
    SplitAtFirst(bucket, path, '/');
    JoinSplit(path, '/');
  }

  /** A URL that ends right after `<bucket>/` parses, with the empty path. */
  lemma TrailingSlashGivesEmptyPath(prefix: string, bucket: string)
    requires MarkerFirstAfter(prefix)
    requires bucket != "" && '/' !in bucket
    ensures ParsePublicUrl(prefix + Marker + bucket + "/") == Some(ObjectRef(bucket, ""))
  {
    ParsePublicUrlRoundTrip(prefix, bucket, "");
    assert prefix + Marker + bucket + "/" + "" == prefix + Marker + bucket + "/";
  }

  /** A URL whose text after the marker is only a bucket, without a '/', does not parse. */
  lemma BucketWithoutPathRejected(prefix: string, bucket: string)
    requires MarkerFirstAfter(prefix)
    requires '/' !in bucket
    ensures ParsePublicUrl(prefix + Marker + bucket) == None
  {
    var url := prefix + Marker + bucket;
    var head := prefix + Marker;
    assert url == head + bucket;
    forall j | 0 <= j < |prefix|
      ensures !OccursAt(url, Marker, j)
    {
      assert !OccursAt(head, Marker, j);
      assert url[j..j + |Marker|] == head[j..j + |Marker|];
    }
    assert url[|prefix|..|prefix| + |Marker|] == Marker;
    assert OccursAt(url, Marker, |prefix|);
    assert IndexOf(url, Marker) == |prefix|;
    assert url[|prefix| + |Marker|..] == bucket;
    JoinSplit(bucket, '/');
  }

  /** "The prefix does not contain the marker" is not enough for the round trip:
      the marker begins and ends with '/', so a prefix that is the marker without
      its last '/' (too short to contain the marker) makes an earlier occurrence. */
  lemma PrefixWithoutMarkerIsNotEnough()
    ensures |"/storage/v1/object/public"| < |Marker|
    ensures ParsePublicUrl("/storage/v1/object/public" + Marker + "b/p")
         == Some(ObjectRef("storage", "v1/object/public/b/p"))
  {
    var p := "/storage/v1/object/public";
    var rest := "v1/object/public/b/p";
    var tail := "storage" + "/" + rest;
    var url := p + Marker + "b/p";
    assert url == Marker + tail;
    assert url[..|Marker|] == Marker;
    assert IndexOf(url, Marker) == 0;
    assert url[|Marker|..] == tail;
    SplitAtFirst("storage", rest, '/');
    var parts := Split(tail, '/');
    assert parts == ["storage"] + Split(rest, '/');
    assert parts[1..] == Split(rest, '/');
    JoinSplit(rest, '/');
  }

  /** The content type `uploadImageAsync` sends: PNG when the lower-cased path
      ends in ".png", JPEG otherwise. */
  function ContentType(path: string): (t: string)
    ensures t == "image/png" || t == "image/jpeg"
    ensures t == "image/png" <==> EndsWith(ToLower(path), ".png")
  {
    if EndsWith(ToLower(path), ".png") then "image/png" else "image/jpeg"
  }

  /** Paths ending in ".jpg" (as `createPost` builds them) are sent as JPEG. */
  lemma JpgPathIsJpeg(stem: string)
    ensures ContentType(stem + ".jpg") == "image/jpeg"
  {
    var lower := ToLower(stem + ".jpg");
    assert lower[|lower| - 3] == 'j';
  }

  /** Upper-case ".PNG" is recognised too. */
  lemma UpperPngIsPng(stem: string)
    ensures ContentType(stem + ".PNG") == "image/png"
  {
    var lower := ToLower(stem + ".PNG");
    assert lower[|lower| - 4..] == ".png";
  }
}
