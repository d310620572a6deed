/**
 * `Avatar`: a round picture of a user, or their initials when there is no picture.
 * The initials are the first character of each space-separated part of the name,
 * at most two of them, upper-cased.
 */
module Avatar {
  import opened Wrappers
  import opened Text

  /** `part[0]` joined over the parts: an empty part has no first character and
      contributes nothing to the join. */
  function FirstChars(parts: seq<string>): (r: string)
    ensures |r| <= |parts|
  {
    if |parts| == 0 then []
    else (if |parts[0]| > 0 then [parts[0][0]] else []) + FirstChars(parts[1..])
  }

  /** The characters of `name` that start a word: not a space, and either first or
      right after a space. `afterSpace` says whether the previous character was a space. */
  function WordStartsFrom(name: string, afterSpace: bool): (r: string)
    ensures |r| <= |name|
    ensures forall i :: 0 <= i < |r| ==> r[i] in name && r[i] != ' '
  {
    if |name| == 0 then []
    else (if afterSpace && name[0] != ' ' then [name[0]] else []) + WordStartsFrom(name[1..], name[0] == ' ')
  }

  /** The word-starting characters of a whole name. */
  function WordStarts(name: string): string {
    WordStartsFrom(name, true)
  }

  /** Splitting on ' ' and taking each part's first character picks exactly the
      word-starting characters: a run of spaces yields empty parts, which add nothing. */
  lemma {:induction false} FirstCharsOfSplit(name: string, afterSpace: bool)
    ensures WordStartsFrom(name, afterSpace)
            == if afterSpace then FirstChars(Split(name, ' ')) else FirstChars(Split(name, ' ')[1..])
  {
    if |name| > 0 {
      var rest := Split(name[1..], ' ');
      FirstCharsOfSplit(name[1..], true);
      FirstCharsOfSplit(name[1..], false);
      if name[0] == ' ' {
        SplitAtFirst([], name[1..], ' ');
        assert name == [] + [' '] + name[1..];
        assert Split(name, ' ') == [[]] + rest;
        assert ([[]] + rest)[1..] == rest;
      } else {
        assert Split(name, ' ') == [[name[0]] + rest[0]] + rest[1..];
        assert ([[name[0]] + rest[0]] + rest[1..])[1..] == rest[1..];
      }
    }
  }

  /** The initials of a name, or none when there is no name (`name?.…`). */
  function Initials(name: Option<string>): (r: Option<string>)
    ensures r.Some? <==> name.Some?
    ensures r.Some? ==> |r.value| <= 2
    ensures r.Some? ==> r.value == ToUpper(Take(WordStarts(name.value), 2))
  {
    match name
    case None => None
    case Some(n) =>
      FirstCharsOfSplit(n, true);
      var joined := FirstChars(Split(n, ' '));
      Some(ToUpper(joined[..if |joined| < 2 then |joined| else 2]))
  }

  /** `s.slice(0, k)`. */
  function Take(s: string, k: nat): (r: string)
    ensures |r| <= k && r <= s
    ensures |s| >= k ==> |r| == k
  {
    if |s| <= k then s else s[..k]
  }

  /** What the avatar shows. */
  datatype AvatarView = Picture(uri: string) | Letters(text: string)

  /** A non-empty picture address shows the picture; otherwise the initials, or "?"
      when there are none. */
  function AvatarContent(uri: Option<string>, name: Option<string>): (r: AvatarView)
    ensures r.Picture? <==> uri.Some? && uri.value != []
    ensures r.Picture? ==> r.uri == uri.value
    ensures r.Letters? ==> 1 <= |r.text| <= 2
    ensures r.Letters? && (name.None? || WordStarts(name.value) == []) ==> r.text == "?"
    ensures r.Letters? && name.Some? && WordStarts(name.value) != []
            ==> r.text == ToUpper(Take(WordStarts(name.value), 2))
  {
    if uri.Some? && uri.value != [] then Picture(uri.value)
    else
      var initials := Initials(name);
      if initials.Some? && initials.value != [] then Letters(initials.value) else Letters("?")
  }
}
