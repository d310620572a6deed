/** The text a post preview card derives from its post. */
module PreviewCard {
  import opened Wrappers
  import opened Text

  /** `DESCRIPTION_LIMIT`. */
  const DescriptionLimit: nat := 120

  /** The text shown for a description: unchanged up to the limit, otherwise its
      first `DescriptionLimit` characters followed by "...". */
  function DisplayedDescription(description: string): (r: string)
    ensures |r| <= DescriptionLimit + 3
    ensures |description| <= DescriptionLimit ==> r == description
    ensures |description| > DescriptionLimit ==> |r| == DescriptionLimit + 3 && EndsWith(r, "...")
  {
    if |description| > DescriptionLimit then description[..DescriptionLimit] + "..." else description
  }

  /** The displayed text, with a trailing "..." removed when it was added, is the
      start of the description; the shortened text keeps exactly `DescriptionLimit` of it. */
  lemma DisplayedIsPrefix(description: string)
    ensures var r := DisplayedDescription(description);
      (r == description) || (|r| >= 3 && r[|r| - 3..] == "..." && r[..|r| - 3] == description[..DescriptionLimit])
    ensures var r := DisplayedDescription(description);
      |description| > DescriptionLimit ==> r[..|r| - 3] <= description
  {
  }

  /** The author handle under the card: the author's username, or "user" when the
      post carries no profile or the username is empty. */
  function AuthorHandle(username: Option<string>): (r: string)
    ensures r != []
    ensures username.Some? && username.value != [] ==> r == "@" + username.value
    ensures username.None? || username.value == [] ==> r == "@user"
  {
    "@" + (if username.Some? && username.value != [] then username.value else "user")
  }
}
