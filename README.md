# MealPins, modelled in Dafny

MealPins is a mobile app in which users post geotagged meal photos. The posts are shown on a map, limited to a recent time window, and scoped to either "everyone" (explore) or "the people I follow" (following). The app is a set of React Native screens over a hosted backend that provides tables, authentication and object storage.

This project models the deterministic logic of that app and proves properties about it:

- **The backend** is a class `Api.Backend`. Its fields are the tables (posts, profiles, follows), the stored objects, and a log of the mutations it has applied. The log lets the model state the order of operations: upload before insert, row delete before image removal.
  - Every request the app makes is a method on this class. Each method takes a flag for whether the request gets through, and returns the value or a `Fault`.
  - Structural errors are modelled as the backend reports them. `.maybeSingle()` fails when several rows match. `.single()` fails when no row matches. An upload without `upsert` fails when the path is already taken. Inserting a duplicate post id fails.
- **Pure helpers** are datatypes, functions and lemmas, in modules `Text`, `Storage`, `Dates`, `Format`, `PreviewCard`, `Avatar`, `Places` and `Feeds`. They cover:
  - the public-URL parser and the upload content type;
  - the UTC-day range that `src/lib/date.ts` computes;
  - `formatCount`;
  - description truncation;
  - avatar initials;
  - place-name composition;
  - the feed filters and their newest-first order.
- **Screens and providers** are classes whose fields are the screen's state and whose methods are its handlers:
  - `HomeScreen` (the map and its selection guard);
  - `UserProfileScreen` (load, follow toggle);
  - `SignUpScreen`, `EditProfileScreen`, `CreatePostScreen`, `EditPostScreen` and `SearchScreen`;
  - `AuthProvider` (session and profile resolution);
  - `ThemeProvider` (preference persistence).
- **Device services are parameters.** The clock, the location permission, GPS, geocoding and the key-value store's success are all inputs to the methods.

The feed queries take the time window as a free `(start, end)` parameter. As written, `src/lib/api.ts` imports a window function, `getLast24HoursRange`, that `src/lib/date.ts` does not export (see Findings). That name suggests a rolling 24 hours, while the only window `src/lib/date.ts` defines, `getTodayUtcRange`, is the calendar UTC day. The model does not choose between the two: no member ties the feed window to `Dates.TodayUtcRange`.

## Model

| member | source | states |
|---|---|---|
| Text.Trim | src/screens/SignUpScreen.tsx:34 | `trim()` removes exactly the leading and trailing white space. The result is empty iff the input is all white space, and otherwise it starts and ends with a non-space character. |
| Text.IndexOf | src/lib/storage.ts:8 | `indexOf` gives the first index at which the pattern occurs, with no earlier occurrence. It gives -1 exactly when the pattern occurs nowhere. |
| Text.JoinSplit | src/lib/storage.ts:11-13 | Joining the parts of `split(c)` with `c` gives back the original string. |
| Text.SplitAtFirst | src/lib/storage.ts:11 | Splitting `a + c + b`, where `a` has no `c`, gives `a` first and then the parts of `b`. |
| Text.SplitWithoutSeparator | src/lib/storage.ts:11 | A string without the separator splits into itself alone. |
| Text.SplitCount | src/lib/storage.ts:11 | `split(c)` gives one piece more than the string has `c` characters. |
| Text.ToLower | src/lib/storage.ts:24 | `toLowerCase` keeps the length and maps each character (ASCII letters). |
| Text.ToUpper | src/components/ui/Avatar.tsx:19 | `toUpperCase` keeps the length and maps each character (ASCII letters). |
| Text.NatToString | src/lib/format.ts:14 | `String(n)` is a non-empty string of decimal digits with no leading zero. |
| Text.ParseNatToString | src/lib/format.ts:14 | Reading the digits of `String(n)` back gives `n`. |
| Text.IntToString | src/lib/format.ts:14 | `String(n)` is a numeral that starts with '-' exactly when `n` is negative. |
| Text.IntToStringRoundTrip | src/lib/format.ts:14 | Parsing `String(n)` gives back `n`, for every integer. |
| Storage.ParsePublicUrl | src/lib/storage.ts:6-14 | Without the marker, the result is null. A parsed bucket is non-empty and has no '/'. |
| Storage.ParsedUrlShape | src/lib/storage.ts:8-13 | A successful parse means the URL is a prefix with no earlier marker, then the marker, the bucket, '/', and the path. |
| Storage.ParsePublicUrlRoundTrip | src/lib/storage.ts:6-14 | `prefix + marker + b + '/' + p` parses to `{b, p}` whenever the first marker is the one after the prefix and `b` is non-empty with no '/'. |
| Storage.TrailingSlashGivesEmptyPath | src/lib/storage.ts:11-13 | A URL ending right after `<bucket>/` parses, with path ''. |
| Storage.BucketWithoutPathRejected | src/lib/storage.ts:12 | When nothing follows the bucket, the result is null. |
| Storage.PrefixWithoutMarkerIsNotEnough | src/lib/storage.ts:8-13 | A prefix that does not contain the marker can still make the marker occur earlier, and then the parse names another bucket. |
| Storage.ContentType | src/lib/storage.ts:24 | The content type is 'image/png' iff the lower-cased path ends in '.png', and 'image/jpeg' otherwise. |
| Storage.JpgPathIsJpeg | src/lib/api.ts:124 | The `.jpg` paths that `createPost` builds are uploaded as JPEG. |
| Storage.UpperPngIsPng | src/lib/storage.ts:24 | '.PNG' is recognised regardless of case. |
| Dates.SplitEraDay | src/lib/date.ts:3 | Splits a day of the 400-year era into a year of the era and a day of the year, and recomposes to the same day. |
| Dates.CivilFromDays | src/lib/date.ts:3 | `getUTCMonth() + 1` is in 1..12 and `getUTCDate()` is in 1..31. |
| Dates.CivilRoundTrip | src/lib/date.ts:3 | The UTC date components of a day number give back that day number. |
| Dates.CivilInjective | src/lib/date.ts:3 | Two day numbers have the same UTC date iff they are equal. |
| Dates.DateUtcNextDay | src/lib/date.ts:3-4 | `Date.UTC(y, m, d)` is a UTC midnight, and `Date.UTC(y, m, d + 1)` is exactly 86 400 000 ms later, even past the month's end. |
| Dates.TodayUtcRangeIsDay | src/lib/date.ts:1-8 | The start is a multiple of 86 400 000 and the end is exactly one day later. Outside the years 0..99, start ≤ now < end, and the start is now's UTC midnight. |
| Dates.SameRangeIffSameUtcDate | src/lib/date.ts:3-4 | For two instants whose years lie outside 0..99, they get the same range iff their UTC date components are equal. The local time zone plays no part. |
| Dates.TwoDigitYearRange | src/lib/date.ts:3-4 | Because `Date.UTC` reads years 0..99 as 1900..1999, an instant in year 50 gets a range in 1950. |
| Format.FormatCount | src/lib/format.ts:11-15 | Values below 1000 are rendered plain, as a decimal that parses back to the value. The 'M' suffix is used iff the value is ≥ 1 000 000, and 'k' iff it is in 1000..999 999. The divisors are 10^6 and 10^3. |
| Format.FormatCountShowsThousandK | src/lib/format.ts:13 | As written, 999 950..999 999 get 'k' with a quotient that rounds to 1000.0. |
| Format.FormatCountCorrected | src/lib/format.ts:11-15 | With the 'k' range ending below 999 950, 'k' labels have quotients below 999.95 and 'M' starts at 999 950. |
| Format.CorrectedNeverShowsThousandK | src/lib/format.ts:11-15 | The corrected thresholds never show "1000.0k", and they agree with `formatCount` outside 999 950..999 999. |
| PreviewCard.DisplayedDescription | src/components/PostPreviewCard.tsx:12-34 | A description of at most 120 characters is unchanged. A longer one becomes 123 characters ending in "...". The result is never longer than 123. |
| PreviewCard.DisplayedIsPrefix | src/components/PostPreviewCard.tsx:31-34 | The displayed text, minus an added "...", is a prefix of the description. |
| PreviewCard.AuthorHandle | src/components/PostPreviewCard.tsx:68 | The handle is '@' followed by the username, or '@user' when there is no username or it is empty. |
| Avatar.FirstChars | src/components/ui/Avatar.tsx:15-17 | Mapping `part[0]` and joining yields at most one character per part, and empty parts contribute nothing. |
| Avatar.WordStartsFrom | src/components/ui/Avatar.tsx:14-17 | The characters that start a word are characters of the name and are never a space. |
| Avatar.FirstCharsOfSplit | src/components/ui/Avatar.tsx:14-17 | The first characters of `name.split(' ')` are exactly the word-starting characters of the name. |
| Avatar.Take | src/components/ui/Avatar.tsx:18 | `slice(0, k)` is a prefix of at most `k` characters, and exactly `k` when the string is long enough. |
| Avatar.Initials | src/components/ui/Avatar.tsx:14-19 | The initials are null iff the name is. Otherwise they are the first two word starts, upper-cased, so at most 2 characters. |
| Avatar.AvatarContent | src/components/ui/Avatar.tsx:29-33 | A non-empty uri shows the picture. Otherwise 1 or 2 letters are shown, and '?' exactly when there is no name or it has no word start. |
| Tables.Filter | src/lib/api.ts:73-74 | A filter keeps exactly the rows that satisfy the condition, and never more rows than the input. |
| Tables.FilterCounts | src/lib/api.ts:73-74 | A kept row occurs as often as in the input, a dropped row never occurs, and the result is a sub-multiset of the input. |
| Tables.FilterAppend | src/lib/api.ts:185 | Filtering distributes over appending a row. |
| Tables.FilterKeepsAll | src/lib/api.ts:192-194 | A filter that every row passes changes nothing. |
| Tables.UniqueKeySameRow | src/lib/api.ts:10-11 | Under a primary key, two rows with the same key are the same row. |
| Tables.UniqueKeyOccursOnce | src/lib/api.ts:10-11 | Under a primary key, each row occurs exactly once. |
| Tables.UniqueKeyAtMostOne | src/lib/api.ts:10-11 | Under a primary key, a selection by key has at most one row, so `.maybeSingle()`/`.single()` never sees several. |
| Tables.FilterUniqueKeys | src/lib/api.ts:165 | Deleting rows keeps the primary key unique. |
| Tables.FilterRemovedCount | src/lib/api.ts:189-194 | Removing every copy of a row lowers each count that included it by its multiplicity. |
| Feeds.InsertNewestFirst | src/lib/api.ts:75 | Inserting into a newest-first list keeps it newest first, and the list is the old one plus the row, as a multiset. |
| Feeds.HeadIsNewest | src/lib/api.ts:75 | The head of a newest-first list is at least as new as every row. |
| Feeds.SortNewestFirst | src/lib/api.ts:75 | `order('created_at', {ascending: false})` returns a permutation of the rows in non-increasing `created_at`. |
| Feeds.ExploreFeed | src/lib/api.ts:68-78 | The explore feed is exactly the posts with start ≤ created_at < end, with their multiplicities, newest first. |
| Feeds.FollowsBy | src/lib/api.ts:82-85 | The follow rows whose follower is the user. |
| Feeds.FollowsOf | src/lib/api.ts:199-202 | The follow rows whose followed user is the user. |
| Feeds.FollowingFeed | src/lib/api.ts:92-98 | The following feed is exactly the in-window posts whose author is in the id set, with their multiplicities, newest first. |
| Feeds.PostsByUser | src/lib/api.ts:104-113 | A user's posts are exactly the posts by that author, with their multiplicities, newest first. |
| Feeds.PostRowsBy | src/lib/api.ts:213-216 | The post rows by one author (for the count). |
| Feeds.FollowingFeedWithinExplore | src/lib/api.ts:68-101 | The following feed is a sub-multiset of the explore feed for the same window. |
| Feeds.OwnPostsInFollowingFeed | src/lib/api.ts:88 | The user's own in-window posts are always in the following feed. |
| Feeds.FollowingFeedWithoutFollows | src/lib/api.ts:88-89 | A user who follows nobody sees only their own posts in the following feed. |
| Feeds.RemoveKeepsNewestFirst | src/lib/api.ts:75 | Removing a row from a newest-first list keeps it newest first. |
| Feeds.AlignAfterRemoval | src/lib/api.ts:75 | A step of the uniqueness proof: aligning two orders after removing a shared newest row. |
| Feeds.NewestFirstUnique | src/lib/api.ts:75 | Two newest-first orders of the same rows agree on every position's `created_at`. Only ties are left unordered, because there is no id tie-break. |
| Api.MaybeSingle | src/lib/api.ts:11 | `.maybeSingle()` returns null for no row, the row for one, and an error iff there are several. |
| Api.Single | src/lib/api.ts:22 | `.single()` succeeds iff exactly one row matches. |
| Api.ProfilesWithId | src/lib/api.ts:7-11 | The profile rows with the id, a sub-multiset of the table. |
| Api.ProfilesWithUsername | src/lib/api.ts:29-33 | The profile rows with the username. |
| Api.ProfilesWithUsernameWithin | src/lib/api.ts:29-33 | The username selection holds each row at most as often as the table does. Together with `Tables.UniqueKeyAtMostOne`, this bounds holders that all share one id to at most one row. |
| Api.Matches | src/lib/api.ts:58-61 | The profiles whose username or display name contains the query, ignoring case. |
| Api.OrFilterConditions | src/lib/api.ts:61 | The unescaped `.or()` text splits at ',' into exactly the username and display-name conditions iff the query has no ','. Each ',' in the query adds two more pieces. |
| Api.SplitTwo | src/lib/api.ts:61 | Two comma-free conditions joined by ',' split back into the two. |
| Api.ConditionCommas | src/lib/api.ts:61 | A condition holds exactly the commas of the query pasted into it. |
| Api.PrefixesWithoutComma | src/lib/api.ts:61 | The fixed text of both conditions holds no ','. |
| Api.PostsWithId | src/lib/api.ts:153-156 | The post rows with the id, a sub-multiset of the table. |
| Api.WithoutPost | src/lib/api.ts:165 | After a delete by id, exactly the posts with other ids remain. |
| Api.EdgeRows | src/lib/api.ts:171-176 | The rows of a follow edge; there are as many as the edge's multiplicity. |
| Api.WithoutEdge | src/lib/api.ts:189-194 | After an unfollow, exactly the other edges remain. |
| Api.FollowThenUnfollow | src/lib/api.ts:182-196 | Following then unfollowing leaves no edge, and gives back the original table when there was no edge before. |
| Api.FollowAddsToCounts | src/lib/api.ts:182-210 | A follow adds one to the followed user's followers and to the follower's following. |
| Api.UnfollowRemovesFromCounts | src/lib/api.ts:189-210 | An unfollow lowers both counts by the edge's number of rows. |
| Api.ApplyPatch | src/lib/api.ts:145-161 | A patch leaves id, user_id, image_url and created_at untouched. Each editable column takes the patch value when it is defined, and keeps the old one otherwise. |
| Api.PatchPosts | src/lib/api.ts:153-158 | Only the rows with the id are patched, and the others stay. |
| Api.CollectUpdates | src/lib/api.ts:146-151 | Of the payload, exactly title, description, location_name, latitude and longitude are copied, and only the defined ones. |
| Api.UpsertRow | src/lib/api.ts:17-22 | An upsert puts the row in the table. Rows with other ids are unchanged, the row count is unchanged when the id exists (the row is appended when it does not), and the ids stay unique. |
| Api.Backend.FetchProfile | src/lib/api.ts:6-15 | Returns the profile with the id or null, and throws on transport failure. |
| Api.Backend.IsUsernameAvailable | src/lib/api.ts:28-39 | Returns true iff no profile has the username, or the one that has it is the non-empty current user. Throws when several profiles have the username. |
| Api.Backend.SearchProfiles | src/lib/api.ts:56-66 | An empty query returns [] with no request. A query holding ',' or ')' breaks the unescaped filter text and fails with `BadFilter`. Otherwise returns the first ≤30 matching profiles, in table order. |
| Api.Backend.UpsertProfile | src/lib/api.ts:17-26 | The row gets the username, display name, bio '' and avatar null. A new row is created at `now`, and an existing row keeps its creation time. |
| Api.Backend.UpdateProfile | src/lib/api.ts:41-54 | Writes the display name and username of the row. A missing row is an error and changes nothing. |
| Api.Backend.FetchTodayPostsExplore | src/lib/api.ts:68-78 | Returns exactly `ExploreFeed(posts, window)`, or throws. |
| Api.Backend.FetchTodayPostsFollowing | src/lib/api.ts:81-102 | The loop builds {userId} ∪ the ids the user follows. The result is `FollowingFeed` over that set. A failure of either request throws. |
| Api.Backend.FetchPostsByUser | src/lib/api.ts:104-113 | Returns exactly `PostsByUser(posts, userId)`, or throws. |
| Api.Backend.FetchTodayPostsExploreAsWritten | src/lib/api.ts:68-79 | As written, the window function imported at line 2 is missing, so it always throws before any request. |
| Api.Backend.FetchTodayPostsFollowingAsWritten | src/lib/api.ts:81-102 | As written, the missing window function (imported at line 2) makes it throw after the follows request and never returns posts. |
| Api.Backend.UploadImage | src/lib/storage.ts:16-36 | Stores the object when the path is free (no upsert), with the content type from the extension, and returns its public URL. A failure changes nothing. |
| Api.Backend.CreatePost | src/lib/api.ts:115-143 | Uploads to `post-images/<userId>/<clientNow>.jpg` before the insert. The row's image_url parses back to that object and its title defaults to ''. A failed insert leaves the upload behind. |
| Api.Backend.InsertPost | src/lib/api.ts:127-141 | Inserting the post row either appends exactly that row, or fails with the table unchanged. An id already in the table fails as a duplicate key. |
| Api.Backend.UpdatePost | src/lib/api.ts:145-162 | The post becomes `ApplyPatch(post, payload's five fields)` and the other posts stay. A missing post is an error and changes nothing. |
| Api.Backend.DeleteImageByUrl | src/lib/storage.ts:38-42 | Removes the object the URL names. A URL that does not parse removes nothing. |
| Api.Backend.DeletePost | src/lib/api.ts:164-168 | A failed row delete throws and removes no image. Otherwise the rows are gone and logged before the image removal is attempted. |
| Api.Backend.IsFollowing | src/lib/api.ts:170-180 | Returns true iff the edge exists, and is an error iff it exists more than once. |
| Api.Backend.FollowUser | src/lib/api.ts:182-187 | Appends the edge, or throws and changes nothing. |
| Api.Backend.UnfollowUser | src/lib/api.ts:189-196 | Removes every row of the edge, or throws and changes nothing. |
| Api.Backend.FetchFollowCounts | src/lib/api.ts:198-225 | Returns (edges into p, edges out of p, posts by p), and the first failing count throws. |
| Home.HomeScreen.LoadPosts | src/screens/HomeScreen.tsx:57-72 | Without a user, nothing happens. Otherwise a successful load replaces the posts with the mode's feed, and a failure keeps them. Loading ends and the selection is untouched. |
| Home.HomeScreen.Markers | src/screens/HomeScreen.tsx:98-126 | There is one marker per post, at its coordinates. A marker is highlighted iff its post id equals the selected id. |
| Home.HomeScreen.AtMostOneHighlighted | src/screens/HomeScreen.tsx:101 | With unique post ids, at most one marker is highlighted, and none without a selection. |
| Home.HomeScreen.PressMarker | src/screens/HomeScreen.tsx:106-109 | Selects the marker's post and arms the guard. |
| Home.HomeScreen.PressMap | src/screens/HomeScreen.tsx:135-141 | With the guard armed, it only disarms the guard. Otherwise it clears the selection. |
| Home.HomeScreen.PressMarkerThenMap | src/screens/HomeScreen.tsx:106-141 | A marker press followed by its map press leaves the post selected. |
| Home.HomeScreen.SelectMode | src/screens/HomeScreen.tsx:30-77 | Choosing the other mode switches and reloads. The current mode changes nothing. |
| Home.HomeScreen.HandleDelete | src/screens/HomeScreen.tsx:79-96 | A successful delete clears the selection and reloads. When the reload succeeds, the post is no longer shown; when it fails, the old posts stay, the deleted post included. A failed delete keeps the selection and the posts. The marker guard is untouched, and loading ends after every reload. |
| UserProfile.UserProfileScreen.ShowsFollowButton | src/screens/UserProfileScreen.tsx:33 | The follow button is shown iff the viewed id is not the viewer's id. |
| UserProfile.UserProfileScreen.LoadData | src/screens/UserProfileScreen.tsx:35-55 | Profile, posts and counts are committed only if all three reads succeed. The follow status is read only for a signed-in viewer. Loading ends. |
| UserProfile.UserProfileScreen.ToggleFollow | src/screens/UserProfileScreen.tsx:63-78 | Unfollows when following and follows otherwise. Only on success does the button flip and the counts get read again. Without a viewer, nothing happens. When the counts were current, followers change by +1 or by minus the edge's row count. |
| Auth.UserIdOf | src/providers/AuthProvider.tsx:35 | `session?.user?.id` is non-empty exactly when the handlers look for a profile. |
| Auth.Resolve | src/providers/AuthProvider.tsx:38-89 | A fetched profile is used as-is. Without one, a profile is created iff the metadata has both a username and a display name. |
| Auth.AuthProvider.CurrentUser | src/providers/AuthProvider.tsx:154 | `user` is the session's user, or null. |
| Auth.AuthProvider.ResolveProfile | src/providers/AuthProvider.tsx:37-55 | Uses the user's existing profile, or creates one with bio '' and avatar null from complete metadata; the created row is upserted into the profiles and every other profile stays. Anything else yields nothing and leaves the profiles as they were. The other tables never change. |
| Auth.AuthProvider.Bootstrap | src/providers/AuthProvider.tsx:32-61 | Takes the stored session and the found or created profile. When there is no user, no profile, or a failed request, the profile is left as it was. Only a created profile changes the profiles table, by an upsert of that row; the other tables never change. Loading ends. |
| Auth.AuthProvider.OnAuthStateChange | src/providers/AuthProvider.tsx:65-97 | Takes the new session and the found or created profile. No session, missing metadata, or a failed request sets the profile to null. Only a created profile changes the profiles table, by an upsert of that row; the other tables never change. |
| Auth.AuthProvider.SignUp | src/providers/AuthProvider.tsx:109-138 | Sends the registration with username and display name as metadata. Writes and takes the profile only when a session comes back, by an upsert of that row. A failed registration or a failed profile write throws and leaves the profiles as they were. The other tables never change. |
| Auth.AuthProvider.RefreshProfile | src/providers/AuthProvider.tsx:145-149 | Without a session user, nothing happens. Otherwise the profile becomes the fetched one, null included, and a failed fetch throws and changes nothing. |
| SignUp.CheckUsername | src/screens/SignUpScreen.tsx:34-45 | The username is trimmed first. An empty username is missing, and one with a character outside [a-zA-Z0-9._] is invalid. |
| SignUp.AcceptedUsernameIsStable | src/screens/SignUpScreen.tsx:34-45 | An accepted username has no white space and is accepted again unchanged. |
| SignUp.TrimOfUnspaced | src/screens/SignUpScreen.tsx:34 | A string without white space is its own trim. |
| SignUp.SignUpScreen.HandleSignUp | src/screens/SignUpScreen.tsx:32-65 | Missing or invalid usernames stop it before any request. A username held by anyone, checked with no current user, stops it. Otherwise it registers the trimmed email, the raw password, the trimmed username and the trimmed display name. Loading is off at the end of every path. |
| EditProfile.CheckProfileForm | src/screens/EditProfileScreen.tsx:27-41 | Trims both fields. An empty display name is rejected first, then an empty username, then a username with any white space. |
| EditProfile.SignUpUsernamePassesEditor | src/screens/EditProfileScreen.tsx:38-41 | Every username that sign-up accepts passes the editor's checks unchanged. |
| EditProfile.EditorAcceptsWhatSignUpRefuses | src/screens/EditProfileScreen.tsx:38-41 | The editor accepts "a-b", which sign-up refuses. |
| EditProfile.EditProfileScreen.SyncFromProfile | src/screens/EditProfileScreen.tsx:20-23 | The form takes the profile's display name and username, or '' without a profile. |
| EditProfile.EditProfileScreen.HandleSave | src/screens/EditProfileScreen.tsx:25-65 | With no user or a bad form, nothing happens. Availability is checked only for a changed username, excluding the user's own id: another holder blocks the save, and a changed username held by no one else is saved when every request succeeds, as is an unchanged one. A successful save writes both fields, and the refreshed profile shows them. Saving is off after every started save. |
| Places.Present | src/screens/CreatePostScreen.tsx:59 | `filter(Boolean)` keeps exactly the present, non-empty parts and no other string. Order and multiplicity are stated by `Places.PresentAppend`. |
| Places.PresentAppend | src/screens/CreatePostScreen.tsx:59 | Filtering a concatenation is the concatenation of the filtered halves, so the kept parts keep their order and their number of occurrences. |
| Places.PresentByParts | src/screens/CreatePostScreen.tsx:59 | Over three entries, the filter is each entry's part (itself when present and non-empty, else nothing) in entry order. |
| Places.PlacePartsInOrder | src/screens/CreatePostScreen.tsx:57-59 | The parts of a placemark are its name, then its city, then its region, each only when present and non-empty. |
| Places.JoinShowsParts | src/screens/CreatePostScreen.tsx:59 | Each joined part occurs whole in the joined text, at increasing offsets. |
| Places.LocationNameFor | src/screens/CreatePostScreen.tsx:57-63 | The name is the present parts joined by ', ', or 'Current location'. It is never empty. |
| Places.LocationNameShowsParts | src/screens/EditPostScreen.tsx:37-43 | The parts are name, city, region, each when present. Each part shows whole in the location name, and each starts after the previous one ends. |
| Places.GeocodeTarget | src/screens/CreatePostScreen.tsx:66-79 | An empty name or no result gives nothing. Otherwise the first result is used. |
| CreatePost.CreatePostScreen.UseCurrentLocation | src/screens/CreatePostScreen.tsx:41-64 | With permission, the position and the composed name are taken. Without it, nothing changes. |
| CreatePost.CreatePostScreen.Geocode | src/screens/CreatePostScreen.tsx:66-79 | The coordinates become the first result's, or stay as they were. |
| CreatePost.CreatePostScreen.HandleSubmit | src/screens/CreatePostScreen.tsx:81-111 | With no user or a missing field, nothing happens; a 0 coordinate counts as present. Otherwise it creates the post with title ''. Success clears all five fields and failure keeps them. Loading ends. |
| EditPost.EditPostScreen.constructor | src/screens/EditPostScreen.tsx:14-19 | The form starts from the post's title, description, location name and coordinates. |
| EditPost.EditPostScreen.UseCurrentLocation | src/screens/EditPostScreen.tsx:21-44 | With permission, the position and the composed name are taken. Without it, nothing changes. |
| EditPost.EditPostScreen.Geocode | src/screens/EditPostScreen.tsx:46-59 | The coordinates become the first result's, or stay as they were. |
| EditPost.EditPostScreen.Payload | src/screens/EditPostScreen.tsx:69-75 | The update carries all five editable fields and no other column. |
| EditPost.EditPostScreen.HandleSave | src/screens/EditPostScreen.tsx:61-83 | Title, description and location must be non-empty; the coordinates are not checked. On success the posts table is exactly the old one with that post patched by the five form values, keeping its id, author, image and time, and every other post unchanged. Loading ends. |
| Search.SearchScreen.SetQuery | src/screens/SearchScreen.tsx:15-33 | A new query replaces the scheduled run with one for itself. |
| Search.SearchScreen.Fire | src/screens/SearchScreen.tsx:16-30 | An empty query gives [] with no request. Otherwise it searches `query.trim()`, so white space only gives []. A failure keeps the results, including a query that breaks the filter text. Loading ends. |
| Search.SearchScreen.RetypeThenFire | src/screens/SearchScreen.tsx:15-33 | Of two edits before the timer fires, only the second query is searched for. A second query that breaks the filter text leaves the results as they were. |
| Theme.ParsePreference | src/providers/ThemeProvider.tsx:29 | Only exactly 'light', 'dark' or 'system' is adopted. |
| Theme.ParsePreferenceName | src/providers/ThemeProvider.tsx:29-44 | A stored preference reads back as itself. |
| Theme.SchemeShown | src/providers/ThemeProvider.tsx:31-43 | A fixed setting shows itself, and 'system' follows the device. |
| Theme.KeyValueStore.GetItem | src/providers/ThemeProvider.tsx:28 | Returns the stored value, null, or a failure. |
| Theme.KeyValueStore.SetItem | src/providers/ThemeProvider.tsx:44 | The key takes the value, and a failed write changes nothing. |
| Theme.ThemeProvider.constructor | src/providers/ThemeProvider.tsx:22-23 | The theme starts as 'system' and is not hydrated. |
| Theme.ThemeProvider.LoadTheme | src/providers/ThemeProvider.tsx:26-36 | Adopts a valid stored value and otherwise keeps the theme. Hydration ends whatever was read. |
| Theme.ThemeProvider.SetTheme | src/providers/ThemeProvider.tsx:41-45 | Sets and applies the theme, then stores its name under 'mealpins.theme'. |
| Theme.ThemeProvider.ResolvedScheme | src/providers/ThemeProvider.tsx:47 | The resolved scheme is dark iff the shown colour scheme is dark, and light otherwise. |
| Theme.ThemeSurvivesRestart | src/providers/ThemeProvider.tsx:26-45 | A theme that was set and stored is restored by the next start-up. |

## Left out

- Network transport, authentication mechanics, base64 decoding and upload bytes. Each request is a method that either applies its effect or fails, chosen by a boolean parameter.
- Device services. Image picking (`pickImage`), location permission, GPS, and forward and reverse geocoding are inputs.
- Clocks are inputs. `createPost` uses the client clock for the image path and the server clock for `created_at`, so they are separate parameters.
- Timers and in-flight request races. The code has no stale-response discard. The search debounce is modelled only as "the scheduled run is replaced".
- Alerts, navigation, rendering and styling.
- `formatTimestamp` (Intl formatting) and the ISO-string rendering in `date.ts`. Instants are integer milliseconds.
- `signIn`, `signOut` and the listener's unsubscription. They delegate to the authentication service.
- `ProfileScreen`, `PostDetailScreen` and `SignInScreen`. They repeat loads and checks already modelled.
- The embedded `profile:profiles(*)` join on post queries. Posts are modelled without it, so `PreviewCard.AuthorHandle` takes the username as an input.
- Row-level security and database constraints beyond primary keys. Post and profile ids are unique. The follows table may hold duplicate edges, so `IsFollowing` models the `.maybeSingle()` error on a duplicate. Usernames are not assumed unique, so several holders make `isUsernameAvailable` throw.
- Text is modelled as code points. JavaScript lengths and `slice` count UTF-16 code units, and `toUpperCase`/`toLowerCase` are modelled for ASCII letters only (`ß` becomes `SS` in JavaScript).
- Api.Backend.SearchProfiles: the query is pasted into the `.or()` filter text unescaped. The model refuses every query holding ',' or ')' with `BadFilter`. A query whose text after a ',' happens to read as a filter of its own could be accepted by the server; the model does not follow the server's filter grammar that far. The characters `*` (the server's alias for the `%` wildcard), `"` and `(`, and the ilike wildcards `%` and `_`, are treated literally by `Api.Matches`, whereas the server gives them meaning. The order of search results is the table order, because the query has no `order`.
- Storage.PublicUrl: the storage client passes the public URL through `encodeURI`, and the model composes it verbatim. The round trip `CreatePost` states, that the image URL parses back to the uploaded object, holds in the source only for URI-safe paths. The app's `<user id>/<digits>.jpg` paths are URI-safe.
- An update whose payload defines none of the five fields sends an empty update. The model applies it as a no-op that still returns the row, whereas the hosted backend may reject it.
- Format.FormatCount: the digits `toFixed(1)` produces are floating-point output. Only the branch, the suffix and the quotient are modelled.
- Api.Backend.FetchFollowCounts: a count the server returns as null becomes 0 in the source. The model always has exact counts.
- Storage.ParsePublicUrlRoundTrip: the precondition is "the first marker occurrence is the one after the prefix". The weaker "the prefix does not contain the marker" is not enough, as `Storage.PrefixWithoutMarkerIsNotEnough` shows.
- Places.Present: only strings are modelled, so the `filter(Boolean)` drops null, undefined and '' but not other falsy values.
- The code does not have the following behaviour, and the model does not add it:
  - Ordering has no tie-break by id; `Feeds.NewestFirstUnique` shows that only ties are unordered.
  - A refresh does not clear a selection whose post is gone.
  - There is no stale-response discard when the mode changes.
  - Follow edges are not assumed unique.
  - Self-follow is not prevented.
  - A failed insert after a successful upload leaves the image behind, with no compensating delete.

## Findings

| source | as written | input that shows it | evidently intended | confidence | as-written member | corrected member |
|---|---|---|---|---|---|---|
| src/lib/api.ts:2 | imports `getLast24HoursRange`, which `src/lib/date.ts` does not export (it defines `getTodayUtcRange`). Calling it throws before the posts query. | any call of `fetchTodayPostsExplore()`, or of `fetchTodayPostsFollowing(u)` once the follows request succeeds | the feeds are filtered by a time window; whether that is the calendar UTC day of `getTodayUtcRange` or a rolling 24 hours, as the imported name suggests, the code does not settle, so the corrected member takes the window as a parameter | high (not executed) | Api.Backend.FetchTodayPostsExploreAsWritten | Api.Backend.FetchTodayPostsExplore |
| src/lib/format.ts:13 | the 'k' branch covers every value below 1 000 000, but `(value / 1000).toFixed(1)` rounds up to "1000.0" for values of 999 950 and above | 999 999 is shown as "1000.0k" | values that round to a thousand thousands are shown as "1.0M" | medium (not executed) | Format.FormatCountShowsThousandK | Format.FormatCountCorrected |
