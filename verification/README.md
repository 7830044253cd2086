# Video handle of SmartTube, in Dafny

SmartTube's media-browsing UI passes `Video` objects around. A `Video` is a
handle for a video, a channel or a playlist. It carries:

- identity fields: `videoId`, `playlistId`, `channelId` and the backend `mediaItem`;
- display fields: title, description, author, images, badge;
- watch progress;
- a reference to the `VideoGroup` row it was loaded in.

This project models that class and proves what it promises:

- **Identity.** `equals` decides on the first identity field the receiver
  has set, so it is neither symmetric nor reflexive. Its null-safe static
  form and `isEmpty` are modelled too.
- **Text record.** `toString` writes ten fields joined by `&vi;`, and
  `fromString` splits them back with Java's `String.split`. That split
  drops trailing empty strings, so a record whose last field is empty is
  rejected.
- **Parcel form.** `writeToParcel` and `Video(Parcel)` write and read nine
  fields in the same order.
- **In-place merges.** The `sync` overloads, with frames that name exactly
  the fields each one may change.
- **Construction.** The `from(...)` factories, `copy` and the `VideoBuilder`.
- **Derived queries.**
  - `extractAuthor` picks a segment of a "•"-separated description.
  - `findVideosByAuthor` filters a group.
  - The `has*`, `is*` and `belongsTo*` predicates.

## Layout

- `optional.dfy` (module `Optional`): the `Option` type. `None` stands for Java's `null`.
- `java_text.dfy` (module `JavaText`): the parts of `java.lang.String` the class relies on.
  - `split` with a literal delimiter, including the removal of trailing empty strings.
  - `trim`.
  - The `"%s"` rendering of a nullable string and of a `long`.
  - Joining with a delimiter.
  - The split/join round trip and when it fails.
- `media_service.dfy` (module `MediaService`): snapshots of the backend objects `Video` reads (`MediaItem`, `MediaItemMetadata`, `MediaGroup`).
- `parcels.dfy` (module `Parcels`): an Android `Parcel`, modelled as a first-in first-out sequence of typed values with a read position.
- `authors.dfy` (module `Authors`): the segment choice of `extractAuthor`, with worked examples.
- `sequences.dfy` (module `Sequences`): selecting elements by a key, and the subsequence relation.
- `videos.dfy` (module `Videos`): the classes `Video`, `VideoGroup` and `VideoBuilder`.
- `video_laws.dfy` (module `VideoLaws`): properties that relate several operations, and witnesses built with them.

The helpers whose code lives elsewhere become function parameters of the operations that call them:

- `Helpers.abbreviate`, `parseStr`, `parseLong` and `hashCodeAny`;
- `YouTubeMediaService.serialize` and `deserializeMediaItem`;
- `MediaItem.equals`.

The text round trip states what it needs of them as a hypothesis: each field's printed text parses back to the field.

## Model

All source paths are under `common/src/main/java/com/liskovsoft/smartyoutubetv2/common/app/models/data/`.

| member | source | states |
|---|---|---|
| JavaText.Split | common/src/main/java/com/liskovsoft/smartyoutubetv2/common/app/models/data/Video.java:266 | no piece contains the delimiter; a string without the delimiter splits into itself alone, the empty string included |
| JavaText.SplitJoin | common/src/main/java/com/liskovsoft/smartyoutubetv2/common/app/models/data/Video.java:266-291 | split undoes a join when no part contains the delimiter and the last part is non-empty |
| JavaText.SplitJoinDropsEmptyLast | common/src/main/java/com/liskovsoft/smartyoutubetv2/common/app/models/data/Video.java:266-270 | with an empty last part, split of the join yields fewer parts than were joined |
| JavaText.Join | common/src/main/java/com/liskovsoft/smartyoutubetv2/common/app/models/data/Video.java:290-291 | the first part starts the joined text, followed by the delimiter when there are more parts |
| JavaText.Trim | common/src/main/java/com/liskovsoft/smartyoutubetv2/common/app/models/data/Video.java:227 | the result is no longer than the input and neither starts nor ends with a character up to U+0020; a string already free of them at both ends is unchanged |
| JavaText.TrimRemovesOnlySpace | common/src/main/java/com/liskovsoft/smartyoutubetv2/common/app/models/data/Video.java:227 | the trimmed text sits inside the input, and everything before and after it is a character up to U+0020 |
| JavaText.TrimIdempotent | common/src/main/java/com/liskovsoft/smartyoutubetv2/common/app/models/data/Video.java:227 | trimming twice is trimming once |
| JavaText.FormatLong | common/src/main/java/com/liskovsoft/smartyoutubetv2/common/app/models/data/Video.java:290-291 | a printed long is non-empty and made only of '-' and decimal digits |
| JavaText.FormatStr | common/src/main/java/com/liskovsoft/smartyoutubetv2/common/app/models/data/Video.java:290-291 | prints "null" exactly for null and for the text "null", so those two cannot be told apart; any other text prints as itself |
| JavaText.DigitsValue | common/src/main/java/com/liskovsoft/smartyoutubetv2/common/app/models/data/Video.java:290-291 | the decimal digits printed for a natural number denote that number |
| JavaText.FormatLongValue | common/src/main/java/com/liskovsoft/smartyoutubetv2/common/app/models/data/Video.java:290-291 | a printed long denotes its value: its digits for a non-negative number, a minus sign followed by the digits of its magnitude otherwise |
| Parcels.Parcel.WriteLong | common/src/main/java/com/liskovsoft/smartyoutubetv2/common/app/models/data/Video.java:250 | appends one long value and changes nothing else |
| Parcels.Parcel.WriteString | common/src/main/java/com/liskovsoft/smartyoutubetv2/common/app/models/data/Video.java:251-258 | appends one nullable string value and changes nothing else |
| Parcels.Parcel.ReadLong | common/src/main/java/com/liskovsoft/smartyoutubetv2/common/app/models/data/Video.java:77 | yields the long at the read position (0 if none is there) and advances by one |
| Parcels.Parcel.ReadString | common/src/main/java/com/liskovsoft/smartyoutubetv2/common/app/models/data/Video.java:78-85 | yields the string at the read position (null if none is there) and advances by one |
| Authors.AuthorText | common/src/main/java/com/liskovsoft/smartyoutubetv2/common/app/models/data/Video.java:209-225 | null exactly when author and description are both null; a present description always wins over the author; a description that splits on "•" into at most one part is used whole; with four or more parts the second part is taken; with two or three parts the first part is taken when it is longer than two characters, and the second otherwise; a chosen part never contains "•" |
| Authors.ShortLabelIsSkipped | common/src/main/java/com/liskovsoft/smartyoutubetv2/common/app/models/data/Video.java:221-223 | a two-character first part ("4K") is skipped in favour of the second |
| Authors.FourPartsTakeTheSecond | common/src/main/java/com/liskovsoft/smartyoutubetv2/common/app/models/data/Video.java:223 | with four parts the second is taken even when the first is long |
| Authors.TrailingBulletKeepsDescription | common/src/main/java/com/liskovsoft/smartyoutubetv2/common/app/models/data/Video.java:216-219 | "Channel•" splits into one part, since the trailing empty string is dropped, so the whole description, bullet included, is used |
| Authors.LoneBulletKeepsDescription | common/src/main/java/com/liskovsoft/smartyoutubetv2/common/app/models/data/Video.java:216-219 | the description "•" splits into no parts at all, since both pieces are trailing empty strings, so it is used whole |
| Sequences.SelectKeepsMatches | common/src/main/java/com/liskovsoft/smartyoutubetv2/common/app/models/data/Video.java:234-238 | selection by key is a subsequence; each kept element sits at a matching position; an element whose positions all match is kept as often as it occurs |
| Videos.ExtractedAuthors | common/src/main/java/com/liskovsoft/smartyoutubetv2/common/app/models/data/Video.java:234-235 | one extracted author per video |
| Videos.ExtractedAuthorAt | common/src/main/java/com/liskovsoft/smartyoutubetv2/common/app/models/data/Video.java:234-235 | the extracted author at each position is that of the video at that position |
| Videos.VideosByAuthor | common/src/main/java/com/liskovsoft/smartyoutubetv2/common/app/models/data/Video.java:234-238 | no longer than the list it filters; VideosByAuthorSelects states which videos it keeps |
| Videos.VideosByAuthorSelects | common/src/main/java/com/liskovsoft/smartyoutubetv2/common/app/models/data/Video.java:230-242 | the filtered list is an order-preserving subsequence; every video in it has the wanted author; every video with that author is kept as often as it occurs |
| Videos.Video.constructor | common/src/main/java/com/liskovsoft/smartyoutubetv2/common/app/models/data/Video.java:23-53 | every field at its initial value: null, 0 or false, except percentWatched and groupPosition at -1 |
| Videos.Video.Create | common/src/main/java/com/liskovsoft/smartyoutubetv2/common/app/models/data/Video.java:55-74 | the nine arguments land in their fields; all other fields at their initial values |
| Videos.Video.ReadDetails | common/src/main/java/com/liskovsoft/smartyoutubetv2/common/app/models/data/Video.java:77-85 | nine reads: id, category, title, description, bgImageUrl, cardImageUrl, videoId, videoUrl, author from consecutive positions; the read position advances by nine |
| Videos.Video.FromParcel | common/src/main/java/com/liskovsoft/smartyoutubetv2/common/app/models/data/Video.java:76-86 | the nine parcel fields come from consecutive positions in write order; every other field at its initial value |
| Videos.Video.FromItem | common/src/main/java/com/liskovsoft/smartyoutubetv2/common/app/models/data/Video.java:88-113 | the twenty fields taken from the item (the item itself included); channel membership, group and the remaining flags at their initial values |
| Videos.Video.FromVideoId | common/src/main/java/com/liskovsoft/smartyoutubetv2/common/app/models/data/Video.java:115-117 | only the video id is set, and the playlist index is -1, so the handle is not a playlist item |
| Videos.Video.FromPlaylistVideo | common/src/main/java/com/liskovsoft/smartyoutubetv2/common/app/models/data/Video.java:119-121 | video id, playlist id and index set; everything else, progress included, at its initial value |
| Videos.Video.FromIds | common/src/main/java/com/liskovsoft/smartyoutubetv2/common/app/models/data/Video.java:123-134 | the seven identity and progress arguments land in their fields; every other field at its initial value |
| Videos.Video.FromRecord | common/src/main/java/com/liskovsoft/smartyoutubetv2/common/app/models/data/Video.java:272-284 | the ten record values land in their fields; description, author, playlistIndex, progress and the flags keep their initial values |
| Videos.Video.FromString | common/src/main/java/com/liskovsoft/smartyoutubetv2/common/app/models/data/Video.java:261-286 | null exactly when the input is null or does not split on "&vi;" into ten parts; otherwise the ten fields are parsed positionally and every other field keeps its initial value |
| Videos.Video.Equals | common/src/main/java/com/liskovsoft/smartyoutubetv2/common/app/models/data/Video.java:163-189 | true only for a non-null video, and only when this one has a video id, playlist id, channel id or media item; EqualsDecidedByFirstIdentity states which field decides |
| Videos.Video.HashCode | common/src/main/java/com/liskovsoft/smartyoutubetv2/common/app/models/data/Video.java:191-194 | defined as hashCodeAny of videoId, playlistId, channelId and mediaItem; no ensures; SameIdentitySameEquality states that equal identity fields give equal hashes |
| Videos.Video.NullSafeEquals | common/src/main/java/com/liskovsoft/smartyoutubetv2/common/app/models/data/Video.java:196-202 | true only when both videos are non-null; NullSafeEqualsNeedsFirst states it is the instance equals otherwise |
| Videos.Video.IsEmpty | common/src/main/java/com/liskovsoft/smartyoutubetv2/common/app/models/data/Video.java:204-206 | defined as "null, or no video id"; no ensures; HasVideo states it is the negation of hasVideo |
| Videos.Video.ExtractAuthor | common/src/main/java/com/liskovsoft/smartyoutubetv2/common/app/models/data/Video.java:208-228 | null exactly when author and description are both null; otherwise the text AuthorText chooses, trimmed and then abbreviated to 20; so an author alone gives the trimmed, abbreviated author, and a description without "•" its trimmed, abbreviated self |
| Videos.Video.FindVideosByAuthor | common/src/main/java/com/liskovsoft/smartyoutubetv2/common/app/models/data/Video.java:230-242 | empty for a null group or a group without a list; otherwise exactly the author selection of the list, in order |
| Videos.Video.WriteToParcel | common/src/main/java/com/liskovsoft/smartyoutubetv2/common/app/models/data/Video.java:249-259 | appends the nine parcel fields in order and changes nothing else |
| Videos.Video.ParcelRecord | common/src/main/java/com/liskovsoft/smartyoutubetv2/common/app/models/data/Video.java:249-259 | nine values: the id as a long first, then eight nullable strings |
| Videos.Video.TextRecord | common/src/main/java/com/liskovsoft/smartyoutubetv2/common/app/models/data/Video.java:288-291 | ten texts, the first being the printed id; the last is empty exactly when the serializer yields the empty text (null prints as "null") |
| Videos.Video.ToString | common/src/main/java/com/liskovsoft/smartyoutubetv2/common/app/models/data/Video.java:288-292 | begins with the printed id followed by "&vi;"; ToStringSplitsIntoRecord states when splitting gives back the ten texts |
| Videos.Video.HasVideo | common/src/main/java/com/liskovsoft/smartyoutubetv2/common/app/models/data/Video.java:309-311 | a handle has a video exactly when isEmpty does not hold of it |
| Videos.Video.HasChannel | common/src/main/java/com/liskovsoft/smartyoutubetv2/common/app/models/data/Video.java:313-315 | defined as "channelId is not null"; no ensures |
| Videos.Video.HasPlaylist | common/src/main/java/com/liskovsoft/smartyoutubetv2/common/app/models/data/Video.java:317-319 | defined as "playlistId is not null"; no ensures |
| Videos.Video.HasUploads | common/src/main/java/com/liskovsoft/smartyoutubetv2/common/app/models/data/Video.java:321-323 | only a handle with a media item can have uploads |
| Videos.Video.IsChannel | common/src/main/java/com/liskovsoft/smartyoutubetv2/common/app/models/data/Video.java:325-327 | a channel handle has a channel and no video |
| Videos.Video.IsPlaylistItem | common/src/main/java/com/liskovsoft/smartyoutubetv2/common/app/models/data/Video.java:329-331 | defined as "playlistIndex is positive"; no ensures; FromVideoId states that a video built from an id alone is not one |
| Videos.Video.IsPlaylist | common/src/main/java/com/liskovsoft/smartyoutubetv2/common/app/models/data/Video.java:333-335 | a playlist handle has no video and has a media item |
| Videos.Video.MediaGroupType | common/src/main/java/com/liskovsoft/smartyoutubetv2/common/app/models/data/Video.java:337-355 | a group type is known only when the handle has a group |
| Videos.Video.BelongsToUndefined | common/src/main/java/com/liskovsoft/smartyoutubetv2/common/app/models/data/Video.java:337-339 | holds only for a handle whose group has a media group (of the undefined type) |
| Videos.Video.BelongsToChannelUploads | common/src/main/java/com/liskovsoft/smartyoutubetv2/common/app/models/data/Video.java:341-343 | holds only for a handle whose group has a media group (of the channel-uploads type) |
| Videos.Video.BelongsToPlaylists | common/src/main/java/com/liskovsoft/smartyoutubetv2/common/app/models/data/Video.java:345-347 | holds only for a handle whose group has a media group (of the user-playlists type) |
| Videos.Video.BelongsToSubscriptions | common/src/main/java/com/liskovsoft/smartyoutubetv2/common/app/models/data/Video.java:349-351 | holds only for a handle whose group has a media group (of the subscriptions type) |
| Videos.Video.BelongsToHistory | common/src/main/java/com/liskovsoft/smartyoutubetv2/common/app/models/data/Video.java:353-355 | holds only for a handle whose group has a media group (of the history type) |
| Videos.Video.SyncProgress | common/src/main/java/com/liskovsoft/smartyoutubetv2/common/app/models/data/Video.java:357-363 | nothing changes for null; otherwise the other video's progress is taken; no other field can change |
| Videos.Video.SyncMetadata | common/src/main/java/com/liskovsoft/smartyoutubetv2/common/app/models/data/Video.java:365-367 | the effect of the two-argument sync with the primary description |
| Videos.Video.SyncMetadataVariant | common/src/main/java/com/liskovsoft/smartyoutubetv2/common/app/models/data/Video.java:369-398 | no-op for null; title replaced only by a present title; description only when not upcoming and the chosen variant is present; channelId, nextMediaItem, isLive, isSubscribed, isUpcoming always replaced; isSynced set; no other field can change |
| Videos.Video.Copy | common/src/main/java/com/liskovsoft/smartyoutubetv2/common/app/models/data/Video.java:403-409 | a fresh video with the seven identity and progress fields of this one; a group copy exactly when this one has a group; every other field at its initial value; this one unchanged |
| Videos.VideoGroup.Copy | common/src/main/java/com/liskovsoft/smartyoutubetv2/common/app/models/data/Video.java:406 | a fresh group for the same media group |
| Videos.VideoBuilder.constructor | common/src/main/java/com/liskovsoft/smartyoutubetv2/common/app/models/data/Video.java:412-423 | every builder field starts null or 0 |
| Videos.VideoBuilder.SetId | common/src/main/java/com/liskovsoft/smartyoutubetv2/common/app/models/data/Video.java:425-428 | sets only the id and returns the same builder |
| Videos.VideoBuilder.SetCategory | common/src/main/java/com/liskovsoft/smartyoutubetv2/common/app/models/data/Video.java:430-433 | sets only the category and returns the same builder |
| Videos.VideoBuilder.SetTitle | common/src/main/java/com/liskovsoft/smartyoutubetv2/common/app/models/data/Video.java:435-438 | sets only the title and returns the same builder |
| Videos.VideoBuilder.SetDescription | common/src/main/java/com/liskovsoft/smartyoutubetv2/common/app/models/data/Video.java:440-443 | sets only the description and returns the same builder |
| Videos.VideoBuilder.SetVideoId | common/src/main/java/com/liskovsoft/smartyoutubetv2/common/app/models/data/Video.java:445-448 | sets only the video id and returns the same builder |
| Videos.VideoBuilder.SetVideoUrl | common/src/main/java/com/liskovsoft/smartyoutubetv2/common/app/models/data/Video.java:450-453 | sets only the video URL and returns the same builder |
| Videos.VideoBuilder.SetBgImageUrl | common/src/main/java/com/liskovsoft/smartyoutubetv2/common/app/models/data/Video.java:455-458 | sets only the background image URL and returns the same builder |
| Videos.VideoBuilder.SetCardImageUrl | common/src/main/java/com/liskovsoft/smartyoutubetv2/common/app/models/data/Video.java:460-463 | sets only the card image URL and returns the same builder |
| Videos.VideoBuilder.SetStudio | common/src/main/java/com/liskovsoft/smartyoutubetv2/common/app/models/data/Video.java:465-468 | sets only the studio and returns the same builder |
| Videos.VideoBuilder.Build | common/src/main/java/com/liskovsoft/smartyoutubetv2/common/app/models/data/Video.java:485-497 | a fresh video with the nine builder fields, the studio as its author, every other field at its initial value |
| VideoLaws.EqualsDecidedByFirstIdentity | common/src/main/java/com/liskovsoft/smartyoutubetv2/common/app/models/data/Video.java:163-189 | nothing equals null; with a video id, equality is decided by the video id alone; else by the playlist id; else by the channel id; else by the media item; with none of them, false |
| VideoLaws.SameIdentitySameEquality | common/src/main/java/com/liskovsoft/smartyoutubetv2/common/app/models/data/Video.java:163-194 | two videos that agree on the four identity fields are interchangeable on either side of equals and have the same hashCode |
| VideoLaws.NullSafeEqualsNeedsFirst | common/src/main/java/com/liskovsoft/smartyoutubetv2/common/app/models/data/Video.java:196-202 | the static equals is false for a null first argument, whatever the second, and is the instance equals otherwise |
| VideoLaws.EqualsIsNotSymmetric | common/src/main/java/com/liskovsoft/smartyoutubetv2/common/app/models/data/Video.java:167-177 | a playlist handle equals a video of that playlist, but not the other way round |
| VideoLaws.EqualsIsNotReflexive | common/src/main/java/com/liskovsoft/smartyoutubetv2/common/app/models/data/Video.java:163-206 | a new Video() is empty and does not equal itself |
| VideoLaws.SameVideoOtherPlaylistIsEqual | common/src/main/java/com/liskovsoft/smartyoutubetv2/common/app/models/data/Video.java:167-173 | two entries with the same video id in different playlists are equal both ways |
| VideoLaws.CopyKeepsEquality | common/src/main/java/com/liskovsoft/smartyoutubetv2/common/app/models/data/Video.java:403-409 | a copy equals its original exactly when the original has a video, playlist or channel id; the original equals its copy then too, or when its media item equals a missing one |
| VideoLaws.BelongsToAtMostOne | common/src/main/java/com/liskovsoft/smartyoutubetv2/common/app/models/data/Video.java:337-355 | at most one belongsTo* predicate holds, and none without a group |
| VideoLaws.HandlesHaveNoVideo | common/src/main/java/com/liskovsoft/smartyoutubetv2/common/app/models/data/Video.java:325-335 | channel and playlist handles are empty (no video id); a playlist handle's media item has the playlist type |
| VideoLaws.FormattedLongHasNoDelimiter | common/src/main/java/com/liskovsoft/smartyoutubetv2/common/app/models/data/Video.java:290-291 | the printed id never contains "&vi;" |
| VideoLaws.ToStringSplitsIntoRecord | common/src/main/java/com/liskovsoft/smartyoutubetv2/common/app/models/data/Video.java:266-291 | when no printed field contains "&vi;" and the last one is non-empty, splitting toString gives back exactly the ten printed fields in order |
| VideoLaws.EmptyLastTextIsDropped | common/src/main/java/com/liskovsoft/smartyoutubetv2/common/app/models/data/Video.java:266-270 | when the serialized media item prints empty, toString does not split into ten parts |
| VideoLaws.TextRoundTrip | common/src/main/java/com/liskovsoft/smartyoutubetv2/common/app/models/data/Video.java:261-291 | fromString(toString(v)) is a video with the ten record fields of v and initial values elsewhere, given helpers that restore each printed field |
| VideoLaws.EmptyMediaTextIsRejected | common/src/main/java/com/liskovsoft/smartyoutubetv2/common/app/models/data/Video.java:261-291 | fromString(toString(v)) is null when the serialized media item prints empty |
| VideoLaws.RecordReadsBack | common/src/main/java/com/liskovsoft/smartyoutubetv2/common/app/models/data/Video.java:77-85 | reading the nine positions of a written parcel record yields the long and the eight strings written there, in order |
| VideoLaws.ParcelRoundTrip | common/src/main/java/com/liskovsoft/smartyoutubetv2/common/app/models/data/Video.java:76-86 | reading back what writeToParcel wrote to a new parcel restores all nine parcel fields, whatever they hold, with initial values elsewhere |
| VideoLaws.BuilderStudioBecomesAuthor | common/src/main/java/com/liskovsoft/smartyoutubetv2/common/app/models/data/Video.java:485-497 | the builder's studio becomes the author; the fields never set stay at their initial values: id 0, and category, title, description, video id, video URL and both image URLs null |
| VideoLaws.SyncKeepsVideoEquality | common/src/main/java/com/liskovsoft/smartyoutubetv2/common/app/models/data/Video.java:357-398 | for a video with a video id, neither sync changes whether it equals another video |

## Left out

- `VideoBuilder.buildFromMediaDesc` is left out. It reads an Android `MediaDescription`, calls `Long.parseLong`, which can throw, and uses `String.valueOf`. None of that is part of this model.
- The `timestamp` field is left out: it is wall-clock time taken at construction.
- `CREATOR`, `newArray` and `describeContents` are left out. They are Parcelable plumbing with no logic.
- The builder's `mediaItem` and `mediaItemMetadata` fields are left out. This class never sets or reads them.
- `Videos.Video.HashCode` is not stated to be consistent with `equals`, because it is not. `hashCode` combines all four identity fields, while `equals` may decide on the video id alone. Only "same identity fields, same hash" is proved. `hashCodeAny` itself is a parameter.
- A `MediaItem` is modelled by value: it is the tuple of what its accessors return, with no object identity. So `MediaItem.equals` and the `hashCodeAny` of a media item are assumed to be functions of those values: two distinct items whose accessors agree cannot be told apart, where Java may compare references. In `VideoLaws.SameIdentitySameEquality`, "same media item" therefore means "same accessor values".
- Helper internals are otherwise parameters with no properties assumed, except where a round trip states what it needs:
  - `Helpers.abbreviate`, `parseStr`, `parseLong`, `equals` on strings (modelled as equality of optional strings) and `hashCodeAny`;
  - `YouTubeMediaService.serialize` and `deserializeMediaItem`;
  - `MediaItem.equals`, `getType` and `hasUploads`.
- `VideoGroup` is only as far as `Video` reads it: its media group and its video list.
- `Videos.VideoGroup.Copy`: the code of `VideoGroup.copy` is not shown. It is modelled as a fresh group with the same media group and the same list, and that is assumed, not derived.
- A non-`Video` argument to `equals` is represented by null. Both give false.
- `long` and `int` fields are unbounded integers. No value reaches the 64-bit or 32-bit limits in any operation here, since they are only copied and printed.
- `percentWatched` is a `real`. It is only copied, never computed on, so float rounding does not arise.
- String lengths count characters, while Java counts UTF-16 code units. They differ only for characters outside the Basic Multilingual Plane in the first "•" part of a description.
- A Parcel read of the wrong kind, or past the end, yields 0 or null, which is not what Android does. The round trip never does such a read.
- A null element in a group's video list (Java would throw) is not modelled: the list holds videos.
- The `NullPointerException`s of `from(null)`, `new Video(null)` and `writeToParcel(null, flags)` are not modelled: `FromItem`, `FromParcel` and `WriteToParcel` take a non-null item or parcel.
- Concurrent modification of a group's list during `findVideosByAuthor` is not modelled.
- `MediaService.OtherType` and `MediaService.OtherGroupType` carry a raw type code. Java compares the codes as `int`s, so an `OtherType` holding the code of the playlist type would be the playlist type there. The model assumes no such code occurs, and it assumes the five `MediaGroup.TYPE_*` constants are distinct; `BelongsToAtMostOne` relies on that.
