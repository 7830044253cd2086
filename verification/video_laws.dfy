/**
 * What the Video operations promise taken together: how equals decides,
 * what copy keeps of it, that the text record and the parcel form give the
 * fields back, and that a video belongs to at most one kind of group.
 */
module VideoLaws {
  import opened Optional
  import opened JavaText
  import opened MediaService
  import opened Parcels
  import opened Videos

  /**
   * equals is decided by the first identity field set on the receiver:
   * videoId, then playlistId, then channelId, then the media item; a
   * receiver with none of them equals nothing, and nothing equals null.
   */
  lemma EqualsDecidedByFirstIdentity(itemEquals: (MediaItem, Option<MediaItem>) -> bool, a: Video, b: Video)
    ensures !a.Equals(itemEquals, null)
    ensures a.videoId.Some? ==> (a.Equals(itemEquals, b) <==> b.videoId == a.videoId)
    ensures a.videoId.None? && a.playlistId.Some? ==>
              (a.Equals(itemEquals, b) <==> b.playlistId == a.playlistId)
    ensures a.videoId.None? && a.playlistId.None? && a.channelId.Some? ==>
              (a.Equals(itemEquals, b) <==> b.channelId == a.channelId)
    ensures a.videoId.None? && a.playlistId.None? && a.channelId.None? && a.mediaItem.Some? ==>
              (a.Equals(itemEquals, b) <==> itemEquals(a.mediaItem.value, b.mediaItem))
    ensures a.videoId.None? && a.playlistId.None? && a.channelId.None? && a.mediaItem.None? ==>
              !a.Equals(itemEquals, b)
  {
  }

  /** Two videos that agree on the four identity fields are told apart by neither equals nor hashCode. */
  lemma SameIdentitySameEquality(
    itemEquals: (MediaItem, Option<MediaItem>) -> bool,
    hashCodeAny: (Option<string>, Option<string>, Option<string>, Option<MediaItem>) -> int,
    a: Video, b: Video, c: Video?)
    requires a.videoId == b.videoId && a.playlistId == b.playlistId
    requires a.channelId == b.channelId && a.mediaItem == b.mediaItem
    ensures a.Equals(itemEquals, c) == b.Equals(itemEquals, c)
    ensures c != null ==> c.Equals(itemEquals, a) == c.Equals(itemEquals, b)
    ensures a.HashCode(hashCodeAny) == b.HashCode(hashCodeAny)
  {
  }

  /** The static equals is the instance equals of a non-null first argument, and false for a null one. */
  lemma NullSafeEqualsNeedsFirst(itemEquals: (MediaItem, Option<MediaItem>) -> bool, a: Video?, b: Video?)
    ensures Video.NullSafeEquals(itemEquals, a, b) <==> a != null && a.Equals(itemEquals, b)
    ensures Video.NullSafeEquals(itemEquals, null, b) == false
  {
  }

  /**
   * equals is not symmetric: a playlist handle equals any video of that
   * playlist, but a video compares by its video id and so does not equal the
   * playlist handle.
   */
  method EqualsIsNotSymmetric(itemEquals: (MediaItem, Option<MediaItem>) -> bool)
    returns (playlist: Video, video: Video)
    ensures playlist.Equals(itemEquals, video) && !video.Equals(itemEquals, playlist)
  {
    playlist := Video.FromPlaylistVideo(None, Some("PL1"), -1);
    video := Video.FromPlaylistVideo(Some("v1"), Some("PL1"), 3);
  }

  /** equals is not reflexive: a new Video() has no identity field and equals nothing, itself included. */
  method EqualsIsNotReflexive(itemEquals: (MediaItem, Option<MediaItem>) -> bool) returns (v: Video)
    ensures !v.Equals(itemEquals, v) && Video.IsEmpty(v)
  {
    v := new Video();
  }

  /**
   * Two entries of different playlists with the same video id are equal,
   * both ways: the playlist does not take part once a video id is set.
   */
  method SameVideoOtherPlaylistIsEqual(itemEquals: (MediaItem, Option<MediaItem>) -> bool)
    returns (a: Video, b: Video)
    ensures a.playlistId != b.playlistId
    ensures a.Equals(itemEquals, b) && b.Equals(itemEquals, a)
  {
    a := Video.FromPlaylistVideo(Some("v1"), Some("PL1"), 1);
    b := Video.FromPlaylistVideo(Some("v1"), Some("PL2"), 5);
  }

  /**
   * copy() keeps equality with the original exactly when the original is
   * identified by a video, playlist or channel id: the copy drops the media
   * item, so a handle identified only by its media item no longer equals its
   * copy.
   */
  method CopyKeepsEquality(itemEquals: (MediaItem, Option<MediaItem>) -> bool, v: Video) returns (w: Video)
    ensures w.Equals(itemEquals, v) <==> v.videoId.Some? || v.playlistId.Some? || v.channelId.Some?
    ensures v.Equals(itemEquals, w) <==>
              v.videoId.Some? || v.playlistId.Some? || v.channelId.Some? ||
              (v.mediaItem.Some? && itemEquals(v.mediaItem.value, None))
  {
    w := v.Copy();
  }

  /** A video belongs to at most one of the five kinds of group it can ask about. */
  lemma BelongsToAtMostOne(v: Video)
    ensures v.BelongsToUndefined() ==>
              !v.BelongsToChannelUploads() && !v.BelongsToPlaylists() &&
              !v.BelongsToSubscriptions() && !v.BelongsToHistory()
    ensures v.BelongsToChannelUploads() ==>
              !v.BelongsToPlaylists() && !v.BelongsToSubscriptions() && !v.BelongsToHistory()
    ensures v.BelongsToPlaylists() ==> !v.BelongsToSubscriptions() && !v.BelongsToHistory()
    ensures v.BelongsToSubscriptions() ==> !v.BelongsToHistory()
    ensures v.group == null ==>
              !v.BelongsToUndefined() && !v.BelongsToChannelUploads() && !v.BelongsToPlaylists() &&
              !v.BelongsToSubscriptions() && !v.BelongsToHistory()
  {
  }

  /**
   * Channel and playlist handles carry no video id, so isEmpty holds of
   * them; a playlist handle always carries its media item.
   */
  lemma HandlesHaveNoVideo(v: Video)
    ensures v.IsChannel() || v.IsPlaylist() ==> !v.HasVideo() && Video.IsEmpty(v)
    ensures v.IsPlaylist() ==> v.mediaItem.Some? && v.mediaItem.value.mediaType == TypePlaylist
  {
  }

  /** The text `s` formats to gives `s` back through parseStr and does not contain the record delimiter. */
  predicate Restores(parseStr: string -> Option<string>, s: Option<string>) {
    parseStr(FormatStr(s)) == s && !Occurs(FormatStr(s), RecordDelim)
  }

  /**
   * What the text round trip needs of the helpers for one video: each field
   * is printed as a text without "&vi;" that parses back to it, and the
   * serialized media item is, in addition, not empty.
   */
  predicate RecordRestorable(
    v: Video,
    parseLong: string -> int,
    parseStr: string -> Option<string>,
    serialize: Option<MediaItem> -> Option<string>,
    deserialize: Option<string> -> Option<MediaItem>)
    reads v
  {
    && parseLong(FormatLong(v.id)) == v.id
    && Restores(parseStr, v.category) && Restores(parseStr, v.title)
    && Restores(parseStr, v.videoId) && Restores(parseStr, v.videoUrl)
    && Restores(parseStr, v.playlistId) && Restores(parseStr, v.channelId)
    && Restores(parseStr, v.bgImageUrl) && Restores(parseStr, v.cardImageUrl)
    && Restores(parseStr, serialize(v.mediaItem))
    && deserialize(serialize(v.mediaItem)) == v.mediaItem
    && FormatStr(serialize(v.mediaItem)) != ""
  }

  /** A printed long contains no '&', so no record delimiter. */
  lemma FormattedLongHasNoDelimiter(n: int)
    ensures !Occurs(FormatLong(n), RecordDelim)
  {
    assert RecordDelim[0] == '&';
    NoLeadCharNoOccurrence(FormatLong(n), RecordDelim);
  }

  /**
   * toString splits back into its ten texts when none of them contains
   * "&vi;" and the last one is not empty.
   */
  lemma ToStringSplitsIntoRecord(v: Video, serialize: Option<MediaItem> -> Option<string>)
    requires !Occurs(FormatStr(v.category), RecordDelim) && !Occurs(FormatStr(v.title), RecordDelim)
    requires !Occurs(FormatStr(v.videoId), RecordDelim) && !Occurs(FormatStr(v.videoUrl), RecordDelim)
    requires !Occurs(FormatStr(v.playlistId), RecordDelim) && !Occurs(FormatStr(v.channelId), RecordDelim)
    requires !Occurs(FormatStr(v.bgImageUrl), RecordDelim) && !Occurs(FormatStr(v.cardImageUrl), RecordDelim)
    requires !Occurs(FormatStr(serialize(v.mediaItem)), RecordDelim)
    requires FormatStr(serialize(v.mediaItem)) != ""
    ensures Split(v.ToString(serialize), RecordDelim) == v.TextRecord(serialize)
  {
    FormattedLongHasNoDelimiter(v.id);
    var parts := v.TextRecord(serialize);
    assert forall p :: p in parts ==> !Occurs(p, RecordDelim);
    SplitJoin(parts, RecordDelim);
  }

  /**
   * When the serialized media item prints as the empty string, toString ends
   * with "&vi;", Java's split drops the empty last text, and fromString
   * rejects the record.
   */
  lemma EmptyLastTextIsDropped(v: Video, serialize: Option<MediaItem> -> Option<string>)
    requires !Occurs(FormatStr(v.category), RecordDelim) && !Occurs(FormatStr(v.title), RecordDelim)
    requires !Occurs(FormatStr(v.videoId), RecordDelim) && !Occurs(FormatStr(v.videoUrl), RecordDelim)
    requires !Occurs(FormatStr(v.playlistId), RecordDelim) && !Occurs(FormatStr(v.channelId), RecordDelim)
    requires !Occurs(FormatStr(v.bgImageUrl), RecordDelim) && !Occurs(FormatStr(v.cardImageUrl), RecordDelim)
    requires FormatStr(serialize(v.mediaItem)) == ""
    ensures |Split(v.ToString(serialize), RecordDelim)| != 10
  {
    FormattedLongHasNoDelimiter(v.id);
    NoLeadCharNoOccurrence("", RecordDelim);
    var parts := v.TextRecord(serialize);
    assert forall p :: p in parts ==> !Occurs(p, RecordDelim);
    SplitJoinDropsEmptyLast(parts, RecordDelim);
  }

  /**
   * fromString(toString()) restores the ten fields of the text record,
   * given helpers that restore each of them.
   */
  method TextRoundTrip(
    v: Video,
    parseLong: string -> int,
    parseStr: string -> Option<string>,
    serialize: Option<MediaItem> -> Option<string>,
    deserialize: Option<string> -> Option<MediaItem>)
    returns (w: Video?)
    requires RecordRestorable(v, parseLong, parseStr, serialize, deserialize)
    ensures w != null
    ensures w.id == v.id && w.category == v.category && w.title == v.title
    ensures w.videoId == v.videoId && w.videoUrl == v.videoUrl && w.playlistId == v.playlistId
    ensures w.channelId == v.channelId && w.bgImageUrl == v.bgImageUrl
    ensures w.cardImageUrl == v.cardImageUrl && w.mediaItem == v.mediaItem
    ensures w.OnlyRecordSet()
  {
    ToStringSplitsIntoRecord(v, serialize);
    w := Video.FromString(Some(v.ToString(serialize)), parseLong, parseStr, deserialize);
  }

  /** fromString(toString()) gives nothing back when the serialized media item prints empty. */
  method EmptyMediaTextIsRejected(
    v: Video,
    parseLong: string -> int,
    parseStr: string -> Option<string>,
    serialize: Option<MediaItem> -> Option<string>,
    deserialize: Option<string> -> Option<MediaItem>)
    returns (w: Video?)
    requires !Occurs(FormatStr(v.category), RecordDelim) && !Occurs(FormatStr(v.title), RecordDelim)
    requires !Occurs(FormatStr(v.videoId), RecordDelim) && !Occurs(FormatStr(v.videoUrl), RecordDelim)
    requires !Occurs(FormatStr(v.playlistId), RecordDelim) && !Occurs(FormatStr(v.channelId), RecordDelim)
    requires !Occurs(FormatStr(v.bgImageUrl), RecordDelim) && !Occurs(FormatStr(v.cardImageUrl), RecordDelim)
    requires FormatStr(serialize(v.mediaItem)) == ""
    ensures w == null
  {
    EmptyLastTextIsDropped(v, serialize);
    w := Video.FromString(Some(v.ToString(serialize)), parseLong, parseStr, deserialize);
  }

  /**
   * Writing a video to a new parcel and reading it back with Video(Parcel)
   * restores the nine parcel fields, whatever they hold.
   */
  method ParcelRoundTrip(v: Video) returns (w: Video)
    ensures w.id == v.id && w.category == v.category && w.title == v.title
    ensures w.description == v.description && w.videoId == v.videoId && w.videoUrl == v.videoUrl
    ensures w.bgImageUrl == v.bgImageUrl && w.cardImageUrl == v.cardImageUrl
    ensures w.author == v.author
    ensures w.OnlyDetailsSet()
  {
    var parcel := new Parcel();
    v.WriteToParcel(parcel, 0);
    ghost var record := parcel.values;
    assert record == v.ParcelRecord() && parcel.readPos == 0;
    RecordReadsBack(v.id, v.category, v.title, v.description, v.bgImageUrl, v.cardImageUrl,
                    v.videoId, v.videoUrl, v.author, record);
    w := new Video.FromParcel(parcel);
    assert parcel.values == record;
  }

  /** Reading the nine parcel values position by position yields what was written, in order. */
  lemma RecordReadsBack(
    id: int, category: Option<string>, title: Option<string>, description: Option<string>,
    bgImageUrl: Option<string>, cardImageUrl: Option<string>, videoId: Option<string>,
    videoUrl: Option<string>, author: Option<string>, values: seq<ParcelValue>)
    requires values == [LongValue(id), StringValue(category), StringValue(title), StringValue(description),
                        StringValue(bgImageUrl), StringValue(cardImageUrl), StringValue(videoId),
                        StringValue(videoUrl), StringValue(author)]
    ensures LongAt(values, 0) == id && StringAt(values, 1) == category && StringAt(values, 2) == title
    ensures StringAt(values, 3) == description && StringAt(values, 4) == bgImageUrl
    ensures StringAt(values, 5) == cardImageUrl && StringAt(values, 6) == videoId
    ensures StringAt(values, 7) == videoUrl && StringAt(values, 8) == author
  {
  }

  /** build() passes the studio on as the author; fields never set stay null. */
  method BuilderStudioBecomesAuthor(studio: Option<string>) returns (v: Video)
    ensures v.author == studio && v.description == None && v.videoId == None
    ensures v.id == 0 && v.category == None && v.title == None && v.videoUrl == None
    ensures v.bgImageUrl == None && v.cardImageUrl == None
  {
    var b := new VideoBuilder();
    b := b.SetStudio(studio);
    v := b.Build();
  }

  /**
   * sync(Video) then sync(metadata) leaves the identity that equals reads
   * unchanged for a video with a video id: equality with any other video is
   * the same before and after.
   */
  method SyncKeepsVideoEquality(
    itemEquals: (MediaItem, Option<MediaItem>) -> bool,
    v: Video, other: Video, progress: Video?, metadata: Option<MediaItemMetadata>)
    returns (before: bool, after: bool)
    requires v.videoId.Some?
    modifies v`percentWatched, v`title, v`description, v`channelId, v`nextMediaItem
    modifies v`isLive, v`isSubscribed, v`isUpcoming, v`isSynced
    ensures before == after
  {
    before := v.Equals(itemEquals, other);
    v.SyncProgress(progress);
    v.SyncMetadata(metadata);
    after := v.Equals(itemEquals, other);
  }
}
