/**
 * The Video handle of the media-browsing UI: a video, a channel or a
 * playlist, with its identity, its text and parcel forms, its in-place merges
 * with fresher data, and the ways of building one.
 */
module Videos {
  import opened Optional
  import opened JavaText
  import opened MediaService
  import opened Parcels
  import Authors
  import opened Sequences

  /** The delimiter between the fields of the text record. */
  const RecordDelim: string := "&vi;"

  /** The extracted author of each video, in order. */
  function ExtractedAuthors(videos: seq<Video>, abbreviate: (string, int) -> string): (r: seq<Option<string>>)
    reads videos
    ensures |r| == |videos|
  {
    if videos == [] then []
    else ExtractedAuthors(videos[..|videos| - 1], abbreviate) + [videos[|videos| - 1].ExtractAuthor(abbreviate)]
  }

  /** The extracted author at position `i` is that of the video at position `i`. */
  lemma {:induction false} ExtractedAuthorAt(videos: seq<Video>, abbreviate: (string, int) -> string, i: nat)
    requires i < |videos|
    ensures ExtractedAuthors(videos, abbreviate)[i] == videos[i].ExtractAuthor(abbreviate)
    decreases |videos|
  {
    var init := videos[..|videos| - 1];
    if i < |init| {
      ExtractedAuthorAt(init, abbreviate, i);
      assert videos[i] == init[i];
    }
  }

  /** The videos whose extracted author equals `author` (two nulls are equal), as the loop of findVideosByAuthor collects them. */
  function VideosByAuthor(videos: seq<Video>, author: Option<string>, abbreviate: (string, int) -> string)
    : (r: seq<Video>)
    reads videos
    ensures |r| <= |videos|
  {
    Select(videos, ExtractedAuthors(videos, abbreviate), author)
  }

  /**
   * VideosByAuthor keeps exactly the videos whose extracted author equals
   * `author`, each as often as it occurs, and nothing else, in the order of
   * `videos`.
   */
  lemma VideosByAuthorSelects(videos: seq<Video>, author: Option<string>, abbreviate: (string, int) -> string)
    ensures var r := VideosByAuthor(videos, author, abbreviate);
      && Subsequence(r, videos)
      && (forall v :: v in r ==> v in videos && v.ExtractAuthor(abbreviate) == author)
      && (forall v :: v in videos && v.ExtractAuthor(abbreviate) == author ==>
            multiset(r)[v] == multiset(videos)[v])
  {
    var keys := ExtractedAuthors(videos, abbreviate);
    forall i | 0 <= i < |videos|
      ensures keys[i] == videos[i].ExtractAuthor(abbreviate)
    {
      ExtractedAuthorAt(videos, abbreviate, i);
    }
    SelectKeepsMatches(videos, keys, author);
  }

  class Video {
    var id: int
    var title: Option<string>
    var category: Option<string>
    var description: Option<string>
    var channelId: Option<string>
    var videoId: Option<string>
    var videoUrl: Option<string>
    var playlistId: Option<string>
    var playlistIndex: int
    var bgImageUrl: Option<string>
    var cardImageUrl: Option<string>
    var author: Option<string>
    var badge: Option<string>
    var previewUrl: Option<string>
    var percentWatched: real
    var mediaItem: Option<MediaItem>
    var nextMediaItem: Option<MediaItem>
    var group: VideoGroup?
    var hasNewContent: bool
    var isLive: bool
    var isUpcoming: bool
    var isSubscribed: bool
    var isRemote: bool
    var groupPosition: int
    var clickTrackingParams: Option<string>
    var isSynced: bool

    /**
     * The fields that only the UI and sync set are at their initial values:
     * no next item, not subscribed, not remote, no group position, not synced.
     */
    predicate SyncStateAtDefault()
      reads this`nextMediaItem, this`isSubscribed, this`isRemote, this`groupPosition, this`isSynced
    {
      nextMediaItem == None && !isSubscribed && !isRemote && groupPosition == -1 && !isSynced
    }

    /** The fields that only a MediaItem supplies are at their initial values. */
    predicate ItemExtrasAtDefault()
      reads this`badge, this`previewUrl, this`hasNewContent, this`isLive, this`isUpcoming
      reads this`clickTrackingParams
    {
      badge == None && previewUrl == None && !hasNewContent && !isLive && !isUpcoming &&
      clickTrackingParams == None
    }

    /** Every field but the nine of the parcel form is at its initial value. */
    predicate OnlyDetailsSet()
      reads this
    {
      channelId == None && playlistId == None && playlistIndex == 0 && percentWatched == -1.0 &&
      mediaItem == None && group == null && ItemExtrasAtDefault() && SyncStateAtDefault()
    }

    /** Every field but the ten of the text record is at its initial value. */
    predicate OnlyRecordSet()
      reads this
    {
      description == None && playlistIndex == 0 && author == None && percentWatched == -1.0 &&
      group == null && ItemExtrasAtDefault() && SyncStateAtDefault()
    }

    /**
     * Every field but the seven identity and progress fields of from(...) and
     * the group reference is at its initial value.
     */
    predicate OnlyIdentitySet()
      reads this`id, this`category, this`videoUrl, this`bgImageUrl, this`cardImageUrl, this`author
      reads this`mediaItem, this`badge, this`previewUrl, this`hasNewContent, this`isLive
      reads this`isUpcoming, this`clickTrackingParams
      reads this`nextMediaItem, this`isSubscribed, this`isRemote, this`groupPosition, this`isSynced
    {
      id == 0 && category == None && videoUrl == None && bgImageUrl == None && cardImageUrl == None &&
      author == None && mediaItem == None && ItemExtrasAtDefault() && SyncStateAtDefault()
    }

    /** Video(): every reference null, every number 0 and every flag false, except percentWatched and groupPosition, which start at -1. */
    constructor ()
      ensures OnlyIdentitySet() && group == null
      ensures videoId == None && playlistId == None && playlistIndex == 0 && channelId == None
      ensures title == None && description == None && percentWatched == -1.0
    {
      id, title, category, description := 0, None, None, None;
      channelId, videoId, videoUrl := None, None, None;
      playlistId, playlistIndex := None, 0;
      bgImageUrl, cardImageUrl, author, badge, previewUrl := None, None, None, None, None;
      percentWatched := -1.0;
      mediaItem, nextMediaItem, group := None, None, null;
      hasNewContent, isLive, isUpcoming, isSubscribed, isRemote := false, false, false, false, false;
      groupPosition, clickTrackingParams, isSynced := -1, None, false;
    }

    /** The private nine-argument constructor the builder uses. */
    constructor Create(
      id: int, category: Option<string>, title: Option<string>, desc: Option<string>,
      videoId: Option<string>, videoUrl: Option<string>, bgImageUrl: Option<string>,
      cardImageUrl: Option<string>, author: Option<string>)
      ensures this.id == id && this.category == category && this.title == title
      ensures this.description == desc && this.videoId == videoId && this.videoUrl == videoUrl
      ensures this.bgImageUrl == bgImageUrl && this.cardImageUrl == cardImageUrl
      ensures this.author == author
      ensures OnlyDetailsSet()
    {
      this.id, this.category, this.title, this.description := id, category, title, desc;
      this.videoId, this.videoUrl := videoId, videoUrl;
      this.bgImageUrl, this.cardImageUrl, this.author := bgImageUrl, cardImageUrl, author;
      channelId, playlistId, playlistIndex := None, None, 0;
      badge, previewUrl := None, None;
      percentWatched := -1.0;
      mediaItem, nextMediaItem, group := None, None, null;
      hasNewContent, isLive, isUpcoming, isSubscribed, isRemote := false, false, false, false, false;
      groupPosition, clickTrackingParams, isSynced := -1, None, false;
    }

    /** The nine reads of Video(Parcel), in the order writeToParcel writes them. */
    static method ReadDetails(source: Parcel)
      returns (id: int, category: Option<string>, title: Option<string>, description: Option<string>,
               bgImageUrl: Option<string>, cardImageUrl: Option<string>, videoId: Option<string>,
               videoUrl: Option<string>, author: Option<string>)
      modifies source`readPos
      ensures var values, p := source.values, old(source.readPos);
        && id == LongAt(values, p)
        && category == StringAt(values, p + 1)
        && title == StringAt(values, p + 2)
        && description == StringAt(values, p + 3)
        && bgImageUrl == StringAt(values, p + 4)
        && cardImageUrl == StringAt(values, p + 5)
        && videoId == StringAt(values, p + 6)
        && videoUrl == StringAt(values, p + 7)
        && author == StringAt(values, p + 8)
      ensures source.readPos == old(source.readPos) + 9
    {
      id := source.ReadLong();
      category := source.ReadString();
      title := source.ReadString();
      description := source.ReadString();
      bgImageUrl := source.ReadString();
      cardImageUrl := source.ReadString();
      videoId := source.ReadString();
      videoUrl := source.ReadString();
      author := source.ReadString();
    }

    /** Video(Parcel): reads the nine values writeToParcel writes, in the same order. */
    constructor FromParcel(source: Parcel)
      modifies source`readPos
      ensures var values, p := source.values, old(source.readPos);
        && id == LongAt(values, p)
        && category == StringAt(values, p + 1)
        && title == StringAt(values, p + 2)
        && description == StringAt(values, p + 3)
        && bgImageUrl == StringAt(values, p + 4)
        && cardImageUrl == StringAt(values, p + 5)
        && videoId == StringAt(values, p + 6)
        && videoUrl == StringAt(values, p + 7)
        && author == StringAt(values, p + 8)
      ensures source.readPos == old(source.readPos) + 9
      ensures OnlyDetailsSet()
    {
      var id, category, title, description, bgImageUrl, cardImageUrl, videoId, videoUrl, author
        := ReadDetails(source);
      this.id, this.category, this.title, this.description := id, category, title, description;
      this.bgImageUrl, this.cardImageUrl := bgImageUrl, cardImageUrl;
      this.videoId, this.videoUrl, this.author := videoId, videoUrl, author;
      channelId, playlistId, playlistIndex := None, None, 0;
      badge, previewUrl := None, None;
      percentWatched := -1.0;
      mediaItem, nextMediaItem, group := None, None, null;
      hasNewContent, isLive, isUpcoming, isSubscribed, isRemote := false, false, false, false, false;
      groupPosition, clickTrackingParams, isSynced := -1, None, false;
    }

    /** from(MediaItem): copies the item's scalar fields and keeps the item itself. */
    constructor FromItem(item: MediaItem)
      ensures id == item.id && title == item.title && category == item.contentType
      ensures description == item.description && videoId == item.videoId
      ensures channelId == item.channelId && videoUrl == item.videoUrl
      ensures bgImageUrl == item.backgroundImageUrl && cardImageUrl == item.cardImageUrl
      ensures author == item.author && percentWatched == item.percentWatched
      ensures badge == item.badgeText && hasNewContent == item.hasNewContent
      ensures previewUrl == item.videoPreviewUrl && playlistId == item.playlistId
      ensures playlistIndex == item.playlistIndex && isLive == item.isLive
      ensures isUpcoming == item.isUpcoming && clickTrackingParams == item.clickTrackingParams
      ensures mediaItem == Some(item)
      ensures group == null && SyncStateAtDefault()
    {
      id := item.id;
      title := item.title;
      category := item.contentType;
      description := item.description;
      videoId := item.videoId;
      channelId := item.channelId;
      videoUrl := item.videoUrl;
      bgImageUrl := item.backgroundImageUrl;
      cardImageUrl := item.cardImageUrl;
      author := item.author;
      percentWatched := item.percentWatched;
      badge := item.badgeText;
      hasNewContent := item.hasNewContent;
      previewUrl := item.videoPreviewUrl;
      playlistId := item.playlistId;
      playlistIndex := item.playlistIndex;
      isLive := item.isLive;
      isUpcoming := item.isUpcoming;
      clickTrackingParams := item.clickTrackingParams;
      mediaItem := Some(item);
      nextMediaItem, group, isSubscribed, isRemote := None, null, false, false;
      groupPosition, isSynced := -1, false;
    }

    /** from(String videoId): no playlist, playlist index -1. */
    static method FromVideoId(videoId: Option<string>) returns (v: Video)
      ensures fresh(v)
      ensures v.videoId == videoId && v.playlistIndex == -1 && !v.IsPlaylistItem()
      ensures v.playlistId == None && v.channelId == None && v.title == None && v.description == None
      ensures v.percentWatched == -1.0 && v.OnlyIdentitySet() && v.group == null
    {
      v := FromPlaylistVideo(videoId, None, -1);
    }

    /** from(String videoId, String playlistId, int playlistIndex). */
    static method FromPlaylistVideo(videoId: Option<string>, playlistId: Option<string>, playlistIndex: int)
      returns (v: Video)
      ensures fresh(v)
      ensures v.videoId == videoId && v.playlistId == playlistId && v.playlistIndex == playlistIndex
      ensures v.channelId == None && v.title == None && v.description == None
      ensures v.percentWatched == -1.0 && v.OnlyIdentitySet() && v.group == null
    {
      v := new Video.FromIds(videoId, playlistId, playlistIndex, None, None, None, -1.0);
    }

    /** The seven-argument from(...): identity and progress only. */
    constructor FromIds(
      videoId: Option<string>, playlistId: Option<string>, playlistIndex: int,
      channelId: Option<string>, title: Option<string>, description: Option<string>,
      percentWatched: real)
      ensures this.videoId == videoId && this.playlistId == playlistId
      ensures this.playlistIndex == playlistIndex && this.channelId == channelId
      ensures this.title == title && this.description == description
      ensures this.percentWatched == percentWatched
      ensures OnlyIdentitySet() && group == null
    {
      this.videoId, this.playlistId, this.playlistIndex := videoId, playlistId, playlistIndex;
      this.channelId, this.title, this.description := channelId, title, description;
      this.percentWatched := percentWatched;
      id, category, videoUrl := 0, None, None;
      bgImageUrl, cardImageUrl, author, badge, previewUrl := None, None, None, None, None;
      mediaItem, nextMediaItem, group := None, None, null;
      hasNewContent, isLive, isUpcoming, isSubscribed, isRemote := false, false, false, false, false;
      groupPosition, clickTrackingParams, isSynced := -1, None, false;
    }

    /** The ten fields of the text record, in its order; every other field at its initial value. */
    constructor FromRecord(
      id: int, category: Option<string>, title: Option<string>, videoId: Option<string>,
      videoUrl: Option<string>, playlistId: Option<string>, channelId: Option<string>,
      bgImageUrl: Option<string>, cardImageUrl: Option<string>, mediaItem: Option<MediaItem>)
      ensures this.id == id && this.category == category && this.title == title
      ensures this.videoId == videoId && this.videoUrl == videoUrl && this.playlistId == playlistId
      ensures this.channelId == channelId && this.bgImageUrl == bgImageUrl
      ensures this.cardImageUrl == cardImageUrl && this.mediaItem == mediaItem
      ensures OnlyRecordSet()
    {
      this.id, this.category, this.title, this.videoId := id, category, title, videoId;
      this.videoUrl, this.playlistId, this.channelId := videoUrl, playlistId, channelId;
      this.bgImageUrl, this.cardImageUrl, this.mediaItem := bgImageUrl, cardImageUrl, mediaItem;
      description, playlistIndex, author, badge, previewUrl := None, 0, None, None, None;
      percentWatched, nextMediaItem, group := -1.0, None, null;
      hasNewContent, isLive, isUpcoming, isSubscribed, isRemote := false, false, false, false, false;
      groupPosition, clickTrackingParams, isSynced := -1, None, false;
    }

    /**
     * equals(Object): decided by the first of videoId, playlistId, channelId
     * and mediaItem that is set on this side, compared with the same field of
     * `obj`. A null `obj` stands for null and for any object that is not a
     * Video; both give false.
     */
    predicate Equals(itemEquals: (MediaItem, Option<MediaItem>) -> bool, obj: Video?)
      reads this, obj
      ensures Equals(itemEquals, obj) ==>
                obj != null && (videoId.Some? || playlistId.Some? || channelId.Some? || mediaItem.Some?)
    {
      obj != null &&
      if videoId.Some? then obj.videoId == videoId
      else if playlistId.Some? then obj.playlistId == playlistId
      else if channelId.Some? then obj.channelId == channelId
      else if mediaItem.Some? then itemEquals(mediaItem.value, obj.mediaItem)
      else false
    }

    /** hashCode(): a combination of the four identity fields. */
    function HashCode(hashCodeAny: (Option<string>, Option<string>, Option<string>, Option<MediaItem>) -> int)
      : int
      reads this
    {
      hashCodeAny(videoId, playlistId, channelId, mediaItem)
    }

    /** The static equals(Video, Video): false whenever the first is null. */
    static predicate NullSafeEquals(itemEquals: (MediaItem, Option<MediaItem>) -> bool, a: Video?, b: Video?)
      reads a, b
      ensures NullSafeEquals(itemEquals, a, b) ==> a != null && b != null
    {
      a != null && a.Equals(itemEquals, b)
    }

    static predicate IsEmpty(v: Video?)
      reads v
    {
      v == null || v.videoId.None?
    }

    /**
     * extractAuthor(): the text Authors.AuthorText chooses, trimmed and
     * abbreviated to 20 characters; null when there is neither an author
     * nor a description.
     */
    function ExtractAuthor(abbreviate: (string, int) -> string): (r: Option<string>)
      reads this
      ensures r.None? <==> author.None? && description.None?
      ensures description.Some? && !Occurs(description.value, Authors.TertiaryTextDelim) ==>
                r == Some(abbreviate(Trim(description.value), Authors.MaxAuthorLengthChars))
      ensures description.None? && author.Some? ==>
                r == Some(abbreviate(Trim(author.value), Authors.MaxAuthorLengthChars))
      ensures r.Some? ==>
                && Authors.AuthorText(author, description).Some?
                && r == Some(abbreviate(Trim(Authors.AuthorText(author, description).value), Authors.MaxAuthorLengthChars))
    {
      match Authors.AuthorText(author, description)
      case None => None
      case Some(text) => Some(abbreviate(Trim(text), Authors.MaxAuthorLengthChars))
    }

    /**
     * findVideosByAuthor: the videos of the group whose extracted author
     * equals `author`, in the group's order; empty for a null group or a
     * group without a list.
     */
    static method FindVideosByAuthor(group: VideoGroup?, author: Option<string>, abbreviate: (string, int) -> string)
      returns (result: seq<Video>)
      ensures group == null || group.videos.None? ==> result == []
      ensures group != null && group.videos.Some? ==>
                result == VideosByAuthor(group.videos.value, author, abbreviate)
    {
      result := [];
      if group != null && group.videos.Some? {
        var videos := group.videos.value;
        var i := 0;
        while i < |videos|
          invariant 0 <= i <= |videos|
          invariant result == VideosByAuthor(videos[..i], author, abbreviate)
        {
          var video := videos[i];
          assert videos[..i + 1][..i] == videos[..i];
          if video.ExtractAuthor(abbreviate) == author {
            result := result + [video];
          }
          i := i + 1;
        }
        assert videos[..|videos|] == videos;
      }
    }

    /** The values writeToParcel writes, in its order. */
    function ParcelRecord(): (r: seq<ParcelValue>)
      reads this
      ensures |r| == 9 && r[0] == LongValue(id)
      ensures forall k :: 1 <= k < |r| ==> r[k].StringValue?
    {
      [LongValue(id), StringValue(category), StringValue(title), StringValue(description),
       StringValue(bgImageUrl), StringValue(cardImageUrl), StringValue(videoId),
       StringValue(videoUrl), StringValue(author)]
    }

    /** writeToParcel: appends the nine parcel fields; `flags` is ignored. */
    method WriteToParcel(dest: Parcel, flags: int)
      modifies dest`values
      ensures dest.values == old(dest.values) + ParcelRecord()
    {
      dest.WriteLong(id);
      dest.WriteString(category);
      dest.WriteString(title);
      dest.WriteString(description);
      dest.WriteString(bgImageUrl);
      dest.WriteString(cardImageUrl);
      dest.WriteString(videoId);
      dest.WriteString(videoUrl);
      dest.WriteString(author);
    }

    /** The ten texts toString formats, in its order; the media item through the service's serializer. */
    function TextRecord(serialize: Option<MediaItem> -> Option<string>): (r: seq<string>)
      reads this
      ensures |r| == 10
      ensures r[9] == "" <==> serialize(mediaItem) == Some("")
    {
      [FormatLong(id), FormatStr(category), FormatStr(title), FormatStr(videoId),
       FormatStr(videoUrl), FormatStr(playlistId), FormatStr(channelId),
       FormatStr(bgImageUrl), FormatStr(cardImageUrl), FormatStr(serialize(mediaItem))]
    }

    /** toString(): the ten texts joined by "&vi;". */
    function ToString(serialize: Option<MediaItem> -> Option<string>): (r: string)
      reads this
      ensures FormatLong(id) + RecordDelim <= r
    {
      Join(TextRecord(serialize), RecordDelim)
    }

    /**
     * fromString: null for a null input or one that does not split on "&vi;"
     * into exactly ten parts; otherwise a new Video whose ten record fields
     * are parsed from the parts in order and whose other fields keep their
     * initial values.
     */
    static method FromString(
      spec: Option<string>,
      parseLong: string -> int,
      parseStr: string -> Option<string>,
      deserialize: Option<string> -> Option<MediaItem>)
      returns (v: Video?)
      ensures v == null <==> spec.None? || |Split(spec.value, RecordDelim)| != 10
      ensures v != null ==> fresh(v) && v.OnlyRecordSet()
      ensures v != null ==>
                var parts := Split(spec.value, RecordDelim);
                && v.id == parseLong(parts[0])
                && v.category == parseStr(parts[1])
                && v.title == parseStr(parts[2])
                && v.videoId == parseStr(parts[3])
                && v.videoUrl == parseStr(parts[4])
                && v.playlistId == parseStr(parts[5])
                && v.channelId == parseStr(parts[6])
                && v.bgImageUrl == parseStr(parts[7])
                && v.cardImageUrl == parseStr(parts[8])
                && v.mediaItem == deserialize(parseStr(parts[9]))
    {
      if spec.None? {
        return null;
      }
      var split := Split(spec.value, RecordDelim);
      if |split| != 10 {
        return null;
      }
      v := new Video.FromRecord(
        parseLong(split[0]), parseStr(split[1]), parseStr(split[2]), parseStr(split[3]),
        parseStr(split[4]), parseStr(split[5]), parseStr(split[6]), parseStr(split[7]),
        parseStr(split[8]), deserialize(parseStr(split[9])));
    }

    predicate HasVideo()
      reads this
      ensures HasVideo() <==> !IsEmpty(this)
    {
      videoId.Some?
    }

    predicate HasChannel()
      reads this
    {
      channelId.Some?
    }

    predicate HasPlaylist()
      reads this
    {
      playlistId.Some?
    }

    /** hasUploads(): only an attached media item can say so. */
    predicate HasUploads()
      reads this
      ensures HasUploads() ==> mediaItem.Some?
    {
      mediaItem.Some? && mediaItem.value.hasUploads
    }

    /** isChannel(): a channel handle is one with a channel and no video. */
    predicate IsChannel()
      reads this
      ensures IsChannel() <==> HasChannel() && !HasVideo()
    {
      videoId.None? && channelId.Some?
    }

    predicate IsPlaylistItem()
      reads this
    {
      playlistIndex > 0
    }

    /** isPlaylist(): no video, and an attached media item of playlist type. */
    predicate IsPlaylist()
      reads this
      ensures IsPlaylist() ==> !HasVideo() && mediaItem.Some?
    {
      videoId.None? && mediaItem.Some? && mediaItem.value.mediaType == TypePlaylist
    }

    /** The type of the media group of the containing group, when both are known. */
    function MediaGroupType(): (r: Option<GroupType>)
      reads this, group
      ensures r.Some? ==> group != null
    {
      if group != null && group.mediaGroup.Some? then Some(group.mediaGroup.value.groupType) else None
    }

    predicate BelongsToUndefined()
      reads this, group
      ensures BelongsToUndefined() ==> group != null && group.mediaGroup.Some?
    {
      MediaGroupType() == Some(TypeUndefined)
    }

    predicate BelongsToChannelUploads()
      reads this, group
      ensures BelongsToChannelUploads() ==> group != null && group.mediaGroup.Some?
    {
      MediaGroupType() == Some(TypeChannelUploads)
    }

    predicate BelongsToPlaylists()
      reads this, group
      ensures BelongsToPlaylists() ==> group != null && group.mediaGroup.Some?
    {
      MediaGroupType() == Some(TypeUserPlaylists)
    }

    predicate BelongsToSubscriptions()
      reads this, group
      ensures BelongsToSubscriptions() ==> group != null && group.mediaGroup.Some?
    {
      MediaGroupType() == Some(TypeSubscriptions)
    }

    predicate BelongsToHistory()
      reads this, group
      ensures BelongsToHistory() ==> group != null && group.mediaGroup.Some?
    {
      MediaGroupType() == Some(TypeHistory)
    }

    /** sync(Video): takes the other video's watch progress; nothing for null. */
    method SyncProgress(video: Video?)
      modifies this`percentWatched
      ensures percentWatched == if video == null then old(percentWatched) else old(video.percentWatched)
    {
      if video == null {
        return;
      }
      percentWatched := video.percentWatched;
    }

    /** sync(MediaItemMetadata): the primary description variant. */
    method SyncMetadata(metadata: Option<MediaItemMetadata>)
      modifies this`title, this`description, this`channelId, this`nextMediaItem
      modifies this`isLive, this`isSubscribed, this`isUpcoming, this`isSynced
      ensures SyncedBy(metadata, false)
    {
      SyncMetadataVariant(metadata, false);
    }

    /**
     * The state sync(metadata, useAltDesc) leaves, given the state before.
     * With null metadata nothing changes. Otherwise the title is replaced
     * only by a present title; the description only when the item is not
     * upcoming and the chosen variant is present; channelId, nextMediaItem,
     * isLive, isSubscribed and isUpcoming are always replaced, absent
     * values included; and isSynced becomes true.
     */
    twostate predicate SyncedBy(metadata: Option<MediaItemMetadata>, useAltDesc: bool)
      reads this
    {
      match metadata
      case None =>
        && title == old(title) && description == old(description)
        && channelId == old(channelId) && nextMediaItem == old(nextMediaItem)
        && isLive == old(isLive) && isSubscribed == old(isSubscribed)
        && isUpcoming == old(isUpcoming) && isSynced == old(isSynced)
      case Some(m) =>
        var newDescription := if m.isUpcoming then None
                              else if useAltDesc then m.descriptionAlt else m.description;
        && title == (if m.title.Some? then m.title else old(title))
        && description == (if newDescription.Some? then newDescription else old(description))
        && channelId == m.channelId && nextMediaItem == m.nextVideo
        && isLive == m.isLive && isSubscribed == m.isSubscribed && isUpcoming == m.isUpcoming
        && isSynced
    }

    /** sync(MediaItemMetadata, boolean useAltDesc); every field outside the frame is left as it was. */
    method SyncMetadataVariant(metadata: Option<MediaItemMetadata>, useAltDesc: bool)
      modifies this`title, this`description, this`channelId, this`nextMediaItem
      modifies this`isLive, this`isSubscribed, this`isUpcoming, this`isSynced
      ensures SyncedBy(metadata, useAltDesc)
    {
      if metadata.None? {
        return;
      }
      var m := metadata.value;
      var newTitle := m.title;
      if newTitle.Some? {
        title := newTitle;
      }
      var newDescription := None;
      if !m.isUpcoming {
        newDescription := if useAltDesc then m.descriptionAlt else m.description;
      }
      if newDescription.Some? {
        description := newDescription;
      }
      channelId := m.channelId;
      nextMediaItem := m.nextVideo;
      isLive := m.isLive;
      isSubscribed := m.isSubscribed;
      isUpcoming := m.isUpcoming;
      isSynced := true;
    }

    /**
     * copy(): a new Video with the identity and progress fields of this one
     * and, when this one has a group, a copy of the group; every other field
     * at its initial value.
     */
    method Copy() returns (v: Video)
      ensures fresh(v)
      ensures v.videoId == videoId && v.playlistId == playlistId && v.playlistIndex == playlistIndex
      ensures v.channelId == channelId && v.title == title && v.description == description
      ensures v.percentWatched == percentWatched
      ensures (v.group == null) == (group == null)
      ensures v.group != null ==> fresh(v.group) && v.group.mediaGroup == group.mediaGroup
      ensures v.OnlyIdentitySet()
    {
      var groupCopy: VideoGroup? := null;
      if group != null {
        groupCopy := group.Copy();
      }
      v := new Video.FromIds(videoId, playlistId, playlistIndex, channelId, title, description, percentWatched);
      v.group := groupCopy;
    }
  }

  /** The VideoGroup a Video came from, as far as Video reads it. */
  class VideoGroup {
    var mediaGroup: Option<MediaGroup>
    var videos: Option<seq<Video>>

    constructor (mediaGroup: Option<MediaGroup>, videos: Option<seq<Video>>)
      ensures this.mediaGroup == mediaGroup && this.videos == videos
    {
      this.mediaGroup := mediaGroup;
      this.videos := videos;
    }

    /** A new group for the same media group. */
    method Copy() returns (g: VideoGroup)
      ensures fresh(g) && g.mediaGroup == mediaGroup
    {
      g := new VideoGroup(mediaGroup, videos);
    }
  }

  /** VideoBuilder: collects nine fields and passes them to the nine-argument constructor. */
  class VideoBuilder {
    var id: int
    var category: Option<string>
    var title: Option<string>
    var desc: Option<string>
    var bgImageUrl: Option<string>
    var cardImageUrl: Option<string>
    var videoId: Option<string>
    var videoUrl: Option<string>
    var studio: Option<string>

    constructor ()
      ensures id == 0 && category == None && title == None && desc == None
      ensures bgImageUrl == None && cardImageUrl == None && videoId == None
      ensures videoUrl == None && studio == None
    {
      id, category, title, desc := 0, None, None, None;
      bgImageUrl, cardImageUrl, videoId, videoUrl, studio := None, None, None, None, None;
    }

    method SetId(id: int) returns (b: VideoBuilder)
      modifies this`id
      ensures this.id == id && b == this
    {
      this.id := id;
      b := this;
    }

    method SetCategory(category: Option<string>) returns (b: VideoBuilder)
      modifies this`category
      ensures this.category == category && b == this
    {
      this.category := category;
      b := this;
    }

    method SetTitle(title: Option<string>) returns (b: VideoBuilder)
      modifies this`title
      ensures this.title == title && b == this
    {
      this.title := title;
      b := this;
    }

    method SetDescription(desc: Option<string>) returns (b: VideoBuilder)
      modifies this`desc
      ensures this.desc == desc && b == this
    {
      this.desc := desc;
      b := this;
    }

    method SetVideoId(videoId: Option<string>) returns (b: VideoBuilder)
      modifies this`videoId
      ensures this.videoId == videoId && b == this
    {
      this.videoId := videoId;
      b := this;
    }

    method SetVideoUrl(videoUrl: Option<string>) returns (b: VideoBuilder)
      modifies this`videoUrl
      ensures this.videoUrl == videoUrl && b == this
    {
      this.videoUrl := videoUrl;
      b := this;
    }

    method SetBgImageUrl(bgImageUrl: Option<string>) returns (b: VideoBuilder)
      modifies this`bgImageUrl
      ensures this.bgImageUrl == bgImageUrl && b == this
    {
      this.bgImageUrl := bgImageUrl;
      b := this;
    }

    method SetCardImageUrl(cardImageUrl: Option<string>) returns (b: VideoBuilder)
      modifies this`cardImageUrl
      ensures this.cardImageUrl == cardImageUrl && b == this
    {
      this.cardImageUrl := cardImageUrl;
      b := this;
    }

    method SetStudio(studio: Option<string>) returns (b: VideoBuilder)
      modifies this`studio
      ensures this.studio == studio && b == this
    {
      this.studio := studio;
      b := this;
    }

    /** build(): a new Video from the nine fields; the studio becomes the author. */
    method Build() returns (v: Video)
      ensures fresh(v)
      ensures v.id == id && v.category == category && v.title == title && v.description == desc
      ensures v.videoId == videoId && v.videoUrl == videoUrl
      ensures v.bgImageUrl == bgImageUrl && v.cardImageUrl == cardImageUrl
      ensures v.author == studio
      ensures v.OnlyDetailsSet()
    {
      v := new Video.Create(id, category, title, desc, videoId, videoUrl, bgImageUrl, cardImageUrl, studio);
    }
  }
}
