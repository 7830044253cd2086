/**
 * The backend collaborators a Video reads from, as immutable snapshots of
 * what their accessors return. Their own implementations are not part of
 * this model; the behaviour Video needs from them that is not a plain
 * accessor (MediaItem.equals, the serializer) is passed to the operations
 * that use it as a function parameter.
 */
module MediaService {
  import opened Optional

  /** MediaItem.getType(): only the playlist type is told apart. */
  datatype MediaType = TypePlaylist | OtherType(code: int)

  /** What the accessors of a MediaItem return. */
  datatype MediaItem = MediaItem(
    id: int,
    title: Option<string>,
    contentType: Option<string>,
    description: Option<string>,
    videoId: Option<string>,
    channelId: Option<string>,
    videoUrl: Option<string>,
    backgroundImageUrl: Option<string>,
    cardImageUrl: Option<string>,
    author: Option<string>,
    percentWatched: real,
    badgeText: Option<string>,
    hasNewContent: bool,
    videoPreviewUrl: Option<string>,
    playlistId: Option<string>,
    playlistIndex: int,
    isLive: bool,
    isUpcoming: bool,
    clickTrackingParams: Option<string>,
    mediaType: MediaType,
    hasUploads: bool)

  /** What the accessors of a MediaItemMetadata that Video.sync reads return. */
  datatype MediaItemMetadata = MediaItemMetadata(
    title: Option<string>,
    description: Option<string>,
    descriptionAlt: Option<string>,
    channelId: Option<string>,
    nextVideo: Option<MediaItem>,
    isLive: bool,
    isSubscribed: bool,
    isUpcoming: bool)

  /** MediaGroup.getType(): the five kinds Video asks about, and any other. */
  datatype GroupType =
    | TypeUndefined
    | TypeChannelUploads
    | TypeUserPlaylists
    | TypeSubscriptions
    | TypeHistory
    | OtherGroupType(code: int)

  datatype MediaGroup = MediaGroup(groupType: GroupType)
}
