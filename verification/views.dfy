/**
 * The typed views over nodes, one per container of the Matroska/WebM schema
 * the reader exposes. A view only wraps a node; its getters read the node's
 * direct children through the combinators of `Access`, so a getter's meaning
 * is the combinator's contract at the listed ID and payload reading.
 */
module Views {
  import opened Wrappers
  import opened Codec
  import opened Errors
  import opened Registry
  import opened Tree
  import opened Access
  import opened Schema

  /** A view of the EBML header. */
  datatype EbmlHeaderNode = EbmlHeaderNode(node: Node) {
    function Version(): (r: Result<nat, Error>) { MandatoryData(node.children, IdEbmlVersion, UintOf) }

    function ReadVersion(): (r: Result<nat, Error>) { MandatoryData(node.children, IdEbmlReadVersion, UintOf) }

    function MaxIdLength(): (r: Result<nat, Error>) { MandatoryData(node.children, IdEbmlMaxIDLength, UintOf) }

    function MaxSizeLength(): (r: Result<nat, Error>) { MandatoryData(node.children, IdEbmlMaxSizeLength, UintOf) }

    function DocType(): (r: Result<string, Error>) { MandatoryData(node.children, IdDocType, TextOf) }

    function DocTypeVersion(): (r: Result<nat, Error>) { MandatoryData(node.children, IdDocTypeVersion, UintOf) }

    function DocTypeReadVersion(): (r: Result<nat, Error>) { MandatoryData(node.children, IdDocTypeReadVersion, UintOf) }
  }

  /** A view of the Segment, the document's root. */
  datatype SegmentNode = SegmentNode(node: Node) {
    function SeekHeads(): (r: seq<SeekHeadNode>)
    {
      var found := FilterAll(node.children, IdSeekHead);
      seq(|found|, i requires 0 <= i < |found| => SeekHeadNode(found[i]))
    }

    function Infos(): (r: seq<InfoNode>)
    {
      var found := FilterAll(node.children, IdInfo);
      seq(|found|, i requires 0 <= i < |found| => InfoNode(found[i]))
    }

    function Clusters(): (r: seq<ClusterNode>)
    {
      var found := FilterAll(node.children, IdCluster);
      seq(|found|, i requires 0 <= i < |found| => ClusterNode(found[i]))
    }

    function Tracks(): (r: seq<TracksNode>)
    {
      var found := FilterAll(node.children, IdTracks);
      seq(|found|, i requires 0 <= i < |found| => TracksNode(found[i]))
    }

    function Cues(): (r: seq<CuesNode>)
    {
      var found := FilterAll(node.children, IdCues);
      seq(|found|, i requires 0 <= i < |found| => CuesNode(found[i]))
    }

    function Chapters(): (r: seq<ChaptersNode>)
    {
      var found := FilterAll(node.children, IdChapters);
      seq(|found|, i requires 0 <= i < |found| => ChaptersNode(found[i]))
    }

    function Tags(): (r: seq<TagsNode>)
    {
      var found := FilterAll(node.children, IdTags);
      seq(|found|, i requires 0 <= i < |found| => TagsNode(found[i]))
    }
  }

  /** A view of a SeekHead. */
  datatype SeekHeadNode = SeekHeadNode(node: Node) {
    function Seeks(): (r: seq<SeekNode>)
    {
      var found := FilterAll(node.children, IdSeek);
      seq(|found|, i requires 0 <= i < |found| => SeekNode(found[i]))
    }
  }

  /** A view of a Seek entry. */
  datatype SeekNode = SeekNode(node: Node) {
    function SeekId(): (r: Result<seq<Byte>, Error>) { MandatoryData(node.children, IdSeekId, BytesOf) }

    function SeekPosition(): (r: Result<nat, Error>) { MandatoryData(node.children, IdSeekPosition, UintOf) }
  }

  /** A view of a segment Info. */
  datatype InfoNode = InfoNode(node: Node) {
    function TimestampScale(): (r: Result<nat, Error>) { MandatoryData(node.children, IdTimestampScale, UintOf) }

    function Duration(): (r: Result<Option<FloatBits>, Error>) { OptionalData(node.children, IdDuration, FloatOf) }

    function DateCreated(): (r: Result<Option<int>, Error>) { OptionalData(node.children, IdDateUtc, IntOf) }

    function MuxingApp(): (r: Result<string, Error>) { MandatoryData(node.children, IdMuxingApp, TextOf) }

    function WritingApp(): (r: Result<string, Error>) { MandatoryData(node.children, IdWritingApp, TextOf) }
  }

  /** A view of a Cluster. */
  datatype ClusterNode = ClusterNode(node: Node) {
    function Timestamp(): (r: Result<nat, Error>) { MandatoryData(node.children, IdTimestamp, UintOf) }

    function PrevSize(): (r: Result<Option<nat>, Error>) { OptionalData(node.children, IdPrevSize, UintOf) }

    function SimpleBlocks(): (r: seq<Node>) { FilterAll(node.children, IdSimpleBlock) }

    function BlockGroups(): (r: seq<BlockGroupNode>)
    {
      var found := FilterAll(node.children, IdBlockGroup);
      seq(|found|, i requires 0 <= i < |found| => BlockGroupNode(found[i]))
    }
  }

  /** A view of a BlockGroup. */
  datatype BlockGroupNode = BlockGroupNode(node: Node) {
    function BlockDuration(): (r: Result<Option<nat>, Error>) { OptionalData(node.children, IdBlockDuration, UintOf) }

    function ReferenceBlocks(): (r: Result<seq<int>, Error>) { RepeatedData(node.children, IdReferenceBlock, IntOf) }

    function DiscardPadding(): (r: Result<Option<int>, Error>) { OptionalData(node.children, IdDiscardPadding, IntOf) }

    function Slices(): (r: Option<SlicesNode>)
    {
      match FindFirst(node.children, IdSlices)
      case None => None
      case Some(n) => Some(SlicesNode(n))
    }
  }

  /** A view of a Slices element. */
  datatype SlicesNode = SlicesNode(node: Node)

  /** A view of the Tracks list. */
  datatype TracksNode = TracksNode(node: Node) {
    function TrackEntries(): (r: seq<TrackEntryNode>)
    {
      var found := FilterAll(node.children, IdTrackEntry);
      seq(|found|, i requires 0 <= i < |found| => TrackEntryNode(found[i]))
    }
  }

  /** A view of a TrackEntry. */
  datatype TrackEntryNode = TrackEntryNode(node: Node) {
    function TrackNumber(): (r: Result<nat, Error>) { MandatoryData(node.children, IdTrackNumber, UintOf) }

    function TrackUid(): (r: Result<nat, Error>) { MandatoryData(node.children, IdTrackUid, UintOf) }

    function TrackType(): (r: Result<nat, Error>) { MandatoryData(node.children, IdTrackType, UintOf) }

    function IsEnabled(): (r: Result<bool, Error>) { MandatoryData(node.children, IdFlagEnabled, BoolOf) }

    function IsDefault(): (r: Result<bool, Error>) { MandatoryData(node.children, IdFlagDefault, BoolOf) }

    function IsForced(): (r: Result<bool, Error>) { MandatoryData(node.children, IdFlagForced, BoolOf) }

    function IsLaced(): (r: Result<bool, Error>) { MandatoryData(node.children, IdFlagLacing, BoolOf) }

    function DefaultDuration(): (r: Result<Option<nat>, Error>) { OptionalData(node.children, IdDefaultDuration, UintOf) }

    function Name(): (r: Result<Option<string>, Error>) { OptionalData(node.children, IdName, TextOf) }

    function Language(): (r: Result<Option<string>, Error>) { OptionalData(node.children, IdLanguage, TextOf) }

    function CodecId(): (r: Result<string, Error>) { MandatoryData(node.children, IdCodecId, TextOf) }

    function CodecPrivate(): (r: Result<Option<seq<Byte>>, Error>) { OptionalData(node.children, IdCodecPrivate, BytesOf) }

    function CodecName(): (r: Result<Option<string>, Error>) { OptionalData(node.children, IdCodecName, TextOf) }

    function CodecDelay(): (r: Result<Option<nat>, Error>) { OptionalData(node.children, IdCodecDelay, UintOf) }

    function SeekPreRoll(): (r: Result<nat, Error>) { MandatoryData(node.children, IdSeekPreRoll, UintOf) }

    function VideoSettings(): (r: Option<VideoNode>)
    {
      match FindFirst(node.children, IdVideo)
      case None => None
      case Some(n) => Some(VideoNode(n))
    }

    function AudioSettings(): (r: Option<AudioNode>)
    {
      match FindFirst(node.children, IdAudio)
      case None => None
      case Some(n) => Some(AudioNode(n))
    }

    function EncodingSettings(): (r: Option<ContentEncodingsNode>)
    {
      match FindFirst(node.children, IdContentEncodings)
      case None => None
      case Some(n) => Some(ContentEncodingsNode(n))
    }
  }

  /** A view of a track's Video settings. */
  datatype VideoNode = VideoNode(node: Node) {
    function InterlacingFlag(): (r: Result<nat, Error>) { MandatoryData(node.children, IdFlagInterlaced, UintOf) }

    function StereoMode(): (r: Result<Option<nat>, Error>) { OptionalData(node.children, IdStereoMode, UintOf) }

    function AlphaMode(): (r: Result<Option<nat>, Error>) { OptionalData(node.children, IdAlphaMode, UintOf) }

    function PixelWidth(): (r: Result<nat, Error>) { MandatoryData(node.children, IdPixelWidth, UintOf) }

    function PixelHeight(): (r: Result<nat, Error>) { MandatoryData(node.children, IdPixelHeight, UintOf) }

    function PixelCropBottom(): (r: Result<Option<nat>, Error>) { OptionalData(node.children, IdPixelCropBottom, UintOf) }

    function PixelCropTop(): (r: Result<Option<nat>, Error>) { OptionalData(node.children, IdPixelCropTop, UintOf) }

    function PixelCropLeft(): (r: Result<Option<nat>, Error>) { OptionalData(node.children, IdPixelCropLeft, UintOf) }

    function PixelCropRight(): (r: Result<Option<nat>, Error>) { OptionalData(node.children, IdPixelCropRight, UintOf) }

    function DisplayWidth(): (r: Result<Option<nat>, Error>) { OptionalData(node.children, IdDisplayWidth, UintOf) }

    function DisplayHeight(): (r: Result<Option<nat>, Error>) { OptionalData(node.children, IdDisplayHeight, UintOf) }

    function DisplayUnit(): (r: Result<Option<nat>, Error>) { OptionalData(node.children, IdDisplayUnit, UintOf) }

    function AspectRatioType(): (r: Result<Option<nat>, Error>) { OptionalData(node.children, IdAspectRatioType, UintOf) }
  }

  /** A view of a video Projection. */
  datatype ProjectionNode = ProjectionNode(node: Node) {
    function ProjectionType(): (r: Result<nat, Error>) { MandatoryData(node.children, IdProjectionType, UintOf) }

    function ProjectionPrivate(): (r: Result<Option<seq<Byte>>, Error>) { OptionalData(node.children, IdProjectionPrivate, BytesOf) }

    function PoseYaw(): (r: Result<FloatBits, Error>) { MandatoryData(node.children, IdProjectionPoseYaw, FloatOf) }

    function PosePitch(): (r: Result<FloatBits, Error>) { MandatoryData(node.children, IdProjectionPosePitch, FloatOf) }

    function PoseRoll(): (r: Result<FloatBits, Error>) { MandatoryData(node.children, IdProjectionPoseRoll, FloatOf) }
  }

  /** A view of a track's Audio settings. */
  datatype AudioNode = AudioNode(node: Node) {
    function SamplingFrequency(): (r: Result<FloatBits, Error>) { MandatoryData(node.children, IdSamplingFrequency, FloatOf) }

    function OutputSamplingFrequency(): (r: Result<Option<FloatBits>, Error>) { OptionalData(node.children, IdOutputSamplingFrequency, FloatOf) }

    function NumChannels(): (r: Result<nat, Error>) { MandatoryData(node.children, IdChannels, UintOf) }

    function BitDepth(): (r: Result<Option<nat>, Error>) { OptionalData(node.children, IdBitDepth, UintOf) }
  }

  /** A view of a track's ContentEncodings. */
  datatype ContentEncodingsNode = ContentEncodingsNode(node: Node) {
    function Encodings(): (r: seq<ContentEncodingNode>)
    {
      var found := FilterAll(node.children, IdContentEncoding);
      seq(|found|, i requires 0 <= i < |found| => ContentEncodingNode(found[i]))
    }
  }

  /** A view of a ContentEncoding. */
  datatype ContentEncodingNode = ContentEncodingNode(node: Node) {
    function Order(): (r: Result<nat, Error>) { MandatoryData(node.children, IdContentEncodingOrder, UintOf) }

    function Scope(): (r: Result<nat, Error>) { MandatoryData(node.children, IdContentEncodingScope, UintOf) }

    function EncodingType(): (r: Result<nat, Error>) { MandatoryData(node.children, IdContentEncodingType, UintOf) }

    function EncryptionNode(): (r: Result<ContentEncryptionNode, Error>)
    {
      var n :- MandatoryNode(node.children, IdContentEncryption);
      Success(ContentEncryptionNode(n))
    }
  }

  /** A view of a ContentEncryption. */
  datatype ContentEncryptionNode = ContentEncryptionNode(node: Node) {
    function AlgorithmType(): (r: Result<nat, Error>) { MandatoryData(node.children, IdContentEncAlgo, UintOf) }

    function KeyId(): (r: Result<Option<seq<Byte>>, Error>) { OptionalData(node.children, IdContentEncKeyId, BytesOf) }

    function AesSettings(): (r: Option<ContentEncAesSettingsNode>)
    {
      match FindFirst(node.children, IdContentEncAesSettings)
      case None => None
      case Some(n) => Some(ContentEncAesSettingsNode(n))
    }
  }

  /** A view of the AES settings of an encryption. */
  datatype ContentEncAesSettingsNode = ContentEncAesSettingsNode(node: Node) {
    function Mode(): (r: Result<nat, Error>) { MandatoryData(node.children, IdAesSettingsCipherMode, UintOf) }
  }

  /** A view of the Cues index. */
  datatype CuesNode = CuesNode(node: Node) {
    function CuePoints(): (r: seq<CuePointNode>)
    {
      var found := FilterAll(node.children, IdCuePoint);
      seq(|found|, i requires 0 <= i < |found| => CuePointNode(found[i]))
    }
  }

  /** A view of a CuePoint. */
  datatype CuePointNode = CuePointNode(node: Node) {
    function Time(): (r: Result<nat, Error>) { MandatoryData(node.children, IdCueTime, UintOf) }

    function Positions(): (r: seq<CueTrackPositionsNode>)
    {
      var found := FilterAll(node.children, IdCueTrackPositions);
      seq(|found|, i requires 0 <= i < |found| => CueTrackPositionsNode(found[i]))
    }
  }

  /** A view of a CueTrackPositions entry. */
  datatype CueTrackPositionsNode = CueTrackPositionsNode(node: Node) {
    function Track(): (r: Result<nat, Error>) { MandatoryData(node.children, IdCueTrack, UintOf) }

    function ClusterPosition(): (r: Result<nat, Error>) { MandatoryData(node.children, IdCueClusterPosition, UintOf) }

    function BlockNumber(): (r: Result<Option<nat>, Error>) { OptionalData(node.children, IdCueBlockNumber, UintOf) }
  }

  /** A view of the Chapters list. */
  datatype ChaptersNode = ChaptersNode(node: Node) {
    function EditionEntries(): (r: seq<EditionEntryNode>)
    {
      var found := FilterAll(node.children, IdEditionEntry);
      seq(|found|, i requires 0 <= i < |found| => EditionEntryNode(found[i]))
    }
  }

  /** A view of an EditionEntry. */
  datatype EditionEntryNode = EditionEntryNode(node: Node) {
    function ChapterAtoms(): (r: seq<ChapterAtomNode>)
    {
      var found := FilterAll(node.children, IdChapterAtom);
      seq(|found|, i requires 0 <= i < |found| => ChapterAtomNode(found[i]))
    }
  }

  /** A view of a ChapterAtom. */
  datatype ChapterAtomNode = ChapterAtomNode(node: Node) {
    function Uid(): (r: Result<nat, Error>) { MandatoryData(node.children, IdChapterUid, UintOf) }

    function StringUid(): (r: Result<Option<string>, Error>) { OptionalData(node.children, IdChapterStringUid, TextOf) }

    function StartTime(): (r: Result<nat, Error>) { MandatoryData(node.children, IdChapterTimeStart, UintOf) }

    function Displays(): (r: seq<ChapterDisplayNode>)
    {
      var found := FilterAll(node.children, IdChapterDisplay);
      seq(|found|, i requires 0 <= i < |found| => ChapterDisplayNode(found[i]))
    }
  }

  /** A view of a ChapterDisplay. */
  datatype ChapterDisplayNode = ChapterDisplayNode(node: Node) {
    function DisplayString(): (r: Result<string, Error>) { MandatoryData(node.children, IdChapString, TextOf) }

    function Languages(): (r: Result<seq<string>, Error>) { RepeatedData(node.children, IdChapLanguage, TextOf) }
  }

  /** A view of the Tags list. */
  datatype TagsNode = TagsNode(node: Node) {
    function TagList(): (r: seq<TagNode>)
    {
      var found := FilterAll(node.children, IdTag);
      seq(|found|, i requires 0 <= i < |found| => TagNode(found[i]))
    }
  }

  /** A view of a Tag. */
  datatype TagNode = TagNode(node: Node) {
    function Targets(): (r: Result<TargetsNode, Error>)
    {
      var n :- MandatoryNode(node.children, IdTargets);
      Success(TargetsNode(n))
    }
  }

  /** A view of a Tag's Targets. */
  datatype TargetsNode = TargetsNode(node: Node) {
    function TypeValue(): (r: Result<Option<nat>, Error>) { OptionalData(node.children, IdTargetTypeValue, UintOf) }

    function TargetType(): (r: Result<Option<string>, Error>) { OptionalData(node.children, IdTargetType, TextOf) }

    function TrackUids(): (r: Result<seq<nat>, Error>) { RepeatedData(node.children, IdTagTrackUid, UintOf) }
  }

  /** A view of a SimpleTag. */
  datatype SimpleTagNode = SimpleTagNode(node: Node) {
    function TagName(): (r: Result<string, Error>) { MandatoryData(node.children, IdTagName, TextOf) }

    function TagLanguage(): (r: Result<string, Error>) { MandatoryData(node.children, IdTagLanguage, TextOf) }

    function TagDefault(): (r: Result<nat, Error>) { MandatoryData(node.children, IdTagDefault, UintOf) }

    function TagString(): (r: Result<Option<string>, Error>) { OptionalData(node.children, IdTagString, TextOf) }

    function TagBinary(): (r: Result<Option<seq<Byte>>, Error>) { OptionalData(node.children, IdTagBinary, BytesOf) }
  }

  /**
   * The containers the kind table leaves out are read as Unknown, so in a tree
   * the reader builds they have no children and their list getters see nothing.
   */
  lemma UnlistedEncodingViews(n: Node)
    requires WellKinded(KindOf, n)
    ensures n.element.id == IdContentEncodings ==> ContentEncodingsNode(n).Encodings() == []
  {
    UnlistedEncodings();
  }

  /** Chapters and their editions and atoms likewise list nothing. */
  lemma UnlistedChapterViews(n: Node)
    requires WellKinded(KindOf, n)
    ensures n.element.id == IdChapters ==> ChaptersNode(n).EditionEntries() == []
    ensures n.element.id == IdEditionEntry ==> EditionEntryNode(n).ChapterAtoms() == []
    ensures n.element.id == IdChapterAtom ==> ChapterAtomNode(n).Displays() == []
  {
    UnlistedChapters();
  }

  /** Tags list nothing, and a Tag's mandatory Targets is always reported missing. */
  lemma UnlistedTagViews(n: Node)
    requires WellKinded(KindOf, n)
    ensures n.element.id == IdTags ==> TagsNode(n).TagList() == []
    ensures n.element.id == IdTag ==> TagNode(n).Targets() == Failure(MissingField(IdTargets))
  {
    UnlistedTags();
  }

  /** The EBML header's fields are its first direct child with each ID; DocType must be present. */
  lemma HeaderView(n: Node)
    ensures (forall i :: 0 <= i < |n.children| ==> n.children[i].element.id != IdDocType)
              ==> EbmlHeaderNode(n).DocType() == Failure(MissingField(IdDocType))
    ensures forall i: nat :: IsFirst(n.children, IdDocType, i)
              ==> EbmlHeaderNode(n).DocType() == TextOf(n.children[i].element.data)
    ensures forall i: nat :: IsFirst(n.children, IdEbmlVersion, i)
              ==> EbmlHeaderNode(n).Version() == Success(BytesToUint(n.children[i].element.data))
  {
  }

  /** A Segment lists its Clusters in document order: the Clusters of two runs of children are those of the first run, then those of the second. */
  lemma SegmentClustersInOrder(e: Element, a: seq<Node>, b: seq<Node>)
    ensures SegmentNode(Node(e, a + b)).Clusters()
            == SegmentNode(Node(e, a)).Clusters() + SegmentNode(Node(e, b)).Clusters()
    ensures forall c :: c in SegmentNode(Node(e, a)).Clusters() ==> c.node in a && c.node.element.id == IdCluster
  {
    FilterAppend(a, b, IdCluster);
    var fa, fb := FilterAll(a, IdCluster), FilterAll(b, IdCluster);
    var whole := SegmentNode(Node(e, a + b)).Clusters();
    var left, right := SegmentNode(Node(e, a)).Clusters(), SegmentNode(Node(e, b)).Clusters();
    assert |whole| == |left| + |right|;
    forall i | 0 <= i < |whole|
      ensures whole[i] == (left + right)[i]
    {
      if i < |left| {
        assert (fa + fb)[i] == fa[i];
      } else {
        assert (fa + fb)[i] == fb[i - |left|];
      }
    }
    forall c | c in left
      ensures c.node in a && c.node.element.id == IdCluster
    {
      var i :| 0 <= i < |left| && left[i] == c;
      assert fa[i] in fa;
    }
  }

  /** Info: Duration is optional, and the creation date reads as long as its payload is not empty. */
  lemma InfoView(n: Node)
    ensures (forall i :: 0 <= i < |n.children| ==> n.children[i].element.id != IdDuration)
              ==> InfoNode(n).Duration() == Success(None)
    ensures forall i: nat :: IsFirst(n.children, IdDateUtc, i)
              ==> (InfoNode(n).DateCreated().Failure? <==> |n.children[i].element.data| == 0)
    ensures forall i: nat :: IsFirst(n.children, IdDateUtc, i) && |n.children[i].element.data| > 0
              ==> InfoNode(n).DateCreated() == Success(Some(BytesToInt(n.children[i].element.data).value))
  {
  }

  /** TrackEntry: a flag is true exactly when the first flag child's signed value is 1, and a missing flag is an error. */
  lemma TrackEntryView(n: Node)
    ensures forall i: nat :: IsFirst(n.children, IdFlagEnabled, i)
              ==> (TrackEntryNode(n).IsEnabled() == Success(true) <==> BytesToInt(n.children[i].element.data) == Some(1))
    ensures (forall i :: 0 <= i < |n.children| ==> n.children[i].element.id != IdFlagEnabled)
              ==> TrackEntryNode(n).IsEnabled() == Failure(MissingField(IdFlagEnabled))
    ensures (forall i :: 0 <= i < |n.children| ==> n.children[i].element.id != IdName)
              ==> TrackEntryNode(n).Name() == Success(None)
    ensures (TrackEntryNode(n).VideoSettings().Some?
             <==> exists i :: 0 <= i < |n.children| && n.children[i].element.id == IdVideo)
  {
  }

  /** Video: the pixel width is mandatory and unsigned, the stereo mode optional. */
  lemma VideoView(n: Node)
    ensures (forall i :: 0 <= i < |n.children| ==> n.children[i].element.id != IdPixelWidth)
              ==> VideoNode(n).PixelWidth() == Failure(MissingField(IdPixelWidth))
    ensures forall i: nat :: IsFirst(n.children, IdPixelWidth, i)
              ==> VideoNode(n).PixelWidth() == Success(BytesToUint(n.children[i].element.data))
    ensures (forall i :: 0 <= i < |n.children| ==> n.children[i].element.id != IdStereoMode)
              ==> VideoNode(n).StereoMode() == Success(None)
  {
  }
}
