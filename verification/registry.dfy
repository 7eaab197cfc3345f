/**
 * The static element registry: the named ID constants, the 4-byte magic number
 * and the table of (ID, diagnostic name) pairs with its first-match lookup.
 */
module Registry {
  import opened Wrappers
  import opened Codec

  /** The first four bytes of every accepted input: the EBML header ID, written out. */
  const Magic: seq<Byte> := [0x1a, 0x45, 0xdf, 0xa3]

  const IdEbmlHeader: nat := 0x1a45dfa3
  const IdSegment: nat := 0x18538067
  const IdSeekHead: nat := 0x114d9b74
  const IdSeek: nat := 0x4dbb
  const IdInfo: nat := 0x1549a966
  const IdCluster: nat := 0x1f43b675
  const IdBlockGroup: nat := 0xa0
  const IdSlices: nat := 0x8e
  const IdTracks: nat := 0x1654ae6b
  const IdTrackEntry: nat := 0xae
  const IdVideo: nat := 0xe0
  const IdAudio: nat := 0xe1
  const IdContentEncodings: nat := 0x6d80
  const IdContentEncoding: nat := 0x6240
  const IdContentEncryption: nat := 0x5035
  const IdContentEncAesSettings: nat := 0x47e7
  const IdCues: nat := 0x1c53bb6b
  const IdCuePoint: nat := 0xbb
  const IdCueTrackPositions: nat := 0xb7
  const IdChapters: nat := 0x1043a770
  const IdEditionEntry: nat := 0x45b9
  const IdChapterAtom: nat := 0xb6
  const IdChapterDisplay: nat := 0x80
  const IdTags: nat := 0x1254c367
  const IdTag: nat := 0x7373
  const IdTargets: nat := 0x63c0
  const IdSimpleTag: nat := 0x67c8
  const IdEbmlVersion: nat := 0x4286
  const IdEbmlReadVersion: nat := 0x42f7
  const IdEbmlMaxIDLength: nat := 0x42f2
  const IdEbmlMaxSizeLength: nat := 0x42f3
  const IdDocType: nat := 0x4282
  const IdDocTypeVersion: nat := 0x4287
  const IdDocTypeReadVersion: nat := 0x4285
  const IdCrc32: nat := 0xbf
  const IdVoid: nat := 0xec
  const IdSignatureSlot: nat := 0x1b538667
  const IdSignatureAlgo: nat := 0x7e8a
  const IdSignatureHash: nat := 0x7e9a
  const IdSignaturePublicKey: nat := 0x7ea5
  const IdSignature: nat := 0x7eb5
  const IdSignatureElements: nat := 0x7e5b
  const IdSignatureElementList: nat := 0x7e7b
  const IdSignedElement: nat := 0x6532
  const IdSeekId: nat := 0x53ab
  const IdSeekPosition: nat := 0x53ac
  const IdTimestampScale: nat := 0x2ad7b1
  const IdDuration: nat := 0x4489
  const IdDateUtc: nat := 0x4461
  const IdMuxingApp: nat := 0x4d80
  const IdWritingApp: nat := 0x5741
  const IdTimestamp: nat := 0xe7
  const IdPrevSize: nat := 0xab
  const IdSimpleBlock: nat := 0xa3
  const IdBlock: nat := 0xa1
  const IdBlockDuration: nat := 0x9b
  const IdReferenceBlock: nat := 0xfb
  const IdDiscardPadding: nat := 0x75a2
  const IdLaceNumber: nat := 0xcc
  const IdTrackNumber: nat := 0xd7
  const IdTrackUid: nat := 0x73c5
  const IdTrackType: nat := 0x83
  const IdFlagEnabled: nat := 0xb9
  const IdFlagDefault: nat := 0x88
  const IdFlagForced: nat := 0x55aa
  const IdFlagLacing: nat := 0x9c
  const IdDefaultDuration: nat := 0x23e383
  const IdName: nat := 0x536e
  const IdLanguage: nat := 0x22b59c
  const IdCodecId: nat := 0x86
  const IdCodecPrivate: nat := 0x63a2
  const IdCodecName: nat := 0x258688
  const IdCodecDelay: nat := 0x56aa
  const IdSeekPreRoll: nat := 0x56bb
  const IdFlagInterlaced: nat := 0x9a
  const IdStereoMode: nat := 0x53b8
  const IdAlphaMode: nat := 0x53c0
  const IdPixelWidth: nat := 0xb0
  const IdPixelHeight: nat := 0xba
  const IdPixelCropBottom: nat := 0x54aa
  const IdPixelCropTop: nat := 0x54bb
  const IdPixelCropLeft: nat := 0x54cc
  const IdPixelCropRight: nat := 0x54dd
  const IdDisplayWidth: nat := 0x54b0
  const IdDisplayHeight: nat := 0x54ba
  const IdDisplayUnit: nat := 0x54b2
  const IdAspectRatioType: nat := 0x54b3
  const IdProjectionType: nat := 0x7671
  const IdProjectionPrivate: nat := 0x7672
  const IdProjectionPoseYaw: nat := 0x7673
  const IdProjectionPosePitch: nat := 0x7674
  const IdProjectionPoseRoll: nat := 0x7675
  const IdSamplingFrequency: nat := 0xb5
  const IdOutputSamplingFrequency: nat := 0x78b5
  const IdChannels: nat := 0x9f
  const IdBitDepth: nat := 0x6264
  const IdContentEncodingOrder: nat := 0x5031
  const IdContentEncodingScope: nat := 0x5032
  const IdContentEncodingType: nat := 0x5033
  const IdContentEncAlgo: nat := 0x47e1
  const IdContentEncKeyId: nat := 0x47e2
  const IdAesSettingsCipherMode: nat := 0x47e8
  const IdCueTime: nat := 0xb3
  const IdCueTrack: nat := 0xf7
  const IdCueClusterPosition: nat := 0xf1
  const IdCueBlockNumber: nat := 0x5378
  const IdChapterUid: nat := 0x73c4
  const IdChapterStringUid: nat := 0x5654
  const IdChapterTimeStart: nat := 0x91
  const IdChapString: nat := 0x85
  const IdChapLanguage: nat := 0x437c
  const IdTargetTypeValue: nat := 0x68ca
  const IdTargetType: nat := 0x63ca
  const IdTagTrackUid: nat := 0x63c5
  const IdTagName: nat := 0x45a3
  const IdTagLanguage: nat := 0x447a
  const IdTagDefault: nat := 0x4484
  const IdTagString: nat := 0x4487
  const IdTagBinary: nat := 0x4485
  const IdTrackTimestampScale: nat := 0x23314f
  const IdPosition: nat := 0xa7
  const IdSegmentUid: nat := 0x73a4

  /** One registry entry: an element ID and the name shown for it in diagnostics. */
  datatype NodeInfo = NodeInfo(id: nat, name: string)

  /**
   * The registry in table order; lookups return the first entry with the
   * queried ID. The table is written in consecutive groups, in source order.
   */
  const NodeInfos: seq<NodeInfo> :=
    MasterInfos + HeaderInfos + ClusterInfos + TrackInfos + MediaInfos + MetadataInfos

  /** Container elements. */
  const MasterInfos: seq<NodeInfo> := [
    NodeInfo(IdEbmlHeader, "EBMLHeaderNode"),
    NodeInfo(IdSegment, "SegmentNode"),
    NodeInfo(IdSeekHead, "SeekHeadNode"),
    NodeInfo(IdSeek, "SeekNode"),
    NodeInfo(IdInfo, "InfoNode"),
    NodeInfo(IdCluster, "ClusterNode"),
    NodeInfo(IdBlockGroup, "BlockGroupNode"),
    NodeInfo(IdSlices, "SlicesNode"),
    NodeInfo(IdTracks, "TracksNode"),
    NodeInfo(IdTrackEntry, "TrackEntryNode"),
    NodeInfo(IdVideo, "VideoNode"),
    NodeInfo(IdAudio, "AudioNode"),
    NodeInfo(IdContentEncodings, "ContentEncodingsNode"),
    NodeInfo(IdContentEncoding, "ContentEncodingNode"),
    NodeInfo(IdContentEncryption, "ContentEncryptionNode"),
    NodeInfo(IdContentEncAesSettings, "ContentEncAESSettingsNode"),
    NodeInfo(IdCues, "CuesNode"),
    NodeInfo(IdCuePoint, "CuePointNode"),
    NodeInfo(IdCueTrackPositions, "CueTrackPositionsNode"),
    NodeInfo(IdChapters, "ChaptersNode"),
    NodeInfo(IdEditionEntry, "EditionEntryNode"),
    NodeInfo(IdChapterAtom, "ChapterAtomNode"),
    NodeInfo(IdChapterDisplay, "ChapterDisplayNode"),
    NodeInfo(IdTags, "TagsNode"),
    NodeInfo(IdTag, "TagNode"),
    NodeInfo(IdTargets, "TargetsNode"),
    NodeInfo(IdSimpleTag, "SimpleTagNode")
  ]

  /** EBML header, CRC-32, Void and signature elements. */
  const HeaderInfos: seq<NodeInfo> := [
    NodeInfo(IdEbmlVersion, "EBMLVersion"),
    NodeInfo(IdEbmlReadVersion, "EBMLReadVersion"),
    NodeInfo(IdEbmlMaxIDLength, "EBMLMaxIDLength"),
    NodeInfo(IdEbmlMaxSizeLength, "EBMLMaxSizeLength"),
    NodeInfo(IdDocType, "DocType"),
    NodeInfo(IdDocTypeVersion, "DocTypeVersion"),
    NodeInfo(IdDocTypeReadVersion, "DocTypeReadVersion"),
    NodeInfo(IdCrc32, "CRC-32"),
    NodeInfo(IdVoid, "Void"),
    NodeInfo(IdSignatureSlot, "SignatureSlot"),
    NodeInfo(IdSignatureAlgo, "SignatureAlgo"),
    NodeInfo(IdSignatureHash, "SignatureHash"),
    NodeInfo(IdSignaturePublicKey, "SignaturePublicKey"),
    NodeInfo(IdSignature, "Signature"),
    NodeInfo(IdSignatureElements, "SignatureElements"),
    NodeInfo(IdSignatureElementList, "SignatureElementList"),
    NodeInfo(IdSignedElement, "SignedElement")
  ]

  /** Children of Seek, Info, Cluster and BlockGroup. */
  const ClusterInfos: seq<NodeInfo> := [
    NodeInfo(IdSeekId, "SeekID"),
    NodeInfo(IdSeekPosition, "SeekPosition"),
    NodeInfo(IdTimestampScale, "TimestampScale"),
    NodeInfo(IdDuration, "Duration"),
    NodeInfo(IdDateUtc, "DateUTC"),
    NodeInfo(IdMuxingApp, "MuxingApp"),
    NodeInfo(IdWritingApp, "WritingApp"),
    NodeInfo(IdTimestamp, "Timestamp"),
    NodeInfo(IdPrevSize, "PrevSize"),
    NodeInfo(IdSimpleBlock, "SimpleBlock"),
    NodeInfo(IdBlock, "Block"),
    NodeInfo(IdBlockDuration, "BlockDuration"),
    NodeInfo(IdReferenceBlock, "ReferenceBlock"),
    NodeInfo(IdDiscardPadding, "DiscardPadding"),
    NodeInfo(IdLaceNumber, "LaceNumber")
  ]

  /** Children of TrackEntry. */
  const TrackInfos: seq<NodeInfo> := [
    NodeInfo(IdTrackNumber, "TrackNumber"),
    NodeInfo(IdTrackUid, "TrackUID"),
    NodeInfo(IdTrackType, "TrackType"),
    NodeInfo(IdFlagEnabled, "FlagEnabled"),
    NodeInfo(IdFlagDefault, "FlagDefault"),
    NodeInfo(IdFlagForced, "FlagForced"),
    NodeInfo(IdFlagLacing, "FlagLacing"),
    NodeInfo(IdDefaultDuration, "DefaultDuration"),
    NodeInfo(IdName, "Name"),
    NodeInfo(IdLanguage, "Language"),
    NodeInfo(IdCodecId, "CodecID"),
    NodeInfo(IdCodecPrivate, "CodecPrivate"),
    NodeInfo(IdCodecName, "CodecName"),
    NodeInfo(IdCodecDelay, "CodecDelay"),
    NodeInfo(IdSeekPreRoll, "SeekPreRoll")
  ]

  /** Children of Video, Projection and Audio. */
  const MediaInfos: seq<NodeInfo> := [
    NodeInfo(IdFlagInterlaced, "FlagInterlaced"),
    NodeInfo(IdStereoMode, "StereoMode"),
    NodeInfo(IdAlphaMode, "AlphaMode"),
    NodeInfo(IdPixelWidth, "PixelWidth"),
    NodeInfo(IdPixelHeight, "PixelHeight"),
    NodeInfo(IdPixelCropBottom, "PixelCropBottom"),
    NodeInfo(IdPixelCropTop, "PixelCropTop"),
    NodeInfo(IdPixelCropLeft, "PixelCropLeft"),
    NodeInfo(IdPixelCropRight, "PixelCropRight"),
    NodeInfo(IdDisplayWidth, "DisplayWidth"),
    NodeInfo(IdDisplayHeight, "DisplayHeight"),
    NodeInfo(IdDisplayUnit, "DisplayUnit"),
    NodeInfo(IdAspectRatioType, "AspectRatioType"),
    NodeInfo(IdProjectionType, "ProjectionType"),
    NodeInfo(IdProjectionPrivate, "ProjectionPrivate"),
    NodeInfo(IdProjectionPoseYaw, "ProjectionPoseYaw"),
    NodeInfo(IdProjectionPosePitch, "ProjectionPosePitch"),
    NodeInfo(IdProjectionPoseRoll, "ProjectionPoseRoll"),
    NodeInfo(IdSamplingFrequency, "SamplingFrequency"),
    NodeInfo(IdOutputSamplingFrequency, "OutputSamplingFrequency"),
    NodeInfo(IdChannels, "Channels"),
    NodeInfo(IdBitDepth, "BitDepth")
  ]

  /** Content encoding, cue, chapter and tag children, and three more. */
  const MetadataInfos: seq<NodeInfo> := [
    NodeInfo(IdContentEncodingOrder, "ContentEncodingOrder"),
    NodeInfo(IdContentEncodingScope, "ContentEncodingScope"),
    NodeInfo(IdContentEncodingType, "ContentEncodingType"),
    NodeInfo(IdContentEncAlgo, "ContentEncAlgo"),
    NodeInfo(IdContentEncKeyId, "ContentEncKeyID"),
    NodeInfo(IdAesSettingsCipherMode, "AESSettingsCipherMode"),
    NodeInfo(IdCueTime, "CueTime"),
    NodeInfo(IdCueTrack, "CueTrack"),
    NodeInfo(IdCueClusterPosition, "CueClusterPosition"),
    NodeInfo(IdCueBlockNumber, "CueBlockNumber"),
    NodeInfo(IdChapterUid, "ChapterUID"),
    NodeInfo(IdChapterStringUid, "ChapterStringUID"),
    NodeInfo(IdChapterTimeStart, "ChapterTimeStart"),
    NodeInfo(IdChapString, "ChapString"),
    NodeInfo(IdChapLanguage, "ChapLanguage"),
    NodeInfo(IdTargetTypeValue, "TargetTypeValue"),
    NodeInfo(IdTargetType, "TargetType"),
    NodeInfo(IdTagTrackUid, "TagTrackUID"),
    NodeInfo(IdTagName, "TagName"),
    NodeInfo(IdTagLanguage, "TagLanguage"),
    NodeInfo(IdTagDefault, "TagDefault"),
    NodeInfo(IdTagString, "TagString"),
    NodeInfo(IdTagBinary, "TagBinary"),
    NodeInfo(IdTrackTimestampScale, "TrackTimestampScale"),
    NodeInfo(IdPosition, "Position"),
    NodeInfo(IdSegmentUid, "SegmentUID")
  ]

  /** Entry `i` carries `id` and no earlier entry does. */
  predicate FirstWithId(infos: seq<NodeInfo>, id: nat, i: nat)
  {
    i < |infos| && infos[i].id == id && forall j :: 0 <= j < i ==> infos[j].id != id
  }

  /** The position of the first entry of `infos` whose ID is `id`, scanning in table order. */
  function FindIndex(infos: seq<NodeInfo>, id: nat): (r: Option<nat>)
    ensures r.None? <==> forall i :: 0 <= i < |infos| ==> infos[i].id != id
    ensures r.Some? ==> FirstWithId(infos, id, r.value)
  {
    if |infos| == 0 then None
    else if infos[0].id == id then Some(0)
    else
      match FindIndex(infos[1..], id)
      case None => None
      case Some(i) => Some(i + 1)
  }

  /** `get_node_info`: the first registry entry, in table order, whose ID is `id`. */
  function GetNodeInfo(id: nat): (r: Option<NodeInfo>)
    ensures r.Some? ==> r.value.id == id
    ensures r.None? <==> forall i :: 0 <= i < |NodeInfos| ==> NodeInfos[i].id != id
    ensures r.Some? ==> exists i: nat :: FirstWithId(NodeInfos, id, i) && NodeInfos[i] == r.value
  {
    match FindIndex(NodeInfos, id)
    case None => None
    case Some(i) => Some(NodeInfos[i])
  }

  /** The table has 122 entries and opens with the EBML header, then the Segment. */
  lemma RegistryShape()
    ensures |NodeInfos| == 122
    ensures NodeInfos[0].id == IdEbmlHeader && NodeInfos[1].id == IdSegment
  {
  }

  /** The four signature bytes, read big-endian, are the EBML header's ID. */
  lemma MagicSpellsHeaderId()
    ensures BigEndian(Magic) == IdEbmlHeader
  {
  }
}
