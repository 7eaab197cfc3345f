/**
 * Element kinds and the reader's fixed classification table. The kind decides
 * how a payload is read: a Master element's payload is a run of child
 * elements, every other kind (Unknown included) is kept as opaque bytes.
 */
module Schema {
  import opened Wrappers
  import opened Registry

  datatype ElementKind = Unknown | Master | UInt | SInt | Float | String | Utf8 | Date | Binary

  /** A classification of element IDs into kinds; the reader uses `KindOf`. */
  type Classifier = nat -> ElementKind

  /** The reader's `match` on the element ID, group by group in source order; any other ID is Unknown. */
  function KindOf(id: nat): ElementKind
  {
    match id
    case 0xe7 | 0xab | 0xcc
       | 0xd7 | 0x83 | 0xb9
       | 0x88 | 0x9c | 0x9a
       | 0xb0 | 0xba | 0x9f
       | 0xb3 | 0xf1 | 0xf7
       | 0xa7
       | 0x4286 | 0x42f7 | 0x42f2
       | 0x42f3 | 0x4287 | 0x4285
       | 0x53ac | 0x73c5 | 0x55aa
       | 0x56aa | 0x56bb | 0x53b8
       | 0x53c0 | 0x5378
       | 0x2ad7b1 | 0x23e383 => UInt
    case 0xfb | 0x75a2 => SInt
    case 0xb5 | 0x4489 | 0x23314f => Float
    case 0x4461 => Date
    case 0x86 | 0x4282 | 0x22b59c => String
    case 0x9b | 0x4d80 | 0x5741 | 0x536e | 0x258688 => Utf8
    case 0xa3 | 0xa1 | 0xec | 0xbf | 0x53ab | 0x63a2 | 0x73a4 => Binary
    case 0xa0 | 0x8e | 0xe8
       | 0xae | 0xe0 | 0xe1
       | 0xbb | 0xb7
       | 0x4dbb
       | 0x1a45dfa3 | 0x18538067
       | 0x114d9b74 | 0x1549a966
       | 0x1f43b675 | 0x1654ae6b
       | 0x1c53bb6b => Master
    case _ => Unknown
  }

  /** The registry's top-level containers that the table lists as Master. */
  lemma ListedTopLevel()
    ensures KindOf(IdEbmlHeader) == Master && KindOf(IdSegment) == Master
    ensures KindOf(IdSeekHead) == Master && KindOf(IdInfo) == Master
  {
  }

  /** The registry's cluster and cue containers that the table lists as Master. */
  lemma ListedClusterAndCues()
    ensures KindOf(IdCluster) == Master && KindOf(IdBlockGroup) == Master && KindOf(IdSlices) == Master
    ensures KindOf(IdCues) == Master && KindOf(IdCuePoint) == Master && KindOf(IdCueTrackPositions) == Master
  {
  }

  /** The registry's track containers that the table lists as Master. */
  lemma ListedTracks()
    ensures KindOf(IdSeek) == Master && KindOf(IdTracks) == Master && KindOf(IdTrackEntry) == Master
    ensures KindOf(IdVideo) == Master && KindOf(IdAudio) == Master
  {
  }

  /**
   * The registry's content-encoding containers the table leaves out: they are
   * read as Unknown, so their payload is kept as bytes and never split into children.
   */
  lemma UnlistedEncodings()
    ensures KindOf(IdContentEncodings) == Unknown && KindOf(IdContentEncoding) == Unknown
    ensures KindOf(IdContentEncryption) == Unknown && KindOf(IdContentEncAesSettings) == Unknown
  {
  }

  /** The registry's chapter containers the table leaves out, likewise read as Unknown. */
  lemma UnlistedChapters()
    ensures KindOf(IdChapters) == Unknown && KindOf(IdEditionEntry) == Unknown
    ensures KindOf(IdChapterAtom) == Unknown && KindOf(IdChapterDisplay) == Unknown
  {
  }

  /** The registry's tag containers the table leaves out, likewise read as Unknown. */
  lemma UnlistedTags()
    ensures KindOf(IdTags) == Unknown && KindOf(IdTag) == Unknown
    ensures KindOf(IdTargets) == Unknown && KindOf(IdSimpleTag) == Unknown
  {
  }
}
