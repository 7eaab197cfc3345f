/**
 * The top-level read of a file: the four-byte signature check, then two
 * trees built back to back from offset 0 — the EBML header and the root.
 */
module Reader {
  import opened Wrappers
  import opened Arith
  import opened Codec
  import opened Errors
  import opened Vint
  import opened Registry
  import opened Schema
  import opened Tree
  import opened Views

  /** A parsed file: the header tree and the tree that follows it. */
  datatype WebmFile = WebmFile(header: EbmlHeaderNode, root: SegmentNode)

  /** The signature check: the first four bytes are present and equal the magic number. */
  predicate HasMagic(data: seq<Byte>)
  {
    |data| >= 4 && data[..4] == Magic
  }

  /**
   * The whole file. The root is whatever element follows the header: its ID
   * is not checked against the Segment ID, and bytes after it are ignored.
   */
  function Parse(data: seq<Byte>): (r: Result<WebmFile, Error>)
    ensures !HasMagic(data) ==> r == Failure(BadMagic)
    ensures r.Success? <==>
              && HasMagic(data)
              && BuildTree(KindOf, data, 0).Success?
              && BuildTree(KindOf, data, BuildTree(KindOf, data, 0).value.1).Success?
    ensures r.Success? ==>
              && r.value.header.node == BuildTree(KindOf, data, 0).value.0
              && r.value.root.node == BuildTree(KindOf, data, BuildTree(KindOf, data, 0).value.1).value.0
    ensures r.Success? ==> r.value.header.node.element.id == IdEbmlHeader
  {
    if !HasMagic(data) then Failure(BadMagic)
    else
      var header :- BuildTree(KindOf, data, 0);
      var root :- BuildTree(KindOf, data, header.1);
      MagicIsHeaderId(data);
      BuildTreeShape(KindOf, data, 0);
      ParseElementCases(KindOf, data, 0);
      ReadHeaderCases(data, 0);
      Success(WebmFile(EbmlHeaderNode(header.0), SegmentNode(root.0)))
  }

  /** Input that passes the signature check starts with an element whose ID is the EBML header's. */
  lemma MagicIsHeaderId(data: seq<Byte>)
    requires HasMagic(data)
    ensures ReadId(data, 0) == Success((IdEbmlHeader, 4))
  {
    MagicSpellsHeaderId();
    assert data[0] == Magic[0] == 0x1a;
    assert PrefixLength(data[0]) == 4 by {
      LeadingZerosOfRange(data[0], 4);
    }
    ReadIdValue(data, 0);
    assert data[0..4] == Magic;
  }
}
