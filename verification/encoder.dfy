/**
 * The writer side the reader is the inverse of: an element is its ID bytes,
 * its size as an eight-byte vint, then its payload, which for a Master is
 * the encoding of its children back to back.
 */
module Encoder {
  import opened Wrappers
  import opened Arith
  import opened Codec
  import opened Errors
  import opened Vint
  import opened Registry
  import opened Schema
  import opened Tree
  import opened Views
  import opened Reader

  /**
   * Width of every size field the writer emits: the eight-byte form, the
   * widest the reader takes, which holds any size below 2^56.
   */
  const SizeWidth: nat := 8

  /** A node the writer can emit and the reader reproduces. */
  predicate Canonical(kindOf: Classifier, n: Node)
    decreases n, 1
  {
    && IdWidth(n.element.id) != 0
    && n.element.kind == kindOf(n.element.id)
    && n.element.size < Pow2(7 * SizeWidth)
    && (n.element.kind == Master ==>
          && n.element.data == []
          && (forall i :: 0 <= i < |n.children| ==> Canonical(kindOf, n.children[i]))
          && n.element.size == |EncodeAll(n.children)|)
    && (n.element.kind != Master ==> |n.element.data| == n.element.size && n.children == [])
  }

  /** The bytes of one element with its subtree. */
  function Encode(n: Node): (bs: seq<Byte>)
    decreases n, 0
  {
    var e := n.element;
    var size := if e.size < Pow2(7 * SizeWidth) then e.size else 0;
    var payload := if e.kind == Master then EncodeAll(n.children) else e.data;
    (if IdWidth(e.id) != 0 then EncodeId(e.id) else [])
      + EncodeVint(size, SizeWidth)
      + payload
  }

  /** The bytes of a run of sibling elements. */
  function EncodeAll(ns: seq<Node>): (bs: seq<Byte>)
    decreases ns
  {
    if |ns| == 0 then [] else Encode(ns[0]) + EncodeAll(ns[1..])
  }

  /** Two adjacent parts of an encoded slice sit at their own offsets. */
  lemma {:induction false} SliceConcat(data: seq<Byte>, pos: nat, a: seq<Byte>, b: seq<Byte>)
    requires pos + |a| + |b| <= |data| && data[pos..pos + |a| + |b|] == a + b
    ensures data[pos..pos + |a|] == a
    ensures data[pos + |a|..pos + |a| + |b|] == b
  {
    SliceSplit(data, pos, pos + |a|, pos + |a| + |b|, a, b);
  }

  /** The same, with the split point and the end given as offsets. */
  lemma {:induction false} SliceSplit(data: seq<Byte>, pos: nat, mid: nat, end: nat, a: seq<Byte>, b: seq<Byte>)
    requires mid == pos + |a| && end == mid + |b| && end <= |data| && data[pos..end] == a + b
    ensures data[pos..mid] == a && data[mid..end] == b
  {
    assert data[pos..mid] == (a + b)[..|a|];
    assert data[mid..end] == (a + b)[|a|..];
  }

  /** Every element of a canonical node takes at least an ID byte and a size byte. */
  lemma {:induction false} EncodeLength(n: Node)
    requires IdWidth(n.element.id) != 0
    ensures |Encode(n)| >= 2 + |(if n.element.kind == Master then EncodeAll(n.children) else n.element.data)|
  {
  }

  /** The header bytes of an element: its ID, then its size in the eight-byte form. */
  function HeaderBytes(e: Element): (bs: seq<Byte>)
    requires IdWidth(e.id) != 0 && e.size < Pow2(7 * SizeWidth)
  {
    EncodeId(e.id) + EncodeVint(e.size, SizeWidth)
  }

  /** A node's encoding is its header bytes followed by its payload bytes. */
  lemma {:induction false} EncodeSplit(n: Node)
    requires IdWidth(n.element.id) != 0 && n.element.size < Pow2(7 * SizeWidth)
    ensures Encode(n) == HeaderBytes(n.element) + (if n.element.kind == Master then EncodeAll(n.children) else n.element.data)
  {
  }

  /** Reading back header bytes gives the ID, the size and the offset right after them. */
  lemma {:induction false} ReadHeaderRoundTrip(data: seq<Byte>, pos: nat, e: Element, start: nat)
    requires IdWidth(e.id) != 0 && e.size < Pow2(7 * SizeWidth)
    requires start == pos + |HeaderBytes(e)| <= |data| && data[pos..start] == HeaderBytes(e)
    ensures ReadHeader(data, pos) == Success((e.id, e.size, start))
  {
    var idBytes := EncodeId(e.id);
    SliceConcat(data, pos, idBytes, EncodeVint(e.size, SizeWidth));
    ReadIdRoundTrip(data, pos, e.id);
    ReadVintRoundTrip(data, pos + |idBytes|, e.size, SizeWidth);
  }

  /** Reading back header and payload bytes gives the element, with the cursor where its children start or after its payload. */
  lemma {:induction false} ParseElementRoundTrip(kindOf: Classifier, data: seq<Byte>, pos: nat, e: Element, start: nat, payload: seq<Byte>, next: nat)
    requires IdWidth(e.id) != 0 && e.size < Pow2(7 * SizeWidth) && e.kind == kindOf(e.id)
    requires e.kind == Master ==> e.data == []
    requires e.kind != Master ==> payload == e.data && |e.data| == e.size
    requires start == pos + |HeaderBytes(e)| && next == start + |payload| <= |data|
    requires data[pos..start] == HeaderBytes(e) && data[start..next] == payload
    ensures ParseElement(kindOf, data, pos) == Success((e, if e.kind == Master then start else next))
  {
    ReadHeaderRoundTrip(data, pos, e, start);
    ParseFromHeader(kindOf, data, pos, e, start, payload, next);
  }

  /** Once the header reads back, the element follows: a Master stops at its payload's start, any other kind reads its payload. */
  lemma {:induction false} ParseFromHeader(kindOf: Classifier, data: seq<Byte>, pos: nat, e: Element, start: nat, payload: seq<Byte>, next: nat)
    requires ReadHeader(data, pos) == Success((e.id, e.size, start))
    requires e.kind == kindOf(e.id)
    requires e.kind == Master ==> e.data == []
    requires e.kind != Master ==> payload == e.data && |e.data| == e.size
    requires next == start + |payload| <= |data| && data[start..next] == payload
    ensures ParseElement(kindOf, data, pos) == Success((e, if e.kind == Master then start else next))
  {
    if e.kind == Master {
      assert e == Element(e.id, e.size, Master, []);
    } else {
      ReadBytesRoundTrip(data, start, payload);
      assert e == Element(e.id, e.size, e.kind, e.data);
    }
  }

  /** Reading back the encoding of a canonical node yields that node and stops exactly at its end. */
  lemma {:induction false} BuildTreeRoundTrip(kindOf: Classifier, n: Node, data: seq<Byte>, pos: nat, end: nat)
    requires Canonical(kindOf, n)
    requires end == pos + |Encode(n)| <= |data| && data[pos..end] == Encode(n)
    ensures BuildTree(kindOf, data, pos) == Success((n, end))
    decreases n, 1
  {
    if n.element.kind == Master {
      BuildMasterRoundTrip(kindOf, n, data, pos, end);
    } else {
      BuildLeafRoundTrip(kindOf, n, data, pos, end);
    }
  }

  /** The non-Master case: the header and exactly `size` payload bytes, no children. */
  lemma {:induction false} BuildLeafRoundTrip(kindOf: Classifier, n: Node, data: seq<Byte>, pos: nat, end: nat)
    requires Canonical(kindOf, n) && n.element.kind != Master
    requires end == pos + |Encode(n)| <= |data| && data[pos..end] == Encode(n)
    ensures BuildTree(kindOf, data, pos) == Success((n, end))
  {
    var e := n.element;
    var header := HeaderBytes(e);
    var start := pos + |header|;
    EncodeSplit(n);
    SliceSplit(data, pos, start, end, header, e.data);
    ParseElementRoundTrip(kindOf, data, pos, e, start, e.data, end);
    BuildTreeLeaf(kindOf, data, pos, e, end);
    assert n == Node(e, []);
  }

  /** The Master case: the header, then the children read back up to the end of the payload. */
  lemma {:induction false} BuildMasterRoundTrip(kindOf: Classifier, n: Node, data: seq<Byte>, pos: nat, end: nat)
    requires Canonical(kindOf, n) && n.element.kind == Master
    requires end == pos + |Encode(n)| <= |data| && data[pos..end] == Encode(n)
    ensures BuildTree(kindOf, data, pos) == Success((n, end))
    decreases n, 0
  {
    var e, kids := n.element, n.children;
    var header, payload := HeaderBytes(e), EncodeAll(kids);
    EncodeSplit(n);
    var start := pos + |header|;
    assert Encode(n) == header + payload && end == start + |payload|;
    SliceSplit(data, pos, start, end, header, payload);
    ParseElementRoundTrip(kindOf, data, pos, e, start, payload, end);
    assert forall i :: 0 <= i < |kids| ==> Canonical(kindOf, kids[i]);
    BuildChildrenRoundTrip(kindOf, kids, data, start, end);
    assert end == start + e.size;
    BuildTreeMaster(kindOf, data, pos, e, start, end, kids, end);
    assert n == Node(e, kids);
  }

  /** Reading back a run of canonical siblings yields them all and stops exactly at the end of the run. */
  lemma {:induction false} BuildChildrenRoundTrip(kindOf: Classifier, ns: seq<Node>, data: seq<Byte>, pos: nat, end: nat)
    requires forall i :: 0 <= i < |ns| ==> Canonical(kindOf, ns[i])
    requires end == pos + |EncodeAll(ns)| <= |data| && data[pos..end] == EncodeAll(ns)
    ensures BuildChildren(kindOf, data, pos, end) == Success((ns, end))
    decreases ns, 2
  {
    if |ns| > 0 {
      var mid := SplitFirst(ns, data, pos, end);
      assert BuildTree(kindOf, data, pos) == Success((ns[0], mid)) by {
        BuildTreeRoundTrip(kindOf, ns[0], data, pos, mid);
      }
      assert BuildChildren(kindOf, data, mid, end) == Success((ns[1..], end)) by {
        TailCanonical(kindOf, ns);
        BuildChildrenRoundTrip(kindOf, ns[1..], data, mid, end);
      }
      ChildrenFromFirst(kindOf, data, pos, mid, end, ns);
    }
  }

  /** A run reads back once its first element and the rest read back one after the other. */
  lemma {:induction false} ChildrenFromFirst(kindOf: Classifier, data: seq<Byte>, pos: nat, mid: nat, end: nat, ns: seq<Node>)
    requires |ns| > 0 && pos < end && pos <= |data|
    requires BuildTree(kindOf, data, pos) == Success((ns[0], mid))
    requires BuildChildren(kindOf, data, mid, end) == Success((ns[1..], end))
    ensures BuildChildren(kindOf, data, pos, end) == Success((ns, end))
  {
    BuildChildrenCons(kindOf, data, pos, end, ns[0], mid, ns[1..], end);
    assert [ns[0]] + ns[1..] == ns;
  }

  /** The encoding of a run splits after its first element, which takes at least two bytes. */
  lemma {:induction false} SplitFirst(ns: seq<Node>, data: seq<Byte>, pos: nat, end: nat) returns (mid: nat)
    requires |ns| > 0 && IdWidth(ns[0].element.id) != 0
    requires end == pos + |EncodeAll(ns)| <= |data| && data[pos..end] == EncodeAll(ns)
    ensures pos < mid == pos + |Encode(ns[0])| && end == mid + |EncodeAll(ns[1..])|
    ensures data[pos..mid] == Encode(ns[0]) && data[mid..end] == EncodeAll(ns[1..])
  {
    var first, rest := Encode(ns[0]), EncodeAll(ns[1..]);
    assert EncodeAll(ns) == first + rest;
    mid := pos + |first|;
    EncodeLength(ns[0]);
    SliceSplit(data, pos, mid, end, first, rest);
  }

  /** Every element after the first of a canonical run is canonical. */
  lemma {:induction false} TailCanonical(kindOf: Classifier, ns: seq<Node>)
    requires |ns| > 0 && forall i :: 0 <= i < |ns| ==> Canonical(kindOf, ns[i])
    ensures forall i :: 0 <= i < |ns[1..]| ==> Canonical(kindOf, ns[1..][i])
  {
    forall i | 0 <= i < |ns[1..]|
      ensures Canonical(kindOf, ns[1..][i])
    {
      assert ns[1..][i] == ns[i + 1];
    }
  }

  /** The signature is the EBML header's ID as the writer encodes it. */
  lemma {:induction false} MagicIsEncodedHeaderId()
    ensures EncodeId(IdEbmlHeader) == Magic
  {
    var id := IdEbmlHeader;
    assert IdWidth(id) == 4;
    Pow256Table();
    assert BigEndianBytes(id % 0x1_0000, 2) == [0xdf, 0xa3];
    assert BigEndianBytes(id % 0x100_0000, 3) == [0x45, 0xdf, 0xa3];
  }

  /** A header written first and any element after it read back as the file's header and root. */
  lemma {:induction false} ParseRoundTrip(header: Node, root: Node, trailing: seq<Byte>)
    requires Canonical(KindOf, header) && Canonical(KindOf, root)
    requires header.element.id == IdEbmlHeader
    ensures Parse(Encode(header) + Encode(root) + trailing)
            == Success(WebmFile(EbmlHeaderNode(header), SegmentNode(root)))
  {
    var h, r := Encode(header), Encode(root);
    var data := h + r + trailing;
    MagicIsEncodedHeaderId();
    assert data[..4] == h[..4];
    assert HasMagic(data);
    assert data[0..|h|] == h;
    assert data[|h|..|h| + |r|] == r;
    BuildTreeRoundTrip(KindOf, header, data, 0, |h|);
    BuildTreeRoundTrip(KindOf, root, data, |h|, |h| + |r|);
  }
}
