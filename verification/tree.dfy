/**
 * Element headers and the recursive tree builder. The reader is a cursor over
 * an immutable byte sequence: every parser takes the cursor and returns the
 * cursor after what it consumed, or the error that stopped it.
 */
module Tree {
  import opened Wrappers
  import opened Codec
  import opened Errors
  import opened Vint
  import opened Schema

  /** One element: raw ID, declared payload size, kind and payload (empty for a Master). */
  datatype Element = Element(id: nat, size: nat, kind: ElementKind, data: seq<Byte>)

  /** An element with the elements parsed from inside its payload. */
  datatype Node = Node(element: Element, children: seq<Node>)

  /**
   * The header of the element at `pos`: the ID, then the size vint right after
   * it. Yields the ID, the declared size and the offset where the payload starts.
   */
  function ReadHeader(data: seq<Byte>, pos: nat): (r: Result<(nat, nat, nat), Error>)
    ensures r.Success? ==> pos + 2 <= r.value.2 <= |data|
  {
    var idRead :- ReadId(data, pos);
    var sizeRead :- ReadVint(data, idRead.1);
    Success((idRead.0, sizeRead.0, sizeRead.1))
  }

  /**
   * One element. A Master keeps an empty payload and leaves the cursor at the
   * end of its header, where its children begin; every other kind, Unknown
   * included, takes exactly `size` payload bytes.
   */
  function ParseElement(kindOf: Classifier, data: seq<Byte>, pos: nat): (r: Result<(Element, nat), Error>)
    ensures r.Success? ==> pos + 2 <= r.value.1 <= |data|
  {
    var header :- ReadHeader(data, pos);
    var (id, size, start) := header;
    var kind := kindOf(id);
    if kind == Master then
      Success((Element(id, size, kind, []), start))
    else
      var payload :- ReadBytes(data, start, size);
      Success((Element(id, size, kind, payload.0), payload.1))
  }

  /**
   * The shape every built node has: kind from the table, a Master with empty
   * payload, a non-Master with exactly `size` payload bytes and no children.
   */
  predicate WellKinded(kindOf: Classifier, n: Node)
  {
    && n.element.kind == kindOf(n.element.id)
    && (n.element.kind == Master ==> n.element.data == [])
    && (n.element.kind != Master ==> |n.element.data| == n.element.size && n.children == [])
    && forall i :: 0 <= i < |n.children| ==> WellKinded(kindOf, n.children[i])
  }

  /**
   * The node at `pos` with its subtree. A Master's children are parsed back to
   * back from the end of its header while the cursor is before
   * `start + size`; the last child may run past that point unnoticed.
   */
  function BuildTree(kindOf: Classifier, data: seq<Byte>, pos: nat): (r: Result<(Node, nat), Error>)
    ensures r.Success? ==> pos + 2 <= r.value.1 <= |data|
    decreases |data| - pos, 0
  {
    var parsed :- ParseElement(kindOf, data, pos);
    var (e, start) := parsed;
    if e.kind == Master then
      var kids :- BuildChildren(kindOf, data, start, start + e.size);
      Success((Node(e, kids.0), kids.1))
    else
      Success((Node(e, []), start))
  }

  /**
   * Children parsed from `pos` until the cursor reaches `limit` or beyond. The
   * loop stops on the first cursor at or past `limit`, so it may stop beyond it.
   */
  function BuildChildren(kindOf: Classifier, data: seq<Byte>, pos: nat, limit: nat): (r: Result<(seq<Node>, nat), Error>)
    requires pos <= |data|
    ensures r.Success? ==> pos <= r.value.1 <= |data|
    decreases |data| - pos, 1
  {
    if pos >= limit then Success(([], pos))
    else
      var first :- BuildTree(kindOf, data, pos);
      var rest :- BuildChildren(kindOf, data, first.1, limit);
      Success(([first.0] + rest.0, rest.1))
  }

  /** The header is the ID followed by the size vint, and fails exactly when one of them does. */
  lemma ReadHeaderCases(data: seq<Byte>, pos: nat)
    ensures ReadHeader(data, pos).Success? <==>
              ReadId(data, pos).Success? && ReadVint(data, ReadId(data, pos).value.1).Success?
    ensures ReadHeader(data, pos).Success? ==>
              var (id, size, start) := ReadHeader(data, pos).value;
              && id == ReadId(data, pos).value.0
              && (size, start) == ReadVint(data, ReadId(data, pos).value.1).value
  {
  }

  /**
   * An element is read when its header is and, unless it is a Master, its
   * payload fits; a payload that does not fit fails where the payload starts.
   */
  lemma ParseElementCases(kindOf: Classifier, data: seq<Byte>, pos: nat)
    ensures ParseElement(kindOf, data, pos).Success? <==>
              && ReadHeader(data, pos).Success?
              && var (id, size, start) := ReadHeader(data, pos).value;
                 kindOf(id) == Master || start + size <= |data|
    ensures ReadHeader(data, pos).Failure? ==>
              ParseElement(kindOf, data, pos) == Failure(ReadHeader(data, pos).error)
    ensures ReadHeader(data, pos).Success? && ParseElement(kindOf, data, pos).Failure? ==>
              ParseElement(kindOf, data, pos).error == Truncated(ReadHeader(data, pos).value.2)
    ensures ParseElement(kindOf, data, pos).Success? ==>
              var (id, size, start) := ReadHeader(data, pos).value;
              var (e, next) := ParseElement(kindOf, data, pos).value;
              && e.id == id && e.size == size && e.kind == kindOf(id)
              && (e.kind == Master ==> e.data == [] && next == start)
              && (e.kind != Master ==> next == start + size && e.data == data[start..next])
  {
  }

  /**
   * A built node is well kinded and carries the element read at its offset. A
   * leaf ends where its payload ends; a Master ends no earlier than its
   * declared end, and later when its last child overruns it.
   */
  lemma {:induction false} BuildTreeShape(kindOf: Classifier, data: seq<Byte>, pos: nat)
    requires BuildTree(kindOf, data, pos).Success?
    ensures var (n, end) := BuildTree(kindOf, data, pos).value;
            && WellKinded(kindOf, n)
            && ParseElement(kindOf, data, pos).Success?
            && n.element == ParseElement(kindOf, data, pos).value.0
            && (n.element.kind == Master ==> end >= ParseElement(kindOf, data, pos).value.1 + n.element.size)
            && (n.element.kind != Master ==> end == ParseElement(kindOf, data, pos).value.1 && n.children == [])
    decreases |data| - pos, 0
  {
    ParseElementCases(kindOf, data, pos);
    var (e, start) := ParseElement(kindOf, data, pos).value;
    if e.kind == Master {
      BuildChildrenShape(kindOf, data, start, start + e.size);
    }
  }

  /**
   * Children read before a limit are well kinded and stop at or past the
   * limit; there are none when the cursor starts there, and at least one
   * when it starts before it.
   */
  lemma {:induction false} BuildChildrenShape(kindOf: Classifier, data: seq<Byte>, pos: nat, limit: nat)
    requires pos <= |data| && BuildChildren(kindOf, data, pos, limit).Success?
    ensures var (kids, end) := BuildChildren(kindOf, data, pos, limit).value;
            && limit <= end
            && (forall i :: 0 <= i < |kids| ==> WellKinded(kindOf, kids[i]))
            && (pos >= limit <==> kids == [])
            && (pos >= limit ==> end == pos)
    decreases |data| - pos, 1
  {
    if pos < limit {
      var (first, mid) := BuildTree(kindOf, data, pos).value;
      BuildTreeShape(kindOf, data, pos);
      BuildChildrenShape(kindOf, data, mid, limit);
      var (rest, end) := BuildChildren(kindOf, data, mid, limit).value;
      assert BuildChildren(kindOf, data, pos, limit).value.0 == [first] + rest;
      assert forall i :: 1 <= i < 1 + |rest| ==> ([first] + rest)[i] == rest[i - 1];
    }
  }

  /** A non-Master element is a leaf, and the cursor after it is the cursor after its payload. */
  lemma BuildTreeLeaf(kindOf: Classifier, data: seq<Byte>, pos: nat, e: Element, next: nat)
    requires ParseElement(kindOf, data, pos) == Success((e, next)) && e.kind != Master
    ensures BuildTree(kindOf, data, pos) == Success((Node(e, []), next))
  {
  }

  /** A Master element owns the children read from the end of its header up to its declared size. */
  lemma BuildTreeMaster(kindOf: Classifier, data: seq<Byte>, pos: nat, e: Element, start: nat, limit: nat, kids: seq<Node>, end: nat)
    requires ParseElement(kindOf, data, pos) == Success((e, start)) && e.kind == Master
    requires limit == start + e.size
    requires BuildChildren(kindOf, data, start, limit) == Success((kids, end))
    ensures BuildTree(kindOf, data, pos) == Success((Node(e, kids), end))
  {
  }

  /** Before the limit, the children are one tree followed by the children after it. */
  lemma BuildChildrenCons(kindOf: Classifier, data: seq<Byte>, pos: nat, limit: nat, first: Node, mid: nat, rest: seq<Node>, end: nat)
    requires pos < limit && pos <= |data|
    requires BuildTree(kindOf, data, pos) == Success((first, mid))
    requires BuildChildren(kindOf, data, mid, limit) == Success((rest, end))
    ensures BuildChildren(kindOf, data, pos, limit) == Success(([first] + rest, end))
  {
  }

  /** A Master of declared size 0 has no children: the loop does not start. */
  lemma EmptyMaster(kindOf: Classifier, data: seq<Byte>, pos: nat)
    requires ParseElement(kindOf, data, pos).Success?
    requires ParseElement(kindOf, data, pos).value.0.kind == Master
    requires ParseElement(kindOf, data, pos).value.0.size == 0
    ensures var (e, start) := ParseElement(kindOf, data, pos).value;
            BuildTree(kindOf, data, pos) == Success((Node(e, []), start))
  {
  }

  /**
   * A BlockGroup (0xa0) declaring one payload byte, whose first child is a
   * Block (0xa1) of two bytes.
   */
  const OverrunData: seq<Byte> := [0xa0, 0x81, 0xa1, 0x82, 0x00, 0x00]

  /** The BlockGroup's header: one payload byte declared, children from offset 2. */
  lemma OverrunParent()
    ensures ParseElement(KindOf, OverrunData, 0) == Success((Element(0xa0, 1, Master, []), 2))
  {
    assert ReadId(OverrunData, 0) == Success((0xa0, 1));
    assert ReadVint(OverrunData, 1) == Success((1, 2));
    assert KindOf(0xa0) == Master;
  }

  /** The Block: two payload bytes, ending at offset 6. */
  lemma OverrunChild()
    ensures ParseElement(KindOf, OverrunData, 2) == Success((Element(0xa1, 2, Binary, [0x00, 0x00]), 6))
  {
    assert ReadId(OverrunData, 2) == Success((0xa1, 3));
    assert ReadVint(OverrunData, 3) == Success((2, 4));
    assert KindOf(0xa1) == Binary;
    assert OverrunData[4..6] == [0x00, 0x00];
  }

  /**
   * The child is read whole and the BlockGroup ends at offset 6, past its
   * declared end at offset 3, with no error.
   */
  lemma OverrunExample()
    ensures BuildTree(KindOf, OverrunData, 0)
            == Success((Node(Element(0xa0, 1, Master, []), [Node(Element(0xa1, 2, Binary, [0x00, 0x00]), [])]), 6))
  {
    var data := OverrunData;
    var parent := Element(0xa0, 1, Master, []);
    var block := Element(0xa1, 2, Binary, [0x00, 0x00]);
    OverrunParent();
    OverrunChild();
    BuildTreeLeaf(KindOf, data, 2, block, 6);
    assert BuildChildren(KindOf, data, 6, 3) == Success(([], 6));
    BuildChildrenCons(KindOf, data, 2, 3, Node(block, []), 6, [], 6);
    assert [Node(block, [])] + [] == [Node(block, [])];
    BuildTreeMaster(KindOf, data, 0, parent, 2, 3, [Node(block, [])], 6);
  }
}
