/**
 * Reading fields out of a node. Every accessor looks only at the direct
 * children of a node: a single field is the first child with the ID, a
 * repeated field is every child with the ID in document order. A mandatory
 * field that is absent is an error, an optional one is `None`.
 */
module Access {
  import opened Wrappers
  import opened Codec
  import opened Errors
  import opened Tree
  import Utf8
  import opened Arith

  /** `i` is the position of the first node with `id`. */
  predicate IsFirst(nodes: seq<Node>, id: nat, i: nat)
  {
    && i < |nodes|
    && nodes[i].element.id == id
    && forall j :: 0 <= j < i ==> nodes[j].element.id != id
  }

  /** The first node with `id`, if any. */
  function FindFirst(nodes: seq<Node>, id: nat): (r: Option<Node>)
    ensures r.None? <==> forall i :: 0 <= i < |nodes| ==> nodes[i].element.id != id
    ensures r.Some? ==> exists i: nat :: IsFirst(nodes, id, i) && nodes[i] == r.value
  {
    if |nodes| == 0 then None
    else if nodes[0].element.id == id then
      assert IsFirst(nodes, id, 0);
      Some(nodes[0])
    else
      var r := FindFirst(nodes[1..], id);
      if r.Some? then
        var i: nat :| IsFirst(nodes[1..], id, i) && nodes[1..][i] == r.value;
        assert IsFirst(nodes, id, i + 1);
        r
      else r
  }

  /** Every node with `id`, in their original order. */
  function FilterAll(nodes: seq<Node>, id: nat): (r: seq<Node>)
    ensures |r| <= |nodes|
    ensures forall i :: 0 <= i < |r| ==> r[i].element.id == id
    ensures forall n :: n in r <==> n in nodes && n.element.id == id
  {
    if |nodes| == 0 then []
    else
      var rest := FilterAll(nodes[1..], id);
      assert forall n :: n in nodes <==> n == nodes[0] || n in nodes[1..];
      if nodes[0].element.id == id then [nodes[0]] + rest else rest
  }

  /** Filtering distributes over concatenation, so the order of the matches is the order of the input. */
  lemma {:induction false} FilterAppend(a: seq<Node>, b: seq<Node>, id: nat)
    ensures FilterAll(a + b, id) == FilterAll(a, id) + FilterAll(b, id)
  {
    if |a| > 0 {
      assert (a + b)[1..] == a[1..] + b;
      FilterAppend(a[1..], b, id);
    } else {
      assert a + b == b;
    }
  }

  /** The single-field lookup is the head of the repeated-field lookup. */
  lemma {:induction false} FindFirstIsFirstOfFilter(nodes: seq<Node>, id: nat)
    ensures FindFirst(nodes, id) == if FilterAll(nodes, id) == [] then None else Some(FilterAll(nodes, id)[0])
  {
    if |nodes| > 0 && nodes[0].element.id != id {
      FindFirstIsFirstOfFilter(nodes[1..], id);
    }
  }

  /** A child node that must be present. */
  function MandatoryNode(nodes: seq<Node>, id: nat): (r: Result<Node, Error>)
    ensures r.Failure? <==> forall i :: 0 <= i < |nodes| ==> nodes[i].element.id != id
    ensures r.Failure? ==> r.error == MissingField(id)
    ensures forall i: nat :: IsFirst(nodes, id, i) ==> r == Success(nodes[i])
  {
    match FindFirst(nodes, id)
    case None => Failure(MissingField(id))
    case Some(n) => FirstIsUnique(nodes, id); Success(n)
  }

  /** At most one position is the first one with a given ID. */
  lemma FirstIsUnique(nodes: seq<Node>, id: nat)
    ensures forall i: nat, j: nat :: IsFirst(nodes, id, i) && IsFirst(nodes, id, j) ==> i == j
  {
  }

  /** The decoded payload of the first child with `id`; an absent child is `MissingField`. */
  function MandatoryData<T>(nodes: seq<Node>, id: nat, decode: seq<Byte> -> Result<T, Error>): (r: Result<T, Error>)
    ensures (forall i :: 0 <= i < |nodes| ==> nodes[i].element.id != id) ==> r == Failure(MissingField(id))
    ensures forall i: nat :: IsFirst(nodes, id, i) ==> r == decode(nodes[i].element.data)
  {
    var n :- MandatoryNode(nodes, id);
    decode(n.element.data)
  }

  /** The decoded payload of the first child with `id`, or `None` when there is none. */
  function OptionalData<T>(nodes: seq<Node>, id: nat, decode: seq<Byte> -> Result<T, Error>): (r: Result<Option<T>, Error>)
    ensures (forall i :: 0 <= i < |nodes| ==> nodes[i].element.id != id) <==> r == Success(None)
    ensures forall i: nat :: IsFirst(nodes, id, i) ==>
              && (r.Success? <==> decode(nodes[i].element.data).Success?)
              && (r.Success? ==> r.value == Some(decode(nodes[i].element.data).value))
              && (r.Failure? ==> r.error == decode(nodes[i].element.data).error)
  {
    match FindFirst(nodes, id)
    case None => Success(None)
    case Some(n) =>
      FirstIsUnique(nodes, id);
      var v :- decode(n.element.data);
      Success(Some(v))
  }

  /** Every node's payload decodes. */
  predicate AllDecode<T>(nodes: seq<Node>, decode: seq<Byte> -> Result<T, Error>)
  {
    forall i :: 0 <= i < |nodes| ==> decode(nodes[i].element.data).Success?
  }

  /** Every node's payload decoded, in order; the first payload that does not decode stops the whole read. */
  function DecodeEach<T>(nodes: seq<Node>, decode: seq<Byte> -> Result<T, Error>): (r: Result<seq<T>, Error>)
    ensures r.Success? <==> AllDecode(nodes, decode)
    ensures r.Success? ==>
              && |r.value| == |nodes|
              && forall i :: 0 <= i < |nodes| ==> r.value[i] == decode(nodes[i].element.data).value
  {
    if |nodes| == 0 then Success([])
    else
      var first :- decode(nodes[0].element.data);
      var rest :- DecodeEach(nodes[1..], decode);
      Success([first] + rest)
  }

  /** The decoded payloads of every child with `id`, in document order. */
  function RepeatedData<T>(nodes: seq<Node>, id: nat, decode: seq<Byte> -> Result<T, Error>): (r: Result<seq<T>, Error>)
    ensures (forall i :: 0 <= i < |nodes| ==> nodes[i].element.id != id) ==> r == Success([])
    ensures r.Success? <==> AllDecode(FilterAll(nodes, id), decode)
    ensures r.Success? ==>
              && |r.value| == |FilterAll(nodes, id)|
              && forall i :: 0 <= i < |r.value| ==> r.value[i] == decode(FilterAll(nodes, id)[i].element.data).value
  {
    NoMatchesFilterEmpty(nodes, id);
    var matches := FilterAll(nodes, id);
    DecodeEach(matches, decode)
  }

  /** With no node carrying `id`, the filter is empty. */
  lemma NoMatchesFilterEmpty(nodes: seq<Node>, id: nat)
    ensures (forall i :: 0 <= i < |nodes| ==> nodes[i].element.id != id) ==> FilterAll(nodes, id) == []
  {
    var r := FilterAll(nodes, id);
    if |r| > 0 {
      assert r[0] in nodes;
    }
  }

  /** A payload as an unsigned integer; any length reads, the empty payload as 0. */
  function UintOf(bs: seq<Byte>): (r: Result<nat, Error>)
    ensures r == Success(BigEndian(bs) % U64)
    ensures |bs| <= 8 ==> r == Success(BigEndian(bs))
  {
    BytesToUintValue(bs);
    Success(BytesToUint(bs))
  }

  /** A payload as a signed integer; the empty payload cannot be read. */
  function IntOf(bs: seq<Byte>): (r: Result<int, Error>)
    ensures r.Failure? <==> |bs| == 0
    ensures r.Failure? ==> r.error == EmptyInteger
    ensures 1 <= |bs| <= 8 ==> r == Success(TwosComplement(bs))
    ensures |bs| >= 8 ==> r == Success(AsI64(BigEndian(bs) % U64))
  {
    match BytesToInt(bs)
    case None => Failure(EmptyInteger)
    case Some(v) => Success(v)
  }

  /** A payload as a flag: true exactly when its signed value is 1. */
  function BoolOf(bs: seq<Byte>): (r: Result<bool, Error>)
    ensures r.Failure? <==> |bs| == 0
    ensures r.Failure? ==> r.error == EmptyInteger
    ensures r == Success(true) <==> IntOf(bs) == Success(1)
  {
    match BytesToBool(bs)
    case None => Failure(EmptyInteger)
    case Some(b) => Success(b)
  }

  /** A payload as the raw bits of a float of the width its length selects. */
  function FloatOf(bs: seq<Byte>): (r: Result<FloatBits, Error>)
    ensures r.Success? && (r.value.Binary64? <==> |bs| > 4)
    ensures r.value.Binary64? ==> r.value.bits == BigEndian(bs) % U64
    ensures r.value.Binary32? ==> r.value.bits == BigEndian(bs) && r.value.bits < U32
  {
    Success(BytesToFloatBits(bs))
  }

  /** A payload as UTF-8 text; ill-formed text cannot be read. */
  function TextOf(bs: seq<Byte>): (r: Result<string, Error>)
    ensures r.Failure? <==> Utf8.Decode(bs).None?
    ensures r.Failure? ==> r.error == InvalidUtf8
    ensures r.Success? ==> Utf8.Encode(r.value) == bs
  {
    match Utf8.Decode(bs)
    case None => Failure(InvalidUtf8)
    case Some(s) => Utf8.EncodeDecode(bs); Success(s)
  }

  /** A payload as raw bytes; always readable. */
  function BytesOf(bs: seq<Byte>): (r: Result<seq<Byte>, Error>)
    ensures r == Success(bs)
  {
    Success(bs)
  }
}
