/**
 * The wire form of `Call` and `Response` (the generated `Serialize` and
 * `Deserialize` impls). A message is written as a sequence of elements with
 * a declared length; the structured-data codec that turns the elements into
 * bytes is not part of this model.
 *
 * A position read as a `u64`/`usize` accepts only a number element, and a
 * position read as a whole Response only a nested sequence. How an argument
 * or a result item is written and read back is the `ValueCodec` the
 * operations take: a numeric value may be written as a number element (as
 * serde writes `u64` arguments), anything else as an opaque value element.
 * An element the position cannot read is an `InvalidType` error.
 */
module Codec {
  import opened ProtocolTypes

  datatype Elem<V> = Num(n: u64) | Val(v: V) | Nested(elems: seq<Elem<V>>)

  /**
   * How argument and result values go on the wire: `write` gives the
   * element a value is written as, `read` the value an element reads back
   * as at a value position, if any.
   */
  datatype ValueCodec<!V> = ValueCodec(write: V -> Elem<V>, read: Elem<V> -> Option<V>)

  /** Every value reads back as itself. */
  ghost predicate Coherent<V(!new)>(c: ValueCodec<V>)
  {
    forall v :: c.read(c.write(v)) == Some(v)
  }

  /** serde's `invalid_length(n)` and the type mismatch raised by `next_element`. */
  datatype DecodeError = InvalidLength(n: nat) | InvalidType

  /** What `serialize_seq(Some(hint))` followed by the element writes produces. */
  datatype Frame<V> = Frame(lengthHint: nat, elems: seq<Elem<V>>)

  function WriteVals<V>(c: ValueCodec<V>, vs: seq<V>): (es: seq<Elem<V>>)
    ensures |es| == |vs|
    ensures forall i :: 0 <= i < |vs| ==> es[i] == c.write(vs[i])
  {
    if vs == [] then [] else [c.write(vs[0])] + WriteVals(c, vs[1..])
  }

  /**
   * A Response is written as `[call-id, idx, data]`; its variant is not
   * written. The declared length is the number of elements written.
   */
  function EncodeResponse<V>(c: ValueCodec<V>, r: Response<V>): (f: Frame<V>)
    ensures f.lengthHint == |f.elems|
  {
    Frame(3, [Num(r.id), Num(r.idx), c.write(r.data)])
  }

  /**
   * A method Call is written as `[method-index, args..., call-id]` with
   * declared length `|args| + 2`; the relay variant as
   * `[method-count, response]` with declared length 4. The leading number
   * is the tag the visitor dispatches on.
   */
  function EncodeCall<V>(c: ValueCodec<V>, iface: Interface, call: Call<V>): (f: Frame<V>)
    requires |iface| < TWO_64 && WellFormedCall(iface, call)
    ensures |f.elems| >= 2
    ensures f.elems[0] == Num(if call.Method? then call.index else |iface|)
    ensures call.Relay? ==> f.elems[1] == Nested(EncodeResponse(c, call.response).elems)
  {
    match call
    case Method(k, args, id) => Frame(|args| + 2, [Num(k)] + WriteVals(c, args) + [Num(id)])
    case Relay(r) => Frame(4, [Num(|iface|), Nested(EncodeResponse(c, r).elems)])
  }

  /**
   * Reads `n` argument values starting at position `from`, in order; the
   * first missing element is `invalid_length(position)`, the first element
   * that does not read as a value a type error.
   */
  function ReadVals<V>(c: ValueCodec<V>, s: seq<Elem<V>>, from: nat, n: nat): (r: Result<seq<V>, DecodeError>)
    ensures r.Ok? ==> |r.value| == n && (n > 0 ==> from + n <= |s|)
    ensures r.Ok? ==> forall i :: 0 <= i < n ==> c.read(s[from + i]) == Some(r.value[i])
    decreases n
  {
    if n == 0 then Ok([])
    else if from >= |s| then Err(InvalidLength(from))
    else match c.read(s[from])
      case None => Err(InvalidType)
      case Some(v) =>
        match ReadVals(c, s, from + 1, n - 1)
        case Err(e) => Err(e)
        case Ok(rest) => Ok([v] + rest)
  }

  /** Reads a `u64` at position `pos`, reporting a missing element as `invalid_length(missing)`. */
  function ReadNum<V>(s: seq<Elem<V>>, pos: nat, missing: nat): Result<u64, DecodeError>
  {
    if pos >= |s| then Err(InvalidLength(missing))
    else if !s[pos].Num? then Err(InvalidType)
    else Ok(s[pos].n)
  }

  /**
   * The Response visitor: the first element is taken as a method index; an
   * index of a method selects that variant, whose data is the second
   * element, whose fragment index is the third and whose call id is the
   * index itself. Any other index is `invalid_length(0)`.
   */
  function DecodeResponse<V>(c: ValueCodec<V>, iface: Interface, s: seq<Elem<V>>): (r: Result<Response<V>, DecodeError>)
    ensures r.Ok? ==> WellFormedResponse(iface, r.value) && r.value.id == r.value.variant
  {
    match ReadNum(s, 0, 0)
    case Err(e) => Err(e)
    case Ok(index) =>
      if index < |iface| then
        if |s| < 2 then Err(InvalidLength(0))
        else match c.read(s[1])
          case None => Err(InvalidType)
          case Some(data) =>
            match ReadNum(s, 2, 0)
            case Err(e) => Err(e)
            case Ok(idx) => Ok(Response(index, data, idx, index))
      else Err(InvalidLength(0))
  }

  /**
   * The Call visitor: reads the index, then for a method index the
   * method's arguments and the call id; every other index is the relay
   * variant, whose Response is read from the next element. Whatever it
   * returns is a Call the interface's `Call_Inner` type can hold.
   */
  function DecodeCall<V>(c: ValueCodec<V>, iface: Interface, s: seq<Elem<V>>): (r: Result<Call<V>, DecodeError>)
    ensures r.Ok? ==> WellFormedCall(iface, r.value)
  {
    match ReadNum(s, 0, 0)
    case Err(e) => Err(e)
    case Ok(index) =>
      if index < |iface| then
        var n := |iface[index].argTypes|;
        match ReadVals(c, s, 1, n)
        case Err(e) => Err(e)
        case Ok(args) =>
          match ReadNum(s, n + 1, n + 1)
          case Err(e) => Err(e)
          case Ok(id) => Ok(Method(index, args, id))
      else if |s| < 2 then Err(InvalidLength(1))
      else if !s[1].Nested? then Err(InvalidType)
      else match DecodeResponse(c, iface, s[1].elems)
        case Err(e) => Err(e)
        case Ok(r) => Ok(Relay(r))
  }

  // ---------------------------------------------------------------------
  // Properties of the Call encoding
  // ---------------------------------------------------------------------

  /**
   * A method Call is written as its index, its arguments in order and its
   * id, and the declared length is the number of elements written: one more
   * than the fields of the method's variant.
   */
  lemma EncodeMethodCallShape<V>(c: ValueCodec<V>, iface: Interface, call: Call<V>)
    requires |iface| < TWO_64 && WellFormedCall(iface, call) && call.Method?
    ensures var f := EncodeCall(c, iface, call);
      && f.lengthHint == |f.elems| == |CallVariantFields(iface[call.index])| + 1
      && f.elems[0] == Num(call.index) && f.elems[|f.elems| - 1] == Num(call.id)
      && forall i :: 0 <= i < |call.args| ==> f.elems[i + 1] == c.write(call.args[i])
  {
  }

  /** Reading back values written by `WriteVals`, whatever follows them. */
  lemma {:induction false} ReadValsOfWriteVals<V(!new)>(c: ValueCodec<V>, pre: seq<Elem<V>>, vs: seq<V>, post: seq<Elem<V>>)
    requires Coherent(c)
    ensures ReadVals(c, pre + WriteVals(c, vs) + post, |pre|, |vs|) == Ok(vs)
    decreases |vs|
  {
    if vs != [] {
      var s := pre + WriteVals(c, vs) + post;
      assert s == (pre + [c.write(vs[0])]) + WriteVals(c, vs[1..]) + post;
      ReadValsOfWriteVals(c, pre + [c.write(vs[0])], vs[1..], post);
      assert s[|pre|] == c.write(vs[0]);
      assert [vs[0]] + vs[1..] == vs;
    }
  }

  /**
   * Round trip for every method Call: decoding its encoding gives the Call
   * back, and elements after the encoding are never read.
   */
  lemma MethodCallRoundTrip<V(!new)>(c: ValueCodec<V>, iface: Interface, call: Call<V>, trailing: seq<Elem<V>>)
    requires Coherent(c)
    requires |iface| < TWO_64 && WellFormedCall(iface, call) && call.Method?
    ensures DecodeCall(c, iface, EncodeCall(c, iface, call).elems + trailing) == Ok(call)
  {
    var s := EncodeCall(c, iface, call).elems + trailing;
    var n := |call.args|;
    assert s == [Num(call.index)] + WriteVals(c, call.args) + ([Num(call.id)] + trailing);
    ReadValsOfWriteVals(c, [Num(call.index)], call.args, [Num(call.id)] + trailing);
    assert s[n + 1] == Num(call.id);
  }

  /**
   * A truncated method Call is rejected: cutting the encoding of a Call
   * with at least its index left makes decoding report the first missing
   * position as `invalid_length`.
   */
  lemma TruncatedMethodCallRejected<V(!new)>(c: ValueCodec<V>, iface: Interface, call: Call<V>, keep: nat)
    requires Coherent(c)
    requires |iface| < TWO_64 && WellFormedCall(iface, call) && call.Method?
    requires 1 <= keep < |EncodeCall(c, iface, call).elems|
    ensures DecodeCall(c, iface, EncodeCall(c, iface, call).elems[..keep]) == Err(InvalidLength(keep))
  {
    var s := EncodeCall(c, iface, call).elems[..keep];
    var n := |call.args|;
    assert s[0] == Num(call.index);
    if keep <= n {
      forall i | 1 <= i < |s| ensures c.read(s[i]).Some? {
        assert s[i] == c.write(call.args[i - 1]);
      }
      TruncatedValsRejected(c, s, 1, n);
    } else {
      ReadValsPrefix(c, iface, call, keep);
    }
  }

  /** A run of `n` values cut short at the end of `s` reports the end position. */
  lemma {:induction false} TruncatedValsRejected<V>(c: ValueCodec<V>, s: seq<Elem<V>>, from: nat, n: nat)
    requires from <= |s| < from + n
    requires forall i :: from <= i < |s| ==> c.read(s[i]).Some?
    ensures ReadVals(c, s, from, n) == Err(InvalidLength(|s|))
    decreases n
  {
    if from < |s| {
      TruncatedValsRejected(c, s, from + 1, n - 1);
    }
  }

  /** The arguments of an encoded Call are read back from any prefix that holds them all. */
  lemma ReadValsPrefix<V(!new)>(c: ValueCodec<V>, iface: Interface, call: Call<V>, keep: nat)
    requires Coherent(c)
    requires |iface| < TWO_64 && WellFormedCall(iface, call) && call.Method?
    requires |call.args| + 1 <= keep <= |EncodeCall(c, iface, call).elems|
    ensures ReadVals(c, EncodeCall(c, iface, call).elems[..keep], 1, |call.args|) == Ok(call.args)
  {
    var full := EncodeCall(c, iface, call).elems;
    var s := full[..keep];
    assert s == [Num(call.index)] + WriteVals(c, call.args) + full[|call.args| + 1..keep];
    ReadValsOfWriteVals(c, [Num(call.index)], call.args, full[|call.args| + 1..keep]);
  }

  /**
   * Every leading number that is not a method index selects the relay
   * variant: such a frame never decodes as a method Call.
   */
  lemma NonMethodIndexIsRelay<V>(c: ValueCodec<V>, iface: Interface, s: seq<Elem<V>>)
    requires |s| > 0 && s[0].Num? && s[0].n >= |iface|
    ensures DecodeCall(c, iface, s).Ok? ==> DecodeCall(c, iface, s).value.Relay?
    ensures DecodeCall(c, iface, s).Ok? <==>
      |s| >= 2 && s[1].Nested? && DecodeResponse(c, iface, s[1].elems).Ok?
    ensures DecodeCall(c, iface, s).Ok? ==>
      DecodeCall(c, iface, s) == Ok(Relay(DecodeResponse(c, iface, s[1].elems).value))
  {
  }

  /**
   * A relay Call is written as the method count followed by the nested
   * Response, so decoding it gives back exactly what decoding that nested
   * Response gives, wrapped as a relay.
   */
  lemma RelayCallDecodesThroughResponse<V>(c: ValueCodec<V>, iface: Interface, r: Response<V>)
    requires |iface| < TWO_64 && WellFormedResponse(iface, r)
    ensures var s := EncodeCall(c, iface, Relay(r)).elems;
      && s[0] == Num(|iface|)
      && DecodeCall(c, iface, s) == match DecodeResponse(c, iface, EncodeResponse(c, r).elems)
         case Ok(d) => Ok(Relay(d))
         case Err(e) => Err(e)
  {
  }

  // ---------------------------------------------------------------------
  // Properties of the Response encoding and decoding
  // ---------------------------------------------------------------------

  /**
   * The Response visitor accepts a frame exactly when its first element is
   * a method index, its second reads as a value and its third is a number;
   * it then uses the first element both as the variant and as the call id.
   */
  lemma DecodeResponseAccepts<V>(c: ValueCodec<V>, iface: Interface, s: seq<Elem<V>>)
    ensures DecodeResponse(c, iface, s).Ok? <==>
      |s| >= 3 && s[0].Num? && s[0].n < |iface| && c.read(s[1]).Some? && s[2].Num?
    ensures DecodeResponse(c, iface, s).Ok? ==>
      DecodeResponse(c, iface, s) == Ok(Response(s[0].n, c.read(s[1]).value, s[2].n, s[0].n))
  {
  }

  /** A leading index at or past the method count is `invalid_length(0)`. */
  lemma DecodeResponseRejectsIndex<V>(c: ValueCodec<V>, iface: Interface, s: seq<Elem<V>>)
    requires |s| > 0 && s[0].Num? && s[0].n >= |iface|
    ensures DecodeResponse(c, iface, s) == Err(InvalidLength(0))
  {
  }

  /**
   * Where each Response field is written and where the visitor looks for
   * it: the serializer puts the call id at position 0, idx at 1 and the
   * data at 2; the visitor takes both the variant and the call id from
   * position 0, the data from position 1 and idx from position 2. The
   * positions of idx and the data are exchanged between the two sides.
   */
  lemma ResponseFieldPositions<V>(c: ValueCodec<V>, iface: Interface, r: Response<V>, s: seq<Elem<V>>)
    ensures var w := EncodeResponse(c, r).elems;
      |w| == 3 && w[0] == Num(r.id) && w[1] == Num(r.idx) && w[2] == c.write(r.data)
    ensures DecodeResponse(c, iface, s).Ok? ==>
      var d := DecodeResponse(c, iface, s).value;
      && |s| >= 3 && s[0] == Num(d.variant) && s[0] == Num(d.id)
      && c.read(s[1]) == Some(d.data) && s[2] == Num(d.idx)
  {
  }

  /**
   * As written, decoding an encoded Response takes its call id as the
   * method index, reads the data from the idx element and the idx from the
   * data element: it either fails or gives data and idx swapped. It gives
   * the Response back only when its variant equals its id and its data is
   * written as the very number that is its idx.
   */
  lemma EncodedResponseMisread<V(!new)>(c: ValueCodec<V>, iface: Interface, r: Response<V>)
    requires Coherent(c)
    ensures var d := DecodeResponse(c, iface, EncodeResponse(c, r).elems);
      && (r.id >= |iface| ==> d == Err(InvalidLength(0)))
      && (d.Ok? <==> r.id < |iface| && c.read(Num(r.idx)).Some? && c.write(r.data).Num?)
      && (d.Ok? ==> d.value == Response(r.id, c.read(Num(r.idx)).value, c.write(r.data).n, r.id))
      && (d == Ok(r) ==> r.variant == r.id && c.write(r.data) == Num(r.idx))
  {
    var d := DecodeResponse(c, iface, EncodeResponse(c, r).elems);
    if d == Ok(r) {
      assert c.read(Num(r.idx)) == Some(r.data);
      assert c.read(c.write(r.data)) == Some(r.data);
    }
  }

  /**
   * As written, a codec that reads no number as a value (every item type
   * non-numeric) rejects every encoded Response.
   */
  lemma EncodedResponseRejected<V>(c: ValueCodec<V>, iface: Interface, r: Response<V>)
    requires c.read(Num(r.idx)).None?
    ensures DecodeResponse(c, iface, EncodeResponse(c, r).elems) ==
      if r.id < |iface| then Err(InvalidType) else Err(InvalidLength(0))
  {
  }

  /** A codec for `u64` values, written as numbers, as serde writes a `u64` item. */
  function NumericCodec(): (c: ValueCodec<u64>)
    ensures forall v: u64 :: c.write(v) == Num(v)
  {
    ValueCodec((v: u64) => Num(v), (e: Elem<u64>) => if e.Num? then Some(e.n) else None)
  }

  /**
   * As written, with a `u64` item type the Response `m0(5, 0, 0)` of a
   * one-method interface is written as `[0, 0, 5]` and read back as
   * `m0(0, 5, 0)`: data and idx swapped, with no error.
   */
  lemma NumericResponseSwapped()
    ensures var iface := [Procedure([], false, "m0", "u64")];
      DecodeResponse(NumericCodec(), iface, EncodeResponse(NumericCodec(), Response(0, 5, 0, 0)).elems)
        == Ok(Response(0, 0, 5, 0))
  {
    var s := EncodeResponse(NumericCodec(), Response(0, 5, 0, 0)).elems;
    assert s == [Num(0), Num(0), Num(5)];
  }

  /**
   * As written, the relay variant therefore survives encoding only in the
   * degenerate case of `EncodedResponseMisread`.
   */
  lemma RelayCallMisread<V(!new)>(c: ValueCodec<V>, iface: Interface, r: Response<V>)
    requires Coherent(c)
    requires |iface| < TWO_64 && WellFormedResponse(iface, r)
    ensures DecodeCall(c, iface, EncodeCall(c, iface, Relay(r)).elems) == Ok(Relay(r)) ==>
      r.variant == r.id && c.write(r.data) == Num(r.idx)
  {
    RelayCallDecodesThroughResponse(c, iface, r);
    EncodedResponseMisread(c, iface, r);
  }

  /**
   * As written, the relay variant declares four elements and writes two.
   */
  lemma RelayLengthHintMismatch<V>(c: ValueCodec<V>, iface: Interface, r: Response<V>)
    requires |iface| < TWO_64 && WellFormedResponse(iface, r)
    ensures EncodeCall(c, iface, Relay(r)).lengthHint == 4
    ensures |EncodeCall(c, iface, Relay(r)).elems| == 2
  {
  }

  // ---------------------------------------------------------------------
  // Corrected definitions
  // ---------------------------------------------------------------------

  /** The declared length with the relay variant's hint fixed to the two elements it writes. */
  function CorrectedCallLengthHint<V>(c: ValueCodec<V>, iface: Interface, call: Call<V>): (hint: nat)
    requires |iface| < TWO_64 && WellFormedCall(iface, call)
    ensures hint == |EncodeCall(c, iface, call).elems|
  {
    match call
    case Method(_, args, _) => |args| + 2
    case Relay(_) => 2
  }

  /**
   * A Response visitor that reads the fields in the order the serializer
   * writes them, `[call-id, idx, data]`, and takes the variant from `idx`,
   * which is where the dispatch shim puts the method index.
   */
  function CorrectedDecodeResponse<V>(c: ValueCodec<V>, iface: Interface, s: seq<Elem<V>>): (r: Result<Response<V>, DecodeError>)
    ensures r.Ok? ==> WellFormedResponse(iface, r.value) && r.value.idx == r.value.variant
  {
    match ReadNum(s, 0, 0)
    case Err(e) => Err(e)
    case Ok(id) =>
      match ReadNum(s, 1, 1)
      case Err(e) => Err(e)
      case Ok(idx) =>
        if |s| < 3 then Err(InvalidLength(2))
        else match c.read(s[2])
          case None => Err(InvalidType)
          case Some(data) =>
            if idx < |iface| then Ok(Response(idx, data, idx, id))
            else Err(InvalidLength(1))
  }

  /**
   * Round trip of the corrected visitor for every Response the shim
   * produces (fragment index equal to the method index).
   */
  lemma CorrectedResponseRoundTrip<V(!new)>(c: ValueCodec<V>, iface: Interface, r: Response<V>)
    requires Coherent(c)
    requires WellFormedResponse(iface, r) && r.idx == r.variant
    ensures CorrectedDecodeResponse(c, iface, EncodeResponse(c, r).elems) == Ok(r)
  {
    assert c.read(c.write(r.data)) == Some(r.data);
  }
}
