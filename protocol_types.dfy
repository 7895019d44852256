/**
 * The shapes shared by every part of the protocol runtime that the
 * `#[protocol]` attribute derives from a service trait: the interface
 * description (one `Procedure` per trait method), the `Call` and `Response`
 * messages and the field lists of their per-method variants.
 *
 * The runtime is modelled once, generically: an interface is a sequence of
 * procedures, a method is named by its position in that sequence, and every
 * argument or result value is an element of the type parameter `V`.
 */
module ProtocolTypes {

  /** 2^64: Rust's `u64` holds the integers in [0, TWO_64). */
  const TWO_64: int := 0x1_0000_0000_0000_0000

  type u64 = x: int | 0 <= x < TWO_64

  datatype Option<T> = None | Some(value: T)

  datatype Result<T, E> = Ok(value: T) | Err(error: E)

  /** The type of a method that declares no return type. */
  const UNIT_TYPE: string := "()"

  /**
   * One remote-callable method: its argument types in order, whether its
   * receiver is `&mut self`, its name and its return type (type names are
   * kept as their source text).
   */
  datatype Procedure = Procedure(argTypes: seq<string>, mutReceiver: bool, ident: string, returnType: string)

  /** An interface description: the methods in declaration order. */
  type Interface = seq<Procedure>

  /**
   * `Response::m(data, idx, id)`: one variant per method, holding an item of
   * the method's return value, the fragment index `idx` and the call
   * identifier `id`. The variant `m` is kept as its method index `variant`;
   * the item is a value of `V`.
   */
  datatype Response<V> = Response(variant: u64, data: V, idx: u64, id: u64)

  /**
   * `Call_Inner`: one variant per method, carrying the arguments followed by
   * the call identifier, plus the in-band relay variant that wraps a Response.
   */
  datatype Call<V> = Method(index: u64, args: seq<V>, id: u64) | Relay(response: Response<V>)

  /**
   * The field types of a method's `Call_Inner` variant: its argument types
   * followed by the `u64` call identifier.
   */
  function CallVariantFields(p: Procedure): (fields: seq<string>)
    ensures |fields| == |p.argTypes| + 1
    ensures fields[..|p.argTypes|] == p.argTypes && fields[|p.argTypes|] == "u64"
  {
    p.argTypes + ["u64"]
  }

  /**
   * The field lists of the per-method variants of `Call_Inner`, one per
   * method in order (the relay variant is not included).
   */
  function CallVariants(iface: Interface): (variants: seq<seq<string>>)
    ensures |variants| == |iface|
    ensures forall k :: 0 <= k < |iface| ==> variants[k] == CallVariantFields(iface[k])
  {
    if iface == [] then [] else [CallVariantFields(iface[0])] + CallVariants(iface[1..])
  }

  /** A Response whose variant names a method of the interface. */
  predicate WellFormedResponse(iface: Interface, r: Response)
  {
    r.variant < |iface|
  }

  /**
   * A Call that the generated `Call_Inner` type can hold: a method variant
   * fills every field of its variant (arguments, then the id), a relay
   * wraps a well-formed Response.
   */
  predicate WellFormedCall(iface: Interface, c: Call)
  {
    match c
    case Method(k, args, _) => k < |iface| && |args| + 1 == |CallVariants(iface)[k]|
    case Relay(r) => WellFormedResponse(iface, r)
  }
}
