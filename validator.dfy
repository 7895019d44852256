/**
 * The `#[protocol]` attribute's check of a service trait: it rejects a
 * malformed trait with the first error found, in a fixed order, and
 * otherwise builds the interface description (one Procedure per method).
 *
 * The trait is modelled after parsing: only what the checks look at is kept.
 */
module Validator {
  import opened ProtocolTypes

  /** A method parameter as the parser classifies it. */
  datatype FnArg =
    | SelfValue                 // `self` / `mut self`
    | SelfRef(mutable: bool)    // `&self` / `&mut self`
    | Captured(ty: string)      // `name: Type`
    | Inferred                  // a pattern without a type
    | Ignored(ty: string)       // a bare type

  datatype MethodSig = MethodSig(
    name: string,
    hasDefault: bool,
    genericParams: nat,
    hasWhereClause: bool,
    output: Option<string>,
    inputs: seq<FnArg>)

  /** A trait item: a method, or anything else (constant, type, macro). */
  datatype TraitItem = MethodItem(sig: MethodSig) | OtherItem

  datatype TraitDecl = TraitDecl(name: string, genericParams: nat, supertraits: nat, items: seq<TraitItem>)

  /** The reasons a single trait item is rejected, in the order they are checked. */
  datatype ItemError =
    | NamedRemote
    | NamedIntoProtocol
    | DefaultBody
    | GenericMethod
    | WhereClause
    | ConsumesSelf
    | InferredOrIgnoredArgument
    | NoReceiver
    | ExpectedMethod

  datatype ProtocolError =
    | UnexpectedArguments
    | GenericTrait
    | Supertraits
    | InItem(index: nat, error: ItemError)
    | NoMethods

  /** What the scan of a method's parameters has collected so far. */
  datatype ArgScan = ArgScan(argTypes: seq<string>, mutReceiver: bool, hasReceiver: bool)

  // ---------------------------------------------------------------------
  // The check, as functions (the method `Protocol` below runs it)
  // ---------------------------------------------------------------------

  /**
   * One parameter: a receiver by reference or a typed parameter is
   * accepted, anything else rejected; a typed parameter adds its type to
   * the argument types, a receiver does not.
   */
  function ScanArg(acc: ArgScan, a: FnArg): (r: Result<ArgScan, ItemError>)
    ensures r.Ok? <==> a.SelfRef? || a.Captured?
    ensures r.Ok? ==> r.value.argTypes == acc.argTypes + (if a.Captured? then [a.ty] else [])
  {
    match a
    case SelfValue => Err(ConsumesSelf)
    case SelfRef(m) => Ok(acc.(mutReceiver := acc.mutReceiver || m, hasReceiver := true))
    case Captured(ty) => Ok(acc.(argTypes := acc.argTypes + [ty]))
    case Inferred => Err(InferredOrIgnoredArgument)
    case Ignored(_) => Err(InferredOrIgnoredArgument)
  }

  /** The parameters scanned left to right; the first rejected one wins. */
  function ScanArgs(inputs: seq<FnArg>): (r: Result<ArgScan, ItemError>)
    ensures r.Ok? ==> |r.value.argTypes| + (if r.value.hasReceiver then 1 else 0) <= |inputs|
    ensures r.Ok? && r.value.mutReceiver ==> r.value.hasReceiver
  {
    if inputs == [] then Ok(ArgScan([], false, false))
    else match ScanArgs(inputs[..|inputs| - 1])
      case Err(e) => Err(e)
      case Ok(acc) => ScanArg(acc, inputs[|inputs| - 1])
  }

  /**
   * One method: accepted only under a name other than the two reserved
   * ones, and it then becomes a procedure of that name whose argument
   * types leave out the receiver.
   */
  function CheckMethod(sig: MethodSig): (r: Result<Procedure, ItemError>)
    ensures r.Ok? ==> r.value.ident == sig.name && sig.name != "remote" && sig.name != "into_protocol"
    ensures r.Ok? ==> |r.value.argTypes| < |sig.inputs|
  {
    if sig.name == "remote" then Err(NamedRemote)
    else if sig.name == "into_protocol" then Err(NamedIntoProtocol)
    else if sig.hasDefault then Err(DefaultBody)
    else if sig.genericParams != 0 then Err(GenericMethod)
    else if sig.hasWhereClause then Err(WhereClause)
    else match ScanArgs(sig.inputs)
      case Err(e) => Err(e)
      case Ok(scan) =>
        if !scan.hasReceiver then Err(NoReceiver)
        else Ok(Procedure(scan.argTypes, scan.mutReceiver, sig.name,
                          match sig.output case None => UNIT_TYPE case Some(t) => t))
  }

  function CheckItem(item: TraitItem): (r: Result<Procedure, ItemError>)
    ensures r.Ok? ==> item.MethodItem? && r.value.ident == item.sig.name
  {
    match item
    case MethodItem(sig) => CheckMethod(sig)
    case OtherItem => Err(ExpectedMethod)
  }

  /** The items checked in order; the first rejected one wins. */
  function CheckItems(items: seq<TraitItem>): (r: Result<Interface, ProtocolError>)
    ensures r.Ok? ==> |r.value| == |items|
    ensures r.Ok? ==> forall i :: 0 <= i < |items| ==> items[i].MethodItem? && r.value[i].ident == items[i].sig.name
    ensures r.Err? ==> r.error.InItem? && r.error.index < |items|
  {
    if items == [] then Ok([])
    else match CheckItems(items[..|items| - 1])
      case Err(e) => Err(e)
      case Ok(ps) =>
        match CheckItem(items[|items| - 1])
        case Err(e) => Err(InItem(|items| - 1, e))
        case Ok(p) => Ok(ps + [p])
  }

  /**
   * The whole check: an accepted trait has no attribute arguments and
   * gives one procedure per item, at least one.
   */
  function Validate(hasArguments: bool, decl: TraitDecl): (r: Result<Interface, ProtocolError>)
    ensures r.Ok? ==> !hasArguments && |r.value| == |decl.items| > 0
  {
    if hasArguments then Err(UnexpectedArguments)
    else if decl.genericParams != 0 then Err(GenericTrait)
    else if decl.supertraits != 0 then Err(Supertraits)
    else match CheckItems(decl.items)
      case Err(e) => Err(e)
      case Ok(ps) => if ps == [] then Err(NoMethods) else Ok(ps)
  }

  // ---------------------------------------------------------------------
  // The check as the attribute runs it: a loop over the items with an
  // inner loop over each method's parameters and early-return errors
  // ---------------------------------------------------------------------

  /**
   * The inner loop of the check: a method's parameters left to right,
   * collecting the captured types and noting the receiver, stopping at the
   * first parameter that is rejected.
   */
  method ScanParameters(inputs: seq<FnArg>) returns (r: Result<ArgScan, ItemError>)
    ensures r == ScanArgs(inputs)
  {
    var argTypes: seq<string> := [];
    var mutReceiver := false;
    var hasReceiver := false;
    var argIndex := 0;
    while argIndex < |inputs|
      invariant 0 <= argIndex <= |inputs|
      invariant ScanArgs(inputs[..argIndex]) == Ok(ArgScan(argTypes, mutReceiver, hasReceiver))
    {
      var argument := inputs[argIndex];
      assert inputs[..argIndex + 1][..argIndex] == inputs[..argIndex];
      if argument.SelfValue? {
        ScanArgsErrorPersists(inputs, argIndex + 1);
        return Err(ConsumesSelf);
      } else if argument.SelfRef? {
        if argument.mutable {
          mutReceiver := true;
        }
        hasReceiver := true;
      } else if argument.Captured? {
        argTypes := argTypes + [argument.ty];
      } else {
        ScanArgsErrorPersists(inputs, argIndex + 1);
        return Err(InferredOrIgnoredArgument);
      }
      argIndex := argIndex + 1;
    }
    assert inputs[..argIndex] == inputs;
    return Ok(ArgScan(argTypes, mutReceiver, hasReceiver));
  }

  method Protocol(hasArguments: bool, decl: TraitDecl) returns (r: Result<Interface, ProtocolError>)
    ensures r == Validate(hasArguments, decl)
  {
    if hasArguments {
      return Err(UnexpectedArguments);
    }
    if decl.genericParams != 0 {
      return Err(GenericTrait);
    }
    if decl.supertraits != 0 {
      return Err(Supertraits);
    }
    var procedures: seq<Procedure> := [];
    var index := 0;
    while index < |decl.items|
      invariant 0 <= index <= |decl.items|
      invariant CheckItems(decl.items[..index]) == Ok(procedures)
    {
      var item := decl.items[index];
      assert decl.items[..index + 1][..index] == decl.items[..index];
      if item.OtherItem? {
        CheckItemsErrorPersists(decl.items, index + 1);
        return Err(InItem(index, ExpectedMethod));
      }
      var sig := item.sig;
      var early: Option<ItemError> := None;
      if sig.name == "remote" {
        early := Some(NamedRemote);
      } else if sig.name == "into_protocol" {
        early := Some(NamedIntoProtocol);
      } else if sig.hasDefault {
        early := Some(DefaultBody);
      } else if sig.genericParams != 0 {
        early := Some(GenericMethod);
      } else if sig.hasWhereClause {
        early := Some(WhereClause);
      }
      if early.Some? {
        CheckItemsErrorPersists(decl.items, index + 1);
        return Err(InItem(index, early.value));
      }
      var returnType := match sig.output case None => UNIT_TYPE case Some(t) => t;
      var scan := ScanParameters(sig.inputs);
      if scan.Err? {
        CheckItemsErrorPersists(decl.items, index + 1);
        return Err(InItem(index, scan.error));
      }
      if !scan.value.hasReceiver {
        CheckItemsErrorPersists(decl.items, index + 1);
        return Err(InItem(index, NoReceiver));
      }
      procedures := procedures + [Procedure(scan.value.argTypes, scan.value.mutReceiver, sig.name, returnType)];
      index := index + 1;
    }
    assert decl.items[..index] == decl.items;
    if procedures == [] {
      return Err(NoMethods);
    }
    return Ok(procedures);
  }

  /** Once a prefix of the parameters is rejected, so are all of them, with the same error. */
  lemma {:induction false} ScanArgsErrorPersists(inputs: seq<FnArg>, n: nat)
    requires n <= |inputs| && ScanArgs(inputs[..n]).Err?
    ensures ScanArgs(inputs) == ScanArgs(inputs[..n])
    decreases |inputs| - n
  {
    if n < |inputs| {
      assert inputs[..n + 1][..n] == inputs[..n];
      ScanArgsErrorPersists(inputs, n + 1);
    } else {
      assert inputs[..n] == inputs;
    }
  }

  /** Once a prefix of the items is rejected, so is the whole trait body, with the same error. */
  lemma {:induction false} CheckItemsErrorPersists(items: seq<TraitItem>, n: nat)
    requires n <= |items| && CheckItems(items[..n]).Err?
    ensures CheckItems(items) == CheckItems(items[..n])
    decreases |items| - n
  {
    if n < |items| {
      assert items[..n + 1][..n] == items[..n];
      CheckItemsErrorPersists(items, n + 1);
    } else {
      assert items[..n] == items;
    }
  }

  // ---------------------------------------------------------------------
  // An independent description of what is accepted and what is built
  // ---------------------------------------------------------------------

  predicate ArgAccepted(a: FnArg)
  {
    a.SelfRef? || a.Captured?
  }

  predicate MethodAccepted(sig: MethodSig)
  {
    && sig.name != "remote"
    && sig.name != "into_protocol"
    && !sig.hasDefault
    && sig.genericParams == 0
    && !sig.hasWhereClause
    && (forall i :: 0 <= i < |sig.inputs| ==> ArgAccepted(sig.inputs[i]))
    && (exists i :: 0 <= i < |sig.inputs| && sig.inputs[i].SelfRef?)
  }

  /** A trait the attribute accepts: no arguments, no generics, no supertraits, only acceptable methods, at least one. */
  predicate TraitAccepted(hasArguments: bool, decl: TraitDecl)
  {
    && !hasArguments
    && decl.genericParams == 0
    && decl.supertraits == 0
    && |decl.items| > 0
    && forall k :: 0 <= k < |decl.items| ==> decl.items[k].MethodItem? && MethodAccepted(decl.items[k].sig)
  }

  /** The types of the captured (`name: Type`) parameters, in order. */
  function CapturedTypes(inputs: seq<FnArg>): seq<string>
  {
    if inputs == [] then []
    else (if inputs[0].Captured? then [inputs[0].ty] else []) + CapturedTypes(inputs[1..])
  }

  predicate HasMutSelfRef(inputs: seq<FnArg>)
  {
    exists i :: 0 <= i < |inputs| && inputs[i] == SelfRef(true)
  }

  /** The procedure an accepted method stands for. */
  function ExpectedProcedure(sig: MethodSig): Procedure
  {
    Procedure(CapturedTypes(sig.inputs), HasMutSelfRef(sig.inputs), sig.name,
              if sig.output.None? then UNIT_TYPE else sig.output.value)
  }

  lemma {:induction false} CapturedTypesAppend(inputs: seq<FnArg>, a: FnArg)
    ensures CapturedTypes(inputs + [a]) == CapturedTypes(inputs) + (if a.Captured? then [a.ty] else [])
  {
    if inputs != [] {
      assert (inputs + [a])[1..] == inputs[1..] + [a];
      CapturedTypesAppend(inputs[1..], a);
    } else {
      assert CapturedTypes([a]) == (if a.Captured? then [a.ty] else []) + CapturedTypes([]);
    }
  }

  /**
   * The parameter scan accepts exactly the parameter lists made of `&self`,
   * `&mut self` and captured parameters; it then collects the captured
   * types in order, notes whether there is a receiver and whether some
   * receiver is `&mut self`.
   */
  lemma {:induction false} ScanArgsMeaning(inputs: seq<FnArg>)
    ensures ScanArgs(inputs).Ok? <==> forall i :: 0 <= i < |inputs| ==> ArgAccepted(inputs[i])
    ensures ScanArgs(inputs).Ok? ==> ScanArgs(inputs).value == ArgScan(
      CapturedTypes(inputs),
      HasMutSelfRef(inputs),
      exists i :: 0 <= i < |inputs| && inputs[i].SelfRef?)
  {
    if inputs != [] {
      var init, last := inputs[..|inputs| - 1], inputs[|inputs| - 1];
      assert inputs == init + [last];
      ScanArgsMeaning(init);
      CapturedTypesAppend(init, last);
      if ScanArgs(inputs).Ok? {
        assert forall i :: 0 <= i < |init| ==> init[i] == inputs[i];
        if last.SelfRef? {
          assert inputs[|inputs| - 1].SelfRef?;
          if last.mutable {
            assert inputs[|inputs| - 1] == SelfRef(true);
          }
        }
        if HasMutSelfRef(inputs) {
          var i :| 0 <= i < |inputs| && inputs[i] == SelfRef(true);
          if i < |init| { assert init[i] == SelfRef(true); }
        }
        if exists i :: 0 <= i < |inputs| && inputs[i].SelfRef? {
          var i :| 0 <= i < |inputs| && inputs[i].SelfRef?;
          if i < |init| { assert init[i].SelfRef?; }
        }
      } else if ScanArgs(init).Err? {
        var i :| 0 <= i < |init| && !ArgAccepted(init[i]);
        assert inputs[i] == init[i];
      } else {
        assert !ArgAccepted(inputs[|inputs| - 1]);
      }
    }
  }

  /** A method is accepted exactly when it meets every rule, and it then becomes its expected procedure. */
  lemma CheckMethodMeaning(sig: MethodSig)
    ensures CheckMethod(sig).Ok? <==> MethodAccepted(sig)
    ensures CheckMethod(sig).Ok? ==> CheckMethod(sig).value == ExpectedProcedure(sig)
  {
    ScanArgsMeaning(sig.inputs);
  }

  /**
   * The item loop builds one procedure per item, in order, when every item
   * is accepted; otherwise it reports the first rejected item, by index,
   * with that item's own error.
   */
  lemma {:induction false} CheckItemsMeaning(items: seq<TraitItem>)
    ensures CheckItems(items).Ok? <==> forall k :: 0 <= k < |items| ==> CheckItem(items[k]).Ok?
    ensures CheckItems(items).Ok? ==>
      |CheckItems(items).value| == |items| &&
      forall k :: 0 <= k < |items| ==> CheckItems(items).value[k] == CheckItem(items[k]).value
    ensures CheckItems(items).Err? ==>
      && CheckItems(items).error.InItem?
      && var k := CheckItems(items).error.index;
      && k < |items|
      && CheckItem(items[k]) == Err(CheckItems(items).error.error)
      && forall j :: 0 <= j < k ==> CheckItem(items[j]).Ok?
  {
    if items != [] {
      var init := items[..|items| - 1];
      assert forall j :: 0 <= j < |init| ==> init[j] == items[j];
      CheckItemsMeaning(init);
    }
  }

  /**
   * The attribute accepts exactly the traits that meet every rule, and then
   * builds one procedure per method, in declaration order: its argument
   * types are the captured parameter types in order, its receiver is
   * mutable exactly when it is `&mut self`, and its return type is `()`
   * when none is written.
   */
  lemma ValidateMeaning(hasArguments: bool, decl: TraitDecl)
    ensures Validate(hasArguments, decl).Ok? <==> TraitAccepted(hasArguments, decl)
    ensures Validate(hasArguments, decl).Ok? ==>
      && |Validate(hasArguments, decl).value| == |decl.items| > 0
      && forall k :: 0 <= k < |decl.items| ==>
        Validate(hasArguments, decl).value[k] == ExpectedProcedure(decl.items[k].sig)
  {
    CheckItemsMeaning(decl.items);
    forall k | 0 <= k < |decl.items|
      ensures CheckItem(decl.items[k]).Ok? <==> decl.items[k].MethodItem? && MethodAccepted(decl.items[k].sig)
      ensures CheckItem(decl.items[k]).Ok? ==> CheckItem(decl.items[k]).value == ExpectedProcedure(decl.items[k].sig)
    {
      if decl.items[k].MethodItem? {
        CheckMethodMeaning(decl.items[k].sig);
      }
    }
  }

  /**
   * The first error wins: the whole-trait checks come first (arguments,
   * then generics, then supertraits), then the items in order, and an empty
   * method list is reported only when every other check passed.
   */
  lemma ValidateErrorOrder(hasArguments: bool, decl: TraitDecl)
    ensures hasArguments ==> Validate(hasArguments, decl) == Err(UnexpectedArguments)
    ensures !hasArguments && decl.genericParams != 0 ==> Validate(hasArguments, decl) == Err(GenericTrait)
    ensures !hasArguments && decl.genericParams == 0 && decl.supertraits != 0 ==>
      Validate(hasArguments, decl) == Err(Supertraits)
    ensures Validate(hasArguments, decl) == Err(NoMethods) <==>
      !hasArguments && decl.genericParams == 0 && decl.supertraits == 0 && decl.items == []
    ensures Validate(hasArguments, decl).Err? && Validate(hasArguments, decl).error.InItem? ==>
      && var k := Validate(hasArguments, decl).error.index;
      && k < |decl.items|
      && CheckItem(decl.items[k]) == Err(Validate(hasArguments, decl).error.error)
      && forall j :: 0 <= j < k ==> CheckItem(decl.items[j]).Ok?
  {
    CheckItemsMeaning(decl.items);
  }
}
