/**
 * The double trait generator of the `double-derive` crate: mirror the
 * original trait under a new name and give every method that lacks a body
 * the body `unimplemented!()` (or `async { unimplemented!() }` when it
 * returns `impl …`), with its parameter patterns replaced by `_`.
 *
 * The async body is obtained by parsing a fixed token template with `syn`;
 * whether that parse succeeds is the parameter `asyncBlockParses`, and a
 * failure turns into the only error the generator reports.
 */
module DoubleTrait {
  import opened Wrappers
  import opened Syntax
  import opened Iter

  /** The message of the error reported when the `impl` template does not parse. */
  const ImplTraitUnsupported: string :=
    "impl Trait is currently not supported by double-derive. Apart from the special case of impl Future."

  /**
   * The return-type classification: the method returns `impl …`. Every bound
   * counts, so `impl Iterator<…>` is treated like `impl Future<…>`.
   */
  predicate IsMaybeImplFuture(output: ReturnType)
    ensures IsMaybeImplFuture(output) <==> output.Arrow? && output.ty.ImplTrait?
  {
    match output
    case Arrow(ImplTrait(_)) => true
    case _ => false
  }

  /** The body synthesised for a method without one, chosen by its return type alone. */
  function SynthesizedBody(output: ReturnType): (b: Body)
    ensures b == AsyncUnimplemented <==> IsMaybeImplFuture(output)
    ensures b == Unimplemented <==> !IsMaybeImplFuture(output)
  {
    if IsMaybeImplFuture(output) then AsyncUnimplemented else Unimplemented
  }

  /** A method the generator must give the async body, i.e. the one case that can fail. */
  predicate NeedsAsyncBody(f: TraitItemFn)
  {
    f.default.None? && IsMaybeImplFuture(f.sig.output)
  }

  function StripArg(arg: FnArg): FnArg
  {
    match arg
    case Receiver(_) => arg
    case Typed(_, ty) => Typed(Wild, ty)
  }

  /** The parameter list with every typed parameter's pattern replaced by `_`. */
  function StrippedInputs(inputs: seq<FnArg>): (r: seq<FnArg>)
    ensures |r| == |inputs|
    ensures forall i :: 0 <= i < |inputs| && inputs[i].Receiver? ==> r[i] == inputs[i]
    ensures forall i :: 0 <= i < |inputs| && inputs[i].Typed? ==> r[i] == Typed(Wild, inputs[i].ty)
  {
    Map(StripArg, inputs)
  }

  /** `strip_parameter_names`: the same replacement, in place, one parameter at a time. */
  method StripParameterNames(inputs: array<FnArg>)
    modifies inputs
    ensures inputs[..] == StrippedInputs(old(inputs[..]))
  {
    for i := 0 to inputs.Length
      invariant forall k :: 0 <= k < i ==> inputs[k] == StripArg(old(inputs[k]))
      invariant forall k :: i <= k < inputs.Length ==> inputs[k] == old(inputs[k])
    {
      if inputs[i].Typed? {
        inputs[i] := Typed(Wild, inputs[i].ty);
      }
    }
    assert forall k :: 0 <= k < inputs.Length ==> inputs[..][k] == StrippedInputs(old(inputs[..]))[k];
  }

  /** `transform_function`: give a method without a body the synthesised default. */
  function TransformFunction(fnItem: TraitItemFn, asyncBlockParses: bool): (r: Result<TraitItemFn, Error>)
    ensures fnItem.default.Some? ==> r == Ok(fnItem)
    ensures r.Err? <==> NeedsAsyncBody(fnItem) && !asyncBlockParses
    ensures r.Err? ==> r.error == Error(fnItem.sig.output, ImplTraitUnsupported)
    ensures r.Ok? ==> r.value.default.Some?
    ensures r.Ok? && fnItem.default.None? ==>
      && r.value.attrs == fnItem.attrs
      && r.value.sig.ident == fnItem.sig.ident
      && r.value.sig.isAsync == fnItem.sig.isAsync
      && r.value.sig.generics == fnItem.sig.generics
      && r.value.sig.output == fnItem.sig.output
      && r.value.sig.inputs == StrippedInputs(fnItem.sig.inputs)
      && r.value.default == Some(SynthesizedBody(fnItem.sig.output))
  {
    if fnItem.default.Some? then Ok(fnItem)
    else
      var sig := fnItem.sig.(inputs := StrippedInputs(fnItem.sig.inputs));
      if IsMaybeImplFuture(fnItem.sig.output) then
        if asyncBlockParses then Ok(fnItem.(sig := sig, default := Some(AsyncUnimplemented)))
        else Err(Error(fnItem.sig.output, ImplTraitUnsupported))
      else
        Ok(fnItem.(sig := sig, default := Some(Unimplemented)))
  }

  /** `transform_trait_item`: methods are transformed, every other item is passed through. */
  function TransformTraitItem(item: TraitItem, asyncBlockParses: bool): (r: Result<TraitItem, Error>)
    ensures !item.Fn? ==> r == Ok(item)
    ensures r.Err? <==> item.Fn? && NeedsAsyncBody(item.fnItem) && !asyncBlockParses
    ensures item.Fn? ==> r == match TransformFunction(item.fnItem, asyncBlockParses)
                              case Ok(f) => Ok(Fn(f))
                              case Err(e) => Err(e)
  {
    match item
    case Fn(f) =>
      (match TransformFunction(f, asyncBlockParses)
       case Ok(g) => Ok(Fn(g))
       case Err(e) => Err(e))
    case _ => Ok(item)
  }

  /** `double_trait`: the original trait renamed, with its items transformed one by one. */
  function DoubleTrait(doubleName: Ident, org: ItemTrait, asyncBlockParses: bool): (r: Result<ItemTrait, Error>)
    ensures r.Ok? ==>
      && r.value.ident == doubleName
      && r.value.attrs == org.attrs
      && r.value.vis == org.vis
      && r.value.isUnsafe == org.isUnsafe
      && r.value.generics == org.generics
      && r.value.supertraits == org.supertraits
      && |r.value.items| == |org.items|
  {
    match TryMap((item: TraitItem) => TransformTraitItem(item, asyncBlockParses), org.items)
    case Err(e) => Err(e)
    case Ok(items) => Ok(org.(ident := doubleName, items := items))
  }

  // ---------------------------------------------------------------------------
  // Properties of the double trait

  /** Items correspond one to one and in order to the original's. */
  lemma DoubleTraitMapsItems(doubleName: Ident, org: ItemTrait, asyncBlockParses: bool)
    requires DoubleTrait(doubleName, org, asyncBlockParses).Ok?
    ensures var d := DoubleTrait(doubleName, org, asyncBlockParses).value;
      forall i :: 0 <= i < |org.items| ==> Ok(d.items[i]) == TransformTraitItem(org.items[i], asyncBlockParses)
  {
    TryMapOk((item: TraitItem) => TransformTraitItem(item, asyncBlockParses), org.items);
  }

  /**
   * What becomes of each item: non-method items and methods with a body are
   * unchanged; a method without a body keeps its name, asyncness, generics and
   * return type, has its parameter patterns erased, and gets the synthesised body.
   */
  lemma DoubleTraitItemRules(doubleName: Ident, org: ItemTrait, asyncBlockParses: bool, i: nat)
    requires DoubleTrait(doubleName, org, asyncBlockParses).Ok? && i < |org.items|
    ensures var d := DoubleTrait(doubleName, org, asyncBlockParses).value;
      && (!org.items[i].Fn? ==> d.items[i] == org.items[i])
      && (HasDefault(org.items[i]) ==> d.items[i] == org.items[i])
      && (org.items[i].Fn? && !HasDefault(org.items[i]) ==>
            d.items[i].Fn? &&
            var f, g := org.items[i].fnItem, d.items[i].fnItem;
            && g.attrs == f.attrs
            && g.sig == f.sig.(inputs := g.sig.inputs)
            && |g.sig.inputs| == |f.sig.inputs|
            && (forall k :: 0 <= k < |f.sig.inputs| && f.sig.inputs[k].Receiver? ==> g.sig.inputs[k] == f.sig.inputs[k])
            && (forall k :: 0 <= k < |f.sig.inputs| && f.sig.inputs[k].Typed? ==>
                  g.sig.inputs[k].Typed? && g.sig.inputs[k].pat == Wild && g.sig.inputs[k].ty == f.sig.inputs[k].ty)
            && g.default == Some(if IsMaybeImplFuture(f.sig.output) then AsyncUnimplemented else Unimplemented))
  {
    DoubleTraitMapsItems(doubleName, org, asyncBlockParses);
  }

  /** After the transformation every method of the double trait has a body. */
  lemma DoubleTraitEveryMethodHasDefault(doubleName: Ident, org: ItemTrait, asyncBlockParses: bool)
    requires DoubleTrait(doubleName, org, asyncBlockParses).Ok?
    ensures var d := DoubleTrait(doubleName, org, asyncBlockParses).value;
      forall i :: 0 <= i < |d.items| && d.items[i].Fn? ==> d.items[i].fnItem.default.Some?
  {
    DoubleTraitMapsItems(doubleName, org, asyncBlockParses);
  }

  /** The generator fails exactly when the async template is needed and does not parse. */
  lemma DoubleTraitFailsIff(doubleName: Ident, org: ItemTrait, asyncBlockParses: bool)
    ensures DoubleTrait(doubleName, org, asyncBlockParses).Err? <==>
      !asyncBlockParses && exists i :: 0 <= i < |org.items| && org.items[i].Fn? && NeedsAsyncBody(org.items[i].fnItem)
  {
    TryMapOk((item: TraitItem) => TransformTraitItem(item, asyncBlockParses), org.items);
  }

  /** The error reported is the one of the first method that needed the async body. */
  lemma DoubleTraitFirstError(doubleName: Ident, org: ItemTrait, asyncBlockParses: bool)
    requires DoubleTrait(doubleName, org, asyncBlockParses).Err?
    ensures exists i :: (
      && 0 <= i < |org.items| && org.items[i].Fn? && NeedsAsyncBody(org.items[i].fnItem)
      && DoubleTrait(doubleName, org, asyncBlockParses).error == Error(org.items[i].fnItem.sig.output, ImplTraitUnsupported)
      && forall j :: 0 <= j < i ==> !(org.items[j].Fn? && NeedsAsyncBody(org.items[j].fnItem)))
  {
    TryMapFirstError((item: TraitItem) => TransformTraitItem(item, asyncBlockParses), org.items);
  }

  /** With a parser that accepts the fixed template, as `syn` does, the generator never fails. */
  lemma DoubleTraitTotal(doubleName: Ident, org: ItemTrait)
    ensures DoubleTrait(doubleName, org, true).Ok?
  {
    DoubleTraitFailsIff(doubleName, org, true);
  }

  /**
   * Running the generator on its own output changes nothing but the name:
   * every method already has a body, so nothing is rewritten and nothing can fail.
   */
  lemma DoubleTraitIdempotent(doubleName: Ident, org: ItemTrait, asyncBlockParses: bool, againName: Ident, againParses: bool)
    requires DoubleTrait(doubleName, org, asyncBlockParses).Ok?
    ensures var d := DoubleTrait(doubleName, org, asyncBlockParses).value;
      DoubleTrait(againName, d, againParses) == Ok(d.(ident := againName))
  {
    var d := DoubleTrait(doubleName, org, asyncBlockParses).value;
    DoubleTraitEveryMethodHasDefault(doubleName, org, asyncBlockParses);
    var f := (item: TraitItem) => TransformTraitItem(item, againParses);
    TryMapOk(f, d.items);
    assert forall i :: 0 <= i < |d.items| ==> f(d.items[i]) == Ok(d.items[i]);
    assert TryMap(f, d.items).value == d.items;
  }
}
