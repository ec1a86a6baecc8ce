/** The facade-fn factory (`blockz_derive/src/singleton/facade_fn.rs`): from
    the method a singleton fn is written as, it builds the associated
    function callers use. The facade keeps the name and visibility, loses its
    receiver, gains `#[inline(always)]`, and its block hands over to the
    singleton through the `use_*` call its kind selects. */
module FacadeFn {
  import opened Prelude
  import opened Syn
  import opened SingletonFns
  import opened DeriveCommon

  /** The beginning every error message of the factory shares. */
  const ErrorPrefix: string := "facade fn factory: "

  /** The error for a target without inputs. */
  function NoReceiverError(ident: string): Error {
    Error(ErrorPrefix + "remove fn receiver: target function " + ident + " should have had a receiver")
  }

  /** The error for a target whose first input is typed. */
  function TypedReceiverError(ident: string, ty: string): Error {
    Error(ErrorPrefix + "remove fn receiver: target function " + ident
          + " must have either a &self or &mut self receiver as first input, found first input: " + ty)
  }

  /** The error for a replacement block that does not parse. */
  function ReplaceBlockError(block: TokenStream): Error {
    Error(ErrorPrefix + "replace fn block: failed to parse replacement block: " + Render(block))
  }

  /** The attribute `#[inline(always)]`. */
  const InlineAlways: Attribute := Attribute("inline", [Group(Parenthesis, [Ident("always")])])

  /** `Self::<method>(<args>).await`. */
  function SelfCallAwait(name: string, args: TokenStream): (r: TokenStream)
    ensures |r| == 7
    ensures r[0] == Ident("Self") && r[3] == Ident(name)
    ensures r[4] == Group(Parenthesis, args) && r[6] == Ident("await")
  {
    Path(["Self", name]) + [Group(Parenthesis, args), Punct('.'), Ident("await")]
  }

  /** The called method and its arguments can be read back from the call. */
  lemma SelfCallAwaitInjective(m1: string, a1: TokenStream, m2: string, a2: TokenStream)
    ensures SelfCallAwait(m1, a1) == SelfCallAwait(m2, a2) <==> m1 == m2 && a1 == a2
  {
    if SelfCallAwait(m1, a1) == SelfCallAwait(m2, a2) {
      assert SelfCallAwait(m1, a1)[3] == SelfCallAwait(m2, a2)[3];
      assert SelfCallAwait(m1, a1)[4] == SelfCallAwait(m2, a2)[4];
    }
  }

  /** `build_use_singleton_stmt`. */
  function BuildUseSingletonStmt(): (r: TokenStream)
    ensures |r| == 7
    ensures r[3] == Ident("use_singleton") && r[4] == Group(Parenthesis, [])
  {
    SelfCallAwait("use_singleton", [])
  }

  /** `build_use_singleton_with_arg_stmt`: the argument's call tokens are
      passed on. */
  function BuildUseSingletonWithArgStmt(arg: SingletonFnArg): (r: TokenStream)
    ensures |r| == 7
    ensures r[3] == Ident("use_singleton_with_arg") && r[4] == Group(Parenthesis, arg.implFnCallArg)
  {
    SelfCallAwait("use_singleton_with_arg", arg.implFnCallArg)
  }

  /** `build_use_mut_singleton_stmt`. */
  function BuildUseMutSingletonStmt(): (r: TokenStream)
    ensures |r| == 7
    ensures r[3] == Ident("use_mut_singleton") && r[4] == Group(Parenthesis, [])
  {
    SelfCallAwait("use_mut_singleton", [])
  }

  /** `build_use_mut_singleton_with_arg_stmt`: the argument's call tokens are
      passed on. */
  function BuildUseMutSingletonWithArgStmt(arg: SingletonFnArg): (r: TokenStream)
    ensures |r| == 7
    ensures r[3] == Ident("use_mut_singleton_with_arg") && r[4] == Group(Parenthesis, arg.implFnCallArg)
  {
    SelfCallAwait("use_mut_singleton_with_arg", arg.implFnCallArg)
  }

  /** The `use_*` statement of a kind, as `build_facade_impl` picks it. */
  function UseStmt(kind: SingletonFnType): (r: TokenStream)
    ensures |r| == 7
  {
    match kind
    case NonMut => BuildUseSingletonStmt()
    case NonMutWithArg(arg) => BuildUseSingletonWithArgStmt(arg)
    case Mut => BuildUseMutSingletonStmt()
    case MutWithArg(arg) => BuildUseMutSingletonWithArgStmt(arg)
  }

  /** The name of the trait method a kind calls, spelt from its two traits:
      `mut` for mutable access, `with_arg` for a forwarded argument. */
  function UseMethodName(kind: SingletonFnType): string {
    "use_" + (if kind.IsMut() then "mut_" else "") + "singleton" + (if kind.Arg().Some? then "_with_arg" else "")
  }

  /** The statement of each kind calls the method its traits spell, with the
      argument's call tokens when it has one and with nothing otherwise. */
  lemma UseStmtByKind(kind: SingletonFnType)
    ensures UseStmt(kind) == SelfCallAwait(UseMethodName(kind), if kind.Arg().Some? then kind.Arg().value.implFnCallArg else [])
  {
    match kind
    case NonMut => assert UseMethodName(kind) == "use_singleton";
    case NonMutWithArg(_) => assert UseMethodName(kind) == "use_singleton_with_arg";
    case Mut => assert UseMethodName(kind) == "use_mut_singleton";
    case MutWithArg(_) => assert UseMethodName(kind) == "use_mut_singleton_with_arg";
  }

  /** Different kinds give different statements, and a with-arg statement
      determines the call tokens it forwards. */
  lemma UseStmtDistinguishesKinds(a: SingletonFnType, b: SingletonFnType)
    ensures UseStmt(a) == UseStmt(b) <==>
              a.IsMut() == b.IsMut() && a.Arg().Some? == b.Arg().Some?
              && (a.Arg().Some? ==> a.Arg().value.implFnCallArg == b.Arg().value.implFnCallArg)
  {
    UseStmtByKind(a);
    UseStmtByKind(b);
    var argsA := if a.Arg().Some? then a.Arg().value.implFnCallArg else [];
    var argsB := if b.Arg().Some? then b.Arg().value.implFnCallArg else [];
    SelfCallAwaitInjective(UseMethodName(a), argsA, UseMethodName(b), argsB);
    if a.IsMut() != b.IsMut() || a.Arg().Some? != b.Arg().Some? {
      assert |UseMethodName(a)| != |UseMethodName(b)|;
    }
  }

  /** The block of the facade: import the `Singleton` trait and run the
      kind's statement. */
  function FacadeBlock(kind: SingletonFnType): (r: TokenStream)
    ensures |r| == 20
    ensures r[2] == Ident("use") && r[3..6] == BlockzPath && r[12] == Punct(';')
    ensures r[13..] == UseStmt(kind)
  {
    [Punct('#'), Group(Bracket, [Ident("allow"), Group(Parenthesis, [Ident("unused_imports")])]), Ident("use")]
    + BlockzPath + [Punct(':'), Punct(':')] + Path(["singleton", "Singleton"]) + [Punct(';')]
    + UseStmt(kind)
  }

  /** `FacadeFnFactory`: the base method, its kind and its impl fn. */
  class FacadeFnFactory {
    const base: ItemFn
    const fnType: SingletonFnType
    const implFn: ItemFn

    constructor (base: ItemFn, fnType: SingletonFnType, implFn: ItemFn)
      ensures this.base == base && this.fnType == fnType && this.implFn == implFn
    {
      this.base := base;
      this.fnType := fnType;
      this.implFn := implFn;
    }

    /** `remove_fn_receiver`: an error unless the first input is a receiver;
      otherwise the typed inputs are kept, in order. */
    static method RemoveFnReceiver(target: ItemFn) returns (r: Result<(), Error>)
      modifies target
      ensures old(target.inputs) == [] ==> r == Err(NoReceiverError(target.ident))
      ensures old(target.inputs) != [] && old(target.inputs)[0].Typed? ==>
                r == Err(TypedReceiverError(target.ident, old(target.inputs)[0].ty))
      ensures r.Ok? <==> old(target.inputs) != [] && old(target.inputs)[0].Receiver?
      ensures target.inputs == if r.Ok? then WithoutReceivers(old(target.inputs)) else old(target.inputs)
      ensures target.attrs == old(target.attrs) && target.vis == old(target.vis)
      ensures target.ident == old(target.ident) && target.block == old(target.block)
    {
      if target.inputs == [] {
        return Err(NoReceiverError(target.ident));
      }
      if target.inputs[0].Typed? {
        return Err(TypedReceiverError(target.ident, target.inputs[0].ty));
      }
      target.inputs := WithoutReceivers(target.inputs);
      r := Ok(());
    }

    /** `replace_fn_block`: the block becomes the parsed `block`, or the
      factory's own error when it does not parse. */
    static method ReplaceFnBlock(target: ItemFn, block: TokenStream, parse: BlockParser) returns (r: Result<(), Error>)
      modifies target
      ensures r.Ok? <==> parse(block).Ok?
      ensures r.Ok? ==> target.block == parse(block).value
      ensures r.Err? ==> r.error == ReplaceBlockError(block) && target.block == old(target.block)
      ensures target.attrs == old(target.attrs) && target.vis == old(target.vis)
      ensures target.ident == old(target.ident) && target.inputs == old(target.inputs)
    {
      var parsed := parse(block);
      if parsed.Err? {
        return Err(ReplaceBlockError(block));
      }
      target.block := parsed.value;
      r := Ok(());
    }

    /** `add_inline_always_attr`: exactly one attribute is appended. */
    static method AddInlineAlwaysAttr(target: ItemFn)
      modifies target
      ensures target.attrs == old(target.attrs) + [InlineAlways]
      ensures target.vis == old(target.vis) && target.ident == old(target.ident)
      ensures target.inputs == old(target.inputs) && target.block == old(target.block)
    {
      target.attrs := target.attrs + [InlineAlways];
    }

    /** `build_facade_impl`: the block becomes the facade block of the kind. */
    method BuildFacadeImpl(target: ItemFn, parse: BlockParser) returns (r: Result<(), Error>)
      modifies target
      ensures r.Ok? <==> parse(FacadeBlock(fnType)).Ok?
      ensures r.Ok? ==> target.block == parse(FacadeBlock(fnType)).value
      ensures r.Err? ==> r.error == ReplaceBlockError(FacadeBlock(fnType)) && target.block == old(target.block)
      ensures target.attrs == old(target.attrs) && target.vis == old(target.vis)
      ensures target.ident == old(target.ident) && target.inputs == old(target.inputs)
    {
      r := ReplaceFnBlock(target, FacadeBlock(fnType), parse);
    }

    /** `build`: a copy of the base without its receiver, with
      `#[inline(always)]` appended and the facade block; the first error
      stops it, and the base is left alone. */
    method Build(parse: BlockParser) returns (r: Result<ItemFn, Error>)
      ensures base.inputs == [] ==> r == Err(NoReceiverError(base.ident))
      ensures base.inputs != [] && base.inputs[0].Typed? ==> r == Err(TypedReceiverError(base.ident, base.inputs[0].ty))
      ensures base.inputs != [] && base.inputs[0].Receiver? && parse(FacadeBlock(fnType)).Err? ==>
                r == Err(ReplaceBlockError(FacadeBlock(fnType)))
      ensures r.Ok? <==> base.inputs != [] && base.inputs[0].Receiver? && parse(FacadeBlock(fnType)).Ok?
      ensures r.Ok? ==> fresh(r.value)
      ensures r.Ok? ==> r.value.ident == base.ident && r.value.vis == base.vis
      ensures r.Ok? ==> r.value.attrs == base.attrs + [InlineAlways]
      ensures r.Ok? ==> r.value.inputs == WithoutReceivers(base.inputs)
      ensures r.Ok? ==> r.value.block == parse(FacadeBlock(fnType)).value
    {
      var facadeFn := base.Clone();
      var removed := RemoveFnReceiver(facadeFn);
      if removed.Err? {
        return Err(removed.error);
      }
      AddInlineAlwaysAttr(facadeFn);
      var built := BuildFacadeImpl(facadeFn, parse);
      if built.Err? {
        return Err(built.error);
      }
      r := Ok(facadeFn);
    }
  }
}
