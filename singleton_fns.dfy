/** Singleton-fn utilities (`blockz_derive/src/singleton/singleton_fns.rs`):
    the kinds of singleton fn, the impl-fn name prefixes, the receiver
    filter both factories rely on, and the first draft of the impl and facade
    builders, whose failures are panics. */
module SingletonFns {
  import opened Prelude
  import opened Syn

  /** Prefix for an impl fn used by a singleton fn. */
  const SingletonFnPrefix: string := "blockz_singleton_fn_"
  /** Prefix for an impl fn used by a singleton fn with arg. */
  const SingletonFnWithArgPrefix: string := "blockz_singleton_fn_with_arg_"
  /** Prefix for an impl fn used by a singleton mut fn. */
  const SingletonFnMutPrefix: string := "blockz_singleton_fn_mut_"
  /** Prefix for an impl fn used by a singleton mut fn with arg. */
  const SingletonFnMutWithArgPrefix: string := "blockz_singleton_fn_mut_with_arg_"

  /** The argument a with-arg singleton fn forwards to the singleton. The
      type and its three builders are defined outside this model; what each
      builder returns is carried here as data: the impl fn's extra input
      (`build_impl_fn_sig_arg`, which can fail), the replacement legend for
      the impl fn's block (`build_impl_fn_replacement_legend`) and the
      argument of the facade's call (`build_impl_fn_call_arg`). */
  datatype SingletonFnArg = SingletonFnArg(
    implFnSigArg: Result<FnArg, Error>,
    implFnReplacementLegend: Option<map<string, TokenStream>>,
    implFnCallArg: TokenStream)

  /** The kind of a singleton fn: shared or mutable access to the singleton,
      with or without a forwarded argument. */
  datatype SingletonFnType =
    | NonMut
    | NonMutWithArg(arg: SingletonFnArg)
    | Mut
    | MutWithArg(arg: SingletonFnArg)
  {
    /** The forwarded argument of a with-arg kind. */
    function Arg(): (r: Option<SingletonFnArg>)
      ensures r.Some? <==> NonMutWithArg? || MutWithArg?
    {
      match this
      case NonMut => None
      case NonMutWithArg(arg) => Some(arg)
      case Mut => None
      case MutWithArg(arg) => Some(arg)
    }

    /** The kinds that take the singleton mutably. */
    predicate IsMut() {
      Mut? || MutWithArg?
    }
  }

  /** The inputs with every receiver filtered out. */
  function WithoutReceivers(inputs: seq<FnArg>): (r: seq<FnArg>)
    ensures forall a :: a in r ==> a.Typed?
    ensures forall a :: a in inputs && a.Typed? ==> a in r
    ensures forall a :: a in r ==> a in inputs
  {
    if inputs == [] then []
    else if inputs[0].Receiver? then WithoutReceivers(inputs[1..])
    else [inputs[0]] + WithoutReceivers(inputs[1..])
  }

  /** Filtering keeps the typed inputs in their order: it distributes over
      concatenation. */
  lemma {:induction false} WithoutReceiversConcat(a: seq<FnArg>, b: seq<FnArg>)
    ensures WithoutReceivers(a + b) == WithoutReceivers(a) + WithoutReceivers(b)
  {
    if a == [] {
      assert a + b == b;
    } else {
      assert (a + b)[1..] == a[1..] + b;
      WithoutReceiversConcat(a[1..], b);
    }
  }

  /** Inputs that hold no receiver pass through unchanged; so filtering twice
      is filtering once. */
  lemma {:induction false} WithoutReceiversKeepsTyped(inputs: seq<FnArg>)
    requires forall a :: a in inputs ==> a.Typed?
    ensures WithoutReceivers(inputs) == inputs
  {
    if inputs != [] {
      assert inputs[0] in inputs;
      assert forall a :: a in inputs[1..] ==> a in inputs;
      WithoutReceiversKeepsTyped(inputs[1..]);
    }
  }

  /** The usual case: a receiver first and typed inputs after it. */
  lemma ReceiverThenTyped(recv: FnArg, rest: seq<FnArg>)
    requires recv.Receiver?
    requires forall a :: a in rest ==> a.Typed?
    ensures WithoutReceivers([recv] + rest) == rest
  {
    assert ([recv] + rest)[1..] == rest;
    WithoutReceiversKeepsTyped(rest);
  }

  /** `rename_fn`: the identifier becomes exactly `name`. */
  method RenameFn(item: ItemFn, name: string)
    modifies item
    ensures item.ident == name
    ensures item.attrs == old(item.attrs) && item.vis == old(item.vis)
    ensures item.inputs == old(item.inputs) && item.block == old(item.block)
  {
    item.ident := name;
  }

  /** The message of the `expect` on a replacement block that does not parse. */
  function ReplaceBlockPanic(block: TokenStream): string {
    "Failed to parse replacement block: " + Render(block)
  }

  /** `replace_fn_block`: the block becomes the parse of `{ block }`; a block
      that does not parse makes the macro panic, and the item is unchanged. */
  method ReplaceFnBlock(item: ItemFn, block: TokenStream, parse: BlockParser) returns (r: Result<(), Panic>)
    modifies item
    ensures r.Ok? <==> parse(block).Ok?
    ensures r.Ok? ==> item.block == parse(block).value
    ensures r.Err? ==> r.error == Panic(ReplaceBlockPanic(block)) && item.block == old(item.block)
    ensures item.attrs == old(item.attrs) && item.vis == old(item.vis)
    ensures item.ident == old(item.ident) && item.inputs == old(item.inputs)
  {
    var parsed := parse(block);
    if parsed.Err? {
      return Err(Panic(ReplaceBlockPanic(block)));
    }
    item.block := parsed.value;
    r := Ok(());
  }

  /** The message of the `expect` on a function without inputs. */
  function NoReceiverPanic(ident: string): string {
    "Function " + ident + " should have had a receiver"
  }

  /** The message of the panic on a function whose first input is typed. */
  function TypedReceiverPanic(ident: string, ty: string): string {
    "Function " + ident + " must have either a &self or &mut self receiver. Found receiver: " + ty + "."
  }

  /** `remove_fn_receiver`: panics unless the first input is a receiver;
      otherwise keeps exactly the typed inputs, in order. */
  method RemoveFnReceiver(item: ItemFn) returns (r: Result<(), Panic>)
    modifies item
    ensures old(item.inputs) == [] ==> r == Err(Panic(NoReceiverPanic(item.ident)))
    ensures old(item.inputs) != [] && old(item.inputs)[0].Typed? ==>
              r == Err(Panic(TypedReceiverPanic(item.ident, old(item.inputs)[0].ty)))
    ensures r.Ok? <==> old(item.inputs) != [] && old(item.inputs)[0].Receiver?
    ensures item.inputs == if r.Ok? then WithoutReceivers(old(item.inputs)) else old(item.inputs)
    ensures item.attrs == old(item.attrs) && item.vis == old(item.vis)
    ensures item.ident == old(item.ident) && item.block == old(item.block)
  {
    if item.inputs == [] {
      return Err(Panic(NoReceiverPanic(item.ident)));
    }
    if item.inputs[0].Typed? {
      return Err(Panic(TypedReceiverPanic(item.ident, item.inputs[0].ty)));
    }
    item.inputs := WithoutReceivers(item.inputs);
    r := Ok(());
  }

  /** `impl_singleton_fn`: a private copy of the base renamed with the
      singleton-fn prefix; the base itself is left alone. */
  method ImplSingletonFn(base: ItemFn) returns (implFn: ItemFn)
    ensures fresh(implFn)
    ensures implFn.vis == Inherited
    ensures implFn.ident == SingletonFnPrefix + base.ident
    ensures implFn.attrs == base.attrs && implFn.inputs == base.inputs && implFn.block == base.block
  {
    implFn := base.Clone();
    implFn.vis := Inherited;
    RenameFn(implFn, SingletonFnPrefix + base.ident);
  }

  /** The facade's block: import the `Singleton` trait and hand the impl fn
      to `use_singleton`. */
  function DraftFacadeBlock(implFnIdent: string): (r: TokenStream)
    ensures |r| == 18
    ensures r[2] == Ident("use") && r[11] == Ident("Self") && r[14] == Ident("use_singleton")
    ensures r[15] == Group(Parenthesis, Path(["Self", implFnIdent])) && r[17] == Ident("await")
  {
    [Punct('#'), Group(Bracket, [Ident("allow"), Group(Parenthesis, [Ident("unused_imports")])]), Ident("use")]
    + Path(["blockz", "singleton", "Singleton"]) + [Punct(';')]
    + Path(["Self", "use_singleton"])
    + [Group(Parenthesis, Path(["Self", implFnIdent])), Punct('.'), Ident("await")]
  }

  /** `impl_singleton_fn_facade`: a copy of the base that keeps its name and
      visibility, loses its receiver and calls the impl fn through the
      singleton. A base without a leading receiver, or a facade block that
      does not parse, makes the macro panic. */
  method ImplSingletonFnFacade(base: ItemFn, implFn: ItemFn, parse: BlockParser) returns (r: Result<ItemFn, Panic>)
    ensures base.inputs == [] ==> r == Err(Panic(NoReceiverPanic(base.ident)))
    ensures base.inputs != [] && base.inputs[0].Typed? ==> r == Err(Panic(TypedReceiverPanic(base.ident, base.inputs[0].ty)))
    ensures base.inputs != [] && base.inputs[0].Receiver? && parse(DraftFacadeBlock(implFn.ident)).Err? ==>
              r == Err(Panic(ReplaceBlockPanic(DraftFacadeBlock(implFn.ident))))
    ensures r.Ok? <==> base.inputs != [] && base.inputs[0].Receiver? && parse(DraftFacadeBlock(implFn.ident)).Ok?
    ensures r.Ok? ==> fresh(r.value)
    ensures r.Ok? ==> r.value.ident == base.ident && r.value.vis == base.vis && r.value.attrs == base.attrs
    ensures r.Ok? ==> r.value.inputs == WithoutReceivers(base.inputs)
    ensures r.Ok? ==> r.value.block == parse(DraftFacadeBlock(implFn.ident)).value
  {
    var facadeFn := base.Clone();
    var removed := RemoveFnReceiver(facadeFn);
    if removed.Err? {
      return Err(removed.error);
    }
    var replaced := ReplaceFnBlock(facadeFn, DraftFacadeBlock(implFn.ident), parse);
    if replaced.Err? {
      return Err(replaced.error);
    }
    r := Ok(facadeFn);
  }
}
