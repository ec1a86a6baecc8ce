/** The impl-fn factory (`blockz_derive/src/singleton/impl_fn.rs`): from the
    method a singleton fn is written as, it builds the private function the
    singleton runs, renamed by kind, with its inputs cut down to the receiver
    and the forwarded argument, and with the argument's identifiers in its
    block replaced by the legend. */
module ImplFn {
  import opened Prelude
  import opened Syn
  import opened SingletonFns

  /** The name prefix of an impl fn of the given kind. */
  function Prefix(kind: SingletonFnType): (p: string)
    ensures SingletonFnPrefix <= p
  {
    match kind
    case NonMut => SingletonFnPrefix
    case NonMutWithArg(_) => SingletonFnWithArgPrefix
    case Mut => SingletonFnMutPrefix
    case MutWithArg(_) => SingletonFnMutWithArgPrefix
  }

  /** Two kinds of the same variant, whatever their arguments. */
  predicate SameVariant(a: SingletonFnType, b: SingletonFnType) {
    a.IsMut() == b.IsMut() && a.Arg().Some? == b.Arg().Some?
  }

  /** The four prefixes are distinct: the prefix determines the variant. */
  lemma PrefixesDistinct(a: SingletonFnType, b: SingletonFnType)
    ensures Prefix(a) == Prefix(b) <==> SameVariant(a, b)
  {
    if !SameVariant(a, b) {
      assert |Prefix(a)| != |Prefix(b)|;
    }
  }

  /** The impl fn's name within one kind gives back the original name. */
  lemma RenameInjective(kind: SingletonFnType, x: string, y: string)
    ensures Prefix(kind) + x == Prefix(kind) + y <==> x == y
  {
    if Prefix(kind) + x == Prefix(kind) + y {
      var n := |Prefix(kind)|;
      assert x == (Prefix(kind) + x)[n..];
      assert y == (Prefix(kind) + y)[n..];
    }
  }

  /** Across kinds the names can collide: the non-mut impl fn of `mut_get`
      and the mut impl fn of `get` have the same name. */
  lemma RenameCollidesAcrossKinds()
    ensures Prefix(NonMut) + "mut_get" == Prefix(Mut) + "get"
  {
  }

  /** Impl fn prefixes none of which starts another one: the kind's tag is
      followed by `_` only at its end, so no tag runs on into a name. */
  function PrefixFreePrefix(kind: SingletonFnType): (p: string)
    ensures SingletonFnPrefix <= p
  {
    match kind
    case NonMut => SingletonFnPrefix + "ref_"
    case NonMutWithArg(_) => SingletonFnPrefix + "refarg_"
    case Mut => SingletonFnPrefix + "mut_"
    case MutWithArg(_) => SingletonFnPrefix + "mutarg_"
  }

  /** With prefix-free prefixes, an impl fn's name determines both the
      variant of its kind and the original name, across all kinds. */
  lemma PrefixFreeRenameInjective(a: SingletonFnType, b: SingletonFnType, x: string, y: string)
    ensures PrefixFreePrefix(a) + x == PrefixFreePrefix(b) + y <==> SameVariant(a, b) && x == y
  {
    var pa, pb := PrefixFreePrefix(a), PrefixFreePrefix(b);
    if !SameVariant(a, b) {
      var i := if a.IsMut() != b.IsMut() then 20 else 23;
      DifferAt(pa, pb, x, y, i);
    } else if pa + x == pb + y {
      assert x == (pa + x)[|pa|..];
      assert y == (pb + y)[|pb|..];
    }
  }

  /** Two strings that differ inside both prefixes stay different whatever
      follows them. */
  lemma DifferAt(pa: string, pb: string, x: string, y: string, i: nat)
    requires i < |pa| && i < |pb| && pa[i] != pb[i]
    ensures pa + x != pb + y
  {
    assert (pa + x)[i] == pa[i];
    assert (pb + y)[i] == pb[i];
  }

  /** The inputs of the impl fn: unchanged for the kinds without an
      argument; otherwise the first input, if any, and then the one input
      the argument builds, or the builder's error. */
  function FixedFnArgs(kind: SingletonFnType, inputs: seq<FnArg>): (r: Result<seq<FnArg>, Error>)
    ensures kind.Arg().None? ==> r == Ok(inputs)
    ensures kind.Arg().Some? ==> (r.Ok? <==> kind.Arg().value.implFnSigArg.Ok?)
    ensures kind.Arg().Some? && r.Err? ==> r.error == kind.Arg().value.implFnSigArg.error
    ensures kind.Arg().Some? && r.Ok? ==>
              |r.value| == (if inputs == [] then 1 else 2)
              && r.value[|r.value| - 1] == kind.Arg().value.implFnSigArg.value
              && (inputs != [] ==> r.value[0] == inputs[0])
  {
    match kind.Arg()
    case None => Ok(inputs)
    case Some(arg) =>
      match arg.implFnSigArg
      case Ok(sigArg) => Ok(inputs[..if inputs == [] then 0 else 1] + [sigArg])
      case Err(e) => Err(e)
  }

  /** `apply_replace_legend`: token by token, an identifier named in the
      legend becomes an invisible group holding its value, a group keeps its
      delimiter and is rewritten inside, and anything else is kept. */
  function ApplyReplaceLegend(stream: TokenStream, legend: map<string, TokenStream>): (r: TokenStream)
    ensures |r| == |stream|
    decreases stream
  {
    if stream == [] then []
    else [ReplaceTree(stream[0], legend)] + ApplyReplaceLegend(stream[1..], legend)
  }

  /** The rewriting of one token tree. */
  function ReplaceTree(tt: TokenTree, legend: map<string, TokenStream>): (r: TokenTree)
    ensures tt.Ident? && tt.name in legend ==> r == Group(NoDelimiter, legend[tt.name])
    ensures tt.Ident? && tt.name !in legend ==> r == tt
    ensures tt.Group? ==> r.Group? && r.delimiter == tt.delimiter && |r.stream| == |tt.stream|
    ensures tt.Punct? || tt.Literal? ==> r == tt
    decreases tt
  {
    match tt
    case Ident(name) => if name in legend then Group(NoDelimiter, legend[name]) else tt
    case Group(delimiter, stream) => Group(delimiter, ApplyReplaceLegend(stream, legend))
    case _ => tt
  }

  /** The rewriting acts on each token on its own: it distributes over
      concatenation. */
  lemma {:induction false} ApplyReplaceLegendConcat(a: TokenStream, b: TokenStream, legend: map<string, TokenStream>)
    ensures ApplyReplaceLegend(a + b, legend) == ApplyReplaceLegend(a, legend) + ApplyReplaceLegend(b, legend)
  {
    if a == [] {
      assert a + b == b;
    } else {
      assert (a + b)[0] == a[0];
      assert (a + b)[1..] == a[1..] + b;
      ApplyReplaceLegendConcat(a[1..], b, legend);
    }
  }

  /** A stream none of whose identifiers the legend names is left as it is. */
  lemma {:induction false} ApplyWithoutMatches(stream: TokenStream, legend: map<string, TokenStream>)
    requires Idents(stream) !! legend.Keys
    ensures ApplyReplaceLegend(stream, legend) == stream
    decreases stream
  {
    if stream != [] {
      ReplaceTreeWithoutMatches(stream[0], legend);
      ApplyWithoutMatches(stream[1..], legend);
    }
  }

  /** One token tree none of whose identifiers the legend names is kept. */
  lemma {:induction false} ReplaceTreeWithoutMatches(tt: TokenTree, legend: map<string, TokenStream>)
    requires TreeIdents(tt) !! legend.Keys
    ensures ReplaceTree(tt, legend) == tt
    decreases tt
  {
    if tt.Group? {
      ApplyWithoutMatches(tt.stream, legend);
    }
  }

  /** An empty legend changes nothing. */
  lemma EmptyLegendIsIdentity(stream: TokenStream)
    ensures ApplyReplaceLegend(stream, map[]) == stream
  {
    ApplyWithoutMatches(stream, map[]);
  }

  /** Every identifier that occurs in some value of the legend. */
  ghost function ValueIdents(legend: map<string, TokenStream>): set<string> {
    set k, x | k in legend && x in Idents(legend[k]) :: x
  }

  /** After the rewriting, an identifier is either one of the stream's that
      the legend does not name, or one brought in by a legend value. */
  lemma {:induction false} ApplyIdents(stream: TokenStream, legend: map<string, TokenStream>)
    ensures Idents(ApplyReplaceLegend(stream, legend)) <= (Idents(stream) - legend.Keys) + ValueIdents(legend)
    decreases stream
  {
    if stream != [] {
      ReplaceTreeIdents(stream[0], legend);
      ApplyIdents(stream[1..], legend);
    }
  }

  /** The identifiers of one rewritten token tree. */
  lemma {:induction false} ReplaceTreeIdents(tt: TokenTree, legend: map<string, TokenStream>)
    ensures TreeIdents(ReplaceTree(tt, legend)) <= (TreeIdents(tt) - legend.Keys) + ValueIdents(legend)
    decreases tt
  {
    match tt
    case Ident(name) =>
      if name in legend {
        forall x | x in Idents(legend[name])
          ensures x in ValueIdents(legend)
        {
        }
      }
    case Group(_, stream) =>
      ApplyIdents(stream, legend);
    case _ =>
  }

  /** Inserted values are not rescanned, so when no value mentions a key the
      rewriting is idempotent. */
  lemma ApplyIdempotentWhenValuesAreClean(stream: TokenStream, legend: map<string, TokenStream>)
    requires ValueIdents(legend) !! legend.Keys
    ensures ApplyReplaceLegend(ApplyReplaceLegend(stream, legend), legend) == ApplyReplaceLegend(stream, legend)
  {
    ApplyIdents(stream, legend);
    ApplyWithoutMatches(ApplyReplaceLegend(stream, legend), legend);
  }

  /** Inserted values are not rescanned: a value that mentions its own key
      keeps it, one level further in, and a second rewriting differs. */
  lemma ReplacementIsNotRescanned()
    ensures ApplyReplaceLegend([Ident("arg")], map["arg" := [Ident("arg")]]) == [Group(NoDelimiter, [Ident("arg")])]
    ensures ApplyReplaceLegend(ApplyReplaceLegend([Ident("arg")], map["arg" := [Ident("arg")]]), map["arg" := [Ident("arg")]])
            != ApplyReplaceLegend([Ident("arg")], map["arg" := [Ident("arg")]])
  {
    var legend := map["arg" := [Ident("arg")]];
    var inner := Group(NoDelimiter, [Ident("arg")]);
    var once := ApplyReplaceLegend([Ident("arg")], legend);
    assert once == [ReplaceTree(Ident("arg"), legend)] + ApplyReplaceLegend([], legend);
    assert once == [inner];
    var twice := ApplyReplaceLegend(once, legend);
    assert twice == [ReplaceTree(inner, legend)] + ApplyReplaceLegend([], legend);
    assert ReplaceTree(inner, legend) == Group(NoDelimiter, once);
    assert twice[0].stream[0] != once[0].stream[0];
  }

  /** The block of the impl fn: unchanged when the kind has no legend;
      otherwise the legend is applied to the block and the result is parsed
      again, which can fail. */
  function FixedFnBlock(kind: SingletonFnType, block: TokenStream, parse: BlockParser): (r: Result<TokenStream, Error>)
    ensures kind.Arg().None? || kind.Arg().value.implFnReplacementLegend.None? ==> r == Ok(block)
    ensures kind.Arg().Some? && kind.Arg().value.implFnReplacementLegend.Some? ==>
              r == parse(ApplyReplaceLegend(block, kind.Arg().value.implFnReplacementLegend.value))
  {
    match kind.Arg()
    case None => Ok(block)
    case Some(arg) =>
      match arg.implFnReplacementLegend
      case None => Ok(block)
      case Some(legend) => parse(ApplyReplaceLegend(block, legend))
  }

  /** `ImplFnFactory`: the base method and its kind. */
  class ImplFnFactory {
    const base: ItemFn
    const fnType: SingletonFnType

    constructor (base: ItemFn, fnType: SingletonFnType)
      ensures this.base == base && this.fnType == fnType
    {
      this.base := base;
      this.fnType := fnType;
    }

    /** `rename_fn`: the name gets the kind's prefix. */
    method RenameFn(target: ItemFn)
      modifies target
      ensures target.ident == Prefix(fnType) + old(target.ident)
      ensures target.attrs == old(target.attrs) && target.vis == old(target.vis)
      ensures target.inputs == old(target.inputs) && target.block == old(target.block)
    {
      target.ident := Prefix(fnType) + target.ident;
    }

    /** `fix_fn_args`: the inputs become `FixedFnArgs`; on the builder's error
      nothing changes. */
    method FixFnArgs(target: ItemFn) returns (r: Result<(), Error>)
      modifies target
      ensures FixedFnArgs(fnType, old(target.inputs)).Ok? <==> r.Ok?
      ensures r.Ok? ==> target.inputs == FixedFnArgs(fnType, old(target.inputs)).value
      ensures r.Err? ==> r.error == FixedFnArgs(fnType, old(target.inputs)).error && target.inputs == old(target.inputs)
      ensures target.attrs == old(target.attrs) && target.vis == old(target.vis)
      ensures target.ident == old(target.ident) && target.block == old(target.block)
    {
      var fixed := FixedFnArgs(fnType, target.inputs);
      if fixed.Err? {
        return Err(fixed.error);
      }
      target.inputs := fixed.value;
      r := Ok(());
    }

    /** `fix_fn_block`: the block becomes `FixedFnBlock`; on a parse error
      nothing changes. */
    method FixFnBlock(target: ItemFn, parse: BlockParser) returns (r: Result<(), Error>)
      modifies target
      ensures FixedFnBlock(fnType, old(target.block), parse).Ok? <==> r.Ok?
      ensures r.Ok? ==> target.block == FixedFnBlock(fnType, old(target.block), parse).value
      ensures r.Err? ==> r.error == FixedFnBlock(fnType, old(target.block), parse).error && target.block == old(target.block)
      ensures target.attrs == old(target.attrs) && target.vis == old(target.vis)
      ensures target.ident == old(target.ident) && target.inputs == old(target.inputs)
    {
      var fixed := FixedFnBlock(fnType, target.block, parse);
      if fixed.Err? {
        return Err(fixed.error);
      }
      target.block := fixed.value;
      r := Ok(());
    }

    /** `make_fn_private`. */
    static method MakeFnPrivate(target: ItemFn)
      modifies target
      ensures target.vis == Inherited
      ensures target.attrs == old(target.attrs) && target.ident == old(target.ident)
      ensures target.inputs == old(target.inputs) && target.block == old(target.block)
    {
      target.vis := Inherited;
    }

    /** `build`: a private, renamed copy of the base with fixed inputs and
      block, or the first error; the base is left alone. */
    method Build(parse: BlockParser) returns (r: Result<ItemFn, Error>)
      ensures r.Ok? <==> FixedFnArgs(fnType, base.inputs).Ok? && FixedFnBlock(fnType, base.block, parse).Ok?
      ensures FixedFnArgs(fnType, base.inputs).Err? ==> r == Err(FixedFnArgs(fnType, base.inputs).error)
      ensures FixedFnArgs(fnType, base.inputs).Ok? && FixedFnBlock(fnType, base.block, parse).Err? ==>
                r == Err(FixedFnBlock(fnType, base.block, parse).error)
      ensures r.Ok? ==> fresh(r.value)
      ensures r.Ok? ==> r.value.vis == Inherited && r.value.ident == Prefix(fnType) + base.ident
      ensures r.Ok? ==> r.value.attrs == base.attrs
      ensures r.Ok? ==> r.value.inputs == FixedFnArgs(fnType, base.inputs).value
      ensures r.Ok? ==> r.value.block == FixedFnBlock(fnType, base.block, parse).value
    {
      var implFn := base.Clone();
      MakeFnPrivate(implFn);
      RenameFn(implFn);
      var args := FixFnArgs(implFn);
      if args.Err? {
        return Err(args.error);
      }
      var block := FixFnBlock(implFn, parse);
      if block.Err? {
        return Err(block.error);
      }
      r := Ok(implFn);
    }
  }
}
