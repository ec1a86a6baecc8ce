/** The slice of `proc_macro2` and `syn` that the singleton-fn rewriting
    works on: token trees, function arguments, attributes and the function
    item `syn::ItemFn`, which the rewriting helpers change through
    `&mut ItemFn` and which is therefore a class here. */
module Syn {
  import opened Prelude

  /** `proc_macro2::Delimiter`; `NoDelimiter` is `Delimiter::None`, the invisible one. */
  datatype Delimiter = Parenthesis | Brace | Bracket | NoDelimiter

  /** `proc_macro2::TokenTree`. */
  datatype TokenTree =
    | Ident(name: string)
    | Punct(op: char)
    | Literal(text: string)
    | Group(delimiter: Delimiter, stream: seq<TokenTree>)

  /** `proc_macro2::TokenStream`. */
  type TokenStream = seq<TokenTree>

  /** `syn::Error`, with its span left out. */
  datatype Error = Error(message: string)

  /** `syn::Visibility`. */
  datatype Visibility = Public | Crate | Restricted(path: string) | Inherited

  /** `syn::FnArg`: a `self` receiver or a typed `pat: ty` input. */
  datatype FnArg = Receiver(mutable: bool) | Typed(pat: string, ty: string)

  /** `syn::Attribute` `#[path tokens]`. */
  datatype Attribute = Attribute(path: string, tokens: TokenStream)

  /** The path `a::b::c` as tokens. */
  function Path(segments: seq<string>): (r: TokenStream)
    ensures |r| == if segments == [] then 0 else 3 * |segments| - 2
    ensures |segments| > 0 ==> r[0] == Ident(segments[0]) && r[|r| - 1] == Ident(segments[|segments| - 1])
  {
    if segments == [] then []
    else if |segments| == 1 then [Ident(segments[0])]
    else [Ident(segments[0]), Punct(':'), Punct(':')] + Path(segments[1..])
  }

  /** Every identifier that occurs in a token stream, at any depth. */
  function Idents(stream: TokenStream): set<string>
    decreases stream
  {
    if stream == [] then {} else TreeIdents(stream[0]) + Idents(stream[1..])
  }

  /** Every identifier that occurs in one token tree. */
  function TreeIdents(tt: TokenTree): set<string>
    decreases tt
  {
    match tt
    case Ident(name) => {name}
    case Group(_, stream) => Idents(stream)
    case _ => {}
  }

  /** A call of `syn::parse2` that re-reads a block's statements from its
      tokens: the parsed statements, or syn's error. syn's grammar is not
      part of this model, so the parse is a parameter of whoever calls it. */
  type BlockParser = TokenStream -> Result<TokenStream, Error>

  /** The text of a token stream as its `Display` writes it: tokens apart by
      one space, groups between their delimiters. */
  function Render(stream: TokenStream): string
    decreases stream
  {
    if stream == [] then ""
    else if |stream| == 1 then RenderTree(stream[0])
    else RenderTree(stream[0]) + " " + Render(stream[1..])
  }

  /** The text of one token tree. */
  function RenderTree(tt: TokenTree): string
    decreases tt
  {
    match tt
    case Ident(name) => name
    case Punct(op) => [op]
    case Literal(text) => text
    case Group(delimiter, stream) =>
      match delimiter
      case Parenthesis => "(" + Render(stream) + ")"
      case Brace => "{ " + Render(stream) + " }"
      case Bracket => "[" + Render(stream) + "]"
      case NoDelimiter => Render(stream)
  }

  /** `syn::ItemFn`: attributes, visibility, the signature's identifier and
      inputs, and the block, held as the statements between its braces. The
      other parts of the signature are never touched by the rewriting and are
      left out. */
  class ItemFn {
    var attrs: seq<Attribute>
    var vis: Visibility
    var ident: string
    var inputs: seq<FnArg>
    var block: TokenStream

    constructor (attrs: seq<Attribute>, vis: Visibility, ident: string, inputs: seq<FnArg>, block: TokenStream)
      ensures this.attrs == attrs && this.vis == vis && this.ident == ident
      ensures this.inputs == inputs && this.block == block
    {
      this.attrs := attrs;
      this.vis := vis;
      this.ident := ident;
      this.inputs := inputs;
      this.block := block;
    }

    /** `ItemFn::clone`: a fresh function item with the same parts. */
    method Clone() returns (c: ItemFn)
      ensures fresh(c)
      ensures c.attrs == attrs && c.vis == vis && c.ident == ident
      ensures c.inputs == inputs && c.block == block
    {
      c := new ItemFn(attrs, vis, ident, inputs, block);
    }
  }
}
