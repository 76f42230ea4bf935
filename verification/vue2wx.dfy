/**
 * The miniapp rewrite of control and binding directives on one element:
 * v-if / v-else-if / v-else, v-for and v-bind:prop. The conditional chain is
 * checked against the previous sibling's resolved directive, passed in explicitly.
 */
module Vue2Wx {
  import opened Results
  import opened Attributes
  import opened Platforms
  import opened Iteration

  datatype Cond = If | ElseIf | Else

  const BindPrefix := "v-bind:"
  const ForName := "v-for"

  function CondOf(name: string): Option<Cond> {
    if name == "v-if" then Some(If)
    else if name == "v-else-if" then Some(ElseIf)
    else if name == "v-else" then Some(Else)
    else None
  }

  function CondDirective(c: Cond): string {
    match c
    case If => "v-if"
    case ElseIf => "v-else-if"
    case Else => "v-else"
  }

  /** The dialect's conditional attribute: wx:if / a:elif / s-else and so on. */
  function CondName(p: Platform, c: Cond): string
    requires IsMiniapp(p)
  {
    DialectOf(p).prefix + match c
      case If => "if"
      case ElseIf => "elif"
      case Else => "else"
  }

  /** The loop attributes in their fixed order: for-item, for-index, for. */
  function ForAttrs(p: Platform, c: ForClause): seq<Attr>
    requires IsMiniapp(p)
  {
    var pre := DialectOf(p).prefix;
    [Attr(pre + "for-item", c.item), Attr(pre + "for-index", c.index), Attr(pre + "for", Interpolate(p, c.source))]
  }

  /** The miniapp attributes one source attribute becomes. */
  function ConvertAttr(p: Platform, a: Attr): (r: Result<seq<Attr>, CompileError>)
    requires IsMiniapp(p)
    ensures r.Err? <==> a.name == ForName && ParseFor(a.value).Err?
    ensures r.Err? ==> r.error == IterationSyntaxError(a.value)
    ensures r.Ok? && CondOf(a.name).None? && a.name != ForName && !StartsWith(a.name, BindPrefix) ==> r.value == [a]
  {
    match CondOf(a.name)
    case Some(c) => Ok([Attr(CondName(p, c), Interpolate(p, a.value))])
    case None =>
      if a.name == ForName then
        match ParseFor(a.value)
        case Err(e) => Err(e)
        case Ok(clause) => Ok(ForAttrs(p, clause))
      else if StartsWith(a.name, BindPrefix) then
        Ok([Attr(a.name[|BindPrefix|..], Braces(a.value))])
      else
        Ok([a])
  }

  /** All attributes converted in order; the first malformed v-for fails the element. */
  function ConvertAll(p: Platform, attrs: seq<Attr>): (r: Result<seq<Attr>, CompileError>)
    requires IsMiniapp(p)
    ensures r.Ok? <==> forall i :: 0 <= i < |attrs| ==> ConvertAttr(p, attrs[i]).Ok?
    ensures r.Err? ==> r.error.IterationSyntaxError?
    ensures r.Ok? ==> |r.value| >= |attrs|
    ensures r.Ok? ==> forall a :: a in attrs && CondOf(a.name).None? && a.name != ForName && !StartsWith(a.name, BindPrefix) ==> a in r.value
    decreases |attrs|
  {
    if attrs == [] then Ok([])
    else
      match ConvertAttr(p, attrs[0])
      case Err(e) => Err(e)
      case Ok(head) =>
        match ConvertAll(p, attrs[1..])
        case Err(e) => Err(e)
        case Ok(tail) => Ok(head + tail)
  }

  /** The conditional directive an element carries (its first one), if any. */
  function ElementCond(attrs: seq<Attr>): Option<Cond> {
    if attrs == [] then None
    else if CondOf(attrs[0].name).Some? then CondOf(attrs[0].name)
    else ElementCond(attrs[1..])
  }

  /** An element may continue a chain only after an if or an else-if. */
  predicate Continues(prev: Option<Cond>) {
    prev == Some(If) || prev == Some(ElseIf)
  }

  predicate ChainLegal(prev: Option<Cond>, attrs: seq<Attr>) {
    ElementCond(attrs) == Some(ElseIf) || ElementCond(attrs) == Some(Else) ==> Continues(prev)
  }

  /** One element rewritten, given its previous sibling's resolved conditional directive. */
  function ConvertElement(p: Platform, prev: Option<Cond>, attrs: seq<Attr>): (r: Result<seq<Attr>, CompileError>)
    requires IsMiniapp(p)
    ensures r == Err(ChainError) <==> !ChainLegal(prev, attrs)
    ensures r.Ok? <==> ChainLegal(prev, attrs) && forall i :: 0 <= i < |attrs| ==> ConvertAttr(p, attrs[i]).Ok?
  {
    if !ChainLegal(prev, attrs) then Err(ChainError) else ConvertAll(p, attrs)
  }

  /** The directive the sibling before position `i` resolved to. */
  function PrevOf(first: Option<Cond>, elems: seq<seq<Attr>>, i: int): Option<Cond>
    requires 0 <= i < |elems|
  {
    if i == 0 then first else ElementCond(elems[i - 1])
  }

  /** Consecutive sibling elements rewritten in document order. */
  function ConvertSiblings(p: Platform, first: Option<Cond>, elems: seq<seq<Attr>>): (r: Result<seq<seq<Attr>>, CompileError>)
    requires IsMiniapp(p)
    ensures r.Ok? <==> forall i :: 0 <= i < |elems| ==> ConvertElement(p, PrevOf(first, elems, i), elems[i]).Ok?
    ensures r.Ok? ==> |r.value| == |elems|
    ensures r.Ok? ==> forall i :: 0 <= i < |elems| ==> ConvertElement(p, PrevOf(first, elems, i), elems[i]) == Ok(r.value[i])
    decreases |elems|
  {
    if elems == [] then Ok([])
    else
      var rest := elems[1..];
      assert forall i :: 1 <= i < |elems| ==> PrevOf(first, elems, i) == PrevOf(ElementCond(elems[0]), rest, i - 1);
      match ConvertElement(p, first, elems[0])
      case Err(e) => Err(e)
      case Ok(head) =>
        match ConvertSiblings(p, ElementCond(elems[0]), rest)
        case Err(e) =>
          assert !ConvertElement(p, PrevOf(ElementCond(elems[0]), rest, 0), rest[0]).Ok? ||
                 exists i :: 0 <= i < |rest| && !ConvertElement(p, PrevOf(ElementCond(elems[0]), rest, i), rest[i]).Ok?;
          Err(e)
        case Ok(tail) => Ok([head] + tail)
  }

  // ---------------------------------------------------------------------------
  // Reading a miniapp attribute list back into the source directives.

  /** The source form of an attribute, with a v-for clause in its explicit `(item,index)` shape. */
  function Normal(a: Attr): Attr {
    if a.name == ForName && ParseFor(a.value).Ok? then Attr(ForName, FormatFor(ParseFor(a.value).value)) else a
  }

  function Canonical(attrs: seq<Attr>): (r: seq<Attr>)
    ensures |r| == |attrs|
  {
    if attrs == [] then [] else [Normal(attrs[0])] + Canonical(attrs[1..])
  }

  predicate IsForTriple(p: Platform, out: seq<Attr>)
    requires IsMiniapp(p)
  {
    var pre := DialectOf(p).prefix;
    |out| >= 3 && out[0].name == pre + "for-item" && out[1].name == pre + "for-index" && out[2].name == pre + "for"
  }

  function RevertOne(p: Platform, a: Attr): Attr
    requires IsMiniapp(p)
  {
    if a.name == CondName(p, If) then Attr(CondDirective(If), Uninterpolate(p, a.value))
    else if a.name == CondName(p, ElseIf) then Attr(CondDirective(ElseIf), Uninterpolate(p, a.value))
    else if a.name == CondName(p, Else) then Attr(CondDirective(Else), Uninterpolate(p, a.value))
    else match Unbrace(a.value)
      case Some(e) => Attr(BindPrefix + a.name, e)
      case None => a
  }

  /** The source attributes a miniapp attribute list was written from. */
  function Revert(p: Platform, out: seq<Attr>): seq<Attr>
    requires IsMiniapp(p)
    decreases |out|
  {
    if out == [] then []
    else if IsForTriple(p, out) then
      [Attr(ForName, FormatFor(ForClause(out[0].value, out[1].value, Uninterpolate(p, out[2].value))))] + Revert(p, out[3..])
    else [RevertOne(p, out[0])] + Revert(p, out[1..])
  }

  /**
   * A source attribute whose rewrite cannot be mistaken for another's:
   * bound and static names stay clear of the dialect prefix, and a static
   * value is not itself brace-interpolated.
   */
  predicate Revertible(p: Platform, a: Attr)
    requires IsMiniapp(p)
  {
    if CondOf(a.name).Some? then true
    else if a.name == ForName then ParseFor(a.value).Ok?
    else if StartsWith(a.name, BindPrefix) then !StartsWith(a.name[|BindPrefix|..], DialectOf(p).prefix)
    else !StartsWith(a.name, DialectOf(p).prefix) && !IsBraced(a.value)
  }

  lemma RevertConvertAttr(p: Platform, a: Attr, rest: seq<Attr>)
    requires IsMiniapp(p) && Revertible(p, a)
    ensures ConvertAttr(p, a).Ok?
    ensures Revert(p, ConvertAttr(p, a).value + rest) == [Normal(a)] + Revert(p, rest)
  {
    var pre := DialectOf(p).prefix;
    var out := ConvertAttr(p, a).value;
    PrefixStarts(pre, "for-item");
    if CondOf(a.name).Some? {
      var c := CondOf(a.name).value;
      UninterpolateInterpolate(p, a.value);
      assert (out + rest)[1..] == rest;
      assert CondDirective(c) == a.name;
      assert !IsForTriple(p, out + rest) by {
        assert |CondName(p, c)| < |pre + "for-item"|;
      }
      assert RevertOne(p, out[0]) == Attr(a.name, a.value) by {
        match c
        case If =>
        case ElseIf => assert |CondName(p, If)| != |CondName(p, ElseIf)|;
        case Else =>
          assert |CondName(p, If)| != |CondName(p, Else)|;
          assert CondName(p, ElseIf)[|pre| + 2] != CondName(p, Else)[|pre| + 2];
      }
    } else if a.name == ForName {
      var clause := ParseFor(a.value).value;
      UninterpolateInterpolate(p, clause.source);
      assert (out + rest)[3..] == rest;
    } else if StartsWith(a.name, BindPrefix) {
      var prop := a.name[|BindPrefix|..];
      PrefixStarts(pre, "if");
      PrefixStarts(pre, "elif");
      PrefixStarts(pre, "else");
      UnbraceBraces(a.value);
      assert BindPrefix + prop == a.name;
      assert (out + rest)[1..] == rest;
    } else {
      PrefixStarts(pre, "if");
      PrefixStarts(pre, "elif");
      PrefixStarts(pre, "else");
      assert (out + rest)[1..] == rest;
    }
  }

  /** The rewrite is lossless: reading the output back yields the source attributes. */
  lemma {:induction false} RevertConvertAll(p: Platform, attrs: seq<Attr>)
    requires IsMiniapp(p)
    requires forall i :: 0 <= i < |attrs| ==> Revertible(p, attrs[i])
    ensures ConvertAll(p, attrs).Ok?
    ensures Revert(p, ConvertAll(p, attrs).value) == Canonical(attrs)
    decreases |attrs|
  {
    if attrs != [] {
      RevertConvertAll(p, attrs[1..]);
      RevertConvertAttr(p, attrs[0], ConvertAll(p, attrs[1..]).value);
    }
  }
}
