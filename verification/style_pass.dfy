/**
 * The style rewrite: a dynamic `v-bind:style` wrapped in the style proxy call
 * (with the serialised style configuration on web), static `style` handed to
 * the declaration normaliser on weex, and miniapp styles left as they are.
 */
module StylePass {
  import opened Results
  import opened Attributes
  import opened Platforms

  /**
   * The style configuration. Numbers are carried as their literal text:
   * the model fixes how they are written out, not what they mean.
   */
  datatype StyleConfig = StyleConfig(
    rem: bool,
    scale: string,
    rootValue: string,
    minPixelValue: string,
    browsers: seq<string>)

  // ---------------------------------------------------------------------------
  // Object-literal text: single-quoted keys and strings, no blanks after commas.

  function Quote(s: string): string {
    Wrap("'", s, "'")
  }

  function Join(xs: seq<string>): string {
    if xs == [] then ""
    else if |xs| == 1 then xs[0]
    else xs[0] + "," + Join(xs[1..])
  }

  function QuoteAll(xs: seq<string>): (r: seq<string>)
    ensures |r| == |xs|
    ensures forall i :: 0 <= i < |xs| ==> r[i] == Quote(xs[i])
  {
    seq(|xs|, i requires 0 <= i < |xs| => Quote(xs[i]))
  }

  /** A list of strings as an array literal: `['a','b']`. */
  function ArrayLiteral(items: seq<string>): string {
    "[" + Join(QuoteAll(items)) + "]"
  }

  function BoolText(b: bool): string {
    if b then "true" else "false"
  }

  /**
   * The configuration as the literal object handed to the web style proxy:
   * keys in declared order, the two option groups as nested objects.
   */
  function SerializeConfig(c: StyleConfig): string {
    "{'rem':" + BoolText(c.rem) +
    ",'scale':" + c.scale +
    ",'remOptions':{'rootValue':" + c.rootValue +
    ",'minPixelValue':" + c.minPixelValue +
    "},'autoprefixOptions':{'browsers':" + ArrayLiteral(c.browsers) +
    "}}"
  }

  // ---------------------------------------------------------------------------
  // Reading a quoted, comma-separated list back.

  /** The position of the first `'` in `s`, if any. */
  function QuoteEnd(s: string): (r: Option<nat>)
    ensures r.Some? ==> r.value < |s| && s[r.value] == '\'' && '\'' !in s[..r.value]
    ensures r.None? ==> '\'' !in s
  {
    if s == [] then None
    else if s[0] == '\'' then Some(0)
    else match QuoteEnd(s[1..])
      case None => None
      case Some(k) =>
        assert s[..k + 1] == [s[0]] + s[1..][..k];
        Some(k + 1)
  }

  /** The strings a `'a','b',...` list was written from. */
  function ParseQuoted(s: string): Option<seq<string>>
    decreases |s|
  {
    if s == [] then Some([])
    else if s[0] != '\'' then None
    else match QuoteEnd(s[1..])
      case None => None
      case Some(k) =>
        var item := s[1..k + 1];
        var rest := s[k + 2..];
        if rest == [] then Some([item])
        else if rest[0] != ',' || |rest| == 1 then None
        else match ParseQuoted(rest[1..])
          case None => None
          case Some(items) => Some([item] + items)
  }

  lemma QuoteEndPlain(item: string, rest: string)
    requires '\'' !in item
    ensures QuoteEnd(item + "'" + rest) == Some(|item|)
    decreases |item|
  {
    if item != [] {
      assert (item + "'" + rest)[1..] == item[1..] + "'" + rest;
      QuoteEndPlain(item[1..], rest);
    }
  }

  lemma ParseQuotedOne(item: string)
    requires '\'' !in item
    ensures ParseQuoted(Quote(item)) == Some([item])
  {
    var s := Quote(item);
    assert s == "'" + (item + "'" + []);
    QuoteEndPlain(item, []);
    assert s[1..] == item + "'" + [];
    assert s[1..|item| + 1] == item;
    assert s[|item| + 2..] == [];
  }

  lemma ParseQuotedCons(item: string, tail: string)
    requires '\'' !in item && tail != []
    ensures ParseQuoted(Quote(item) + "," + tail) ==
      match ParseQuoted(tail)
      case None => None
      case Some(items) => Some([item] + items)
  {
    var s := Quote(item) + "," + tail;
    assert s == "'" + (item + "'" + ("," + tail));
    QuoteEndPlain(item, "," + tail);
    assert s[1..] == item + "'" + ("," + tail);
    assert s[1..|item| + 1] == item;
    assert s[|item| + 2..] == "," + tail;
    assert ("," + tail)[1..] == tail;
  }

  /** Quoting and joining a list of two or more strings starts with the first one quoted. */
  lemma JoinQuoteAllCons(items: seq<string>)
    requires |items| > 1
    ensures Join(QuoteAll(items)) == Quote(items[0]) + "," + Join(QuoteAll(items[1..]))
    ensures Join(QuoteAll(items[1..])) != []
  {
    var quoted := QuoteAll(items);
    assert quoted[1..] == QuoteAll(items[1..]);
    var rest := QuoteAll(items[1..]);
    if |rest| == 1 {
      assert Join(rest) == Quote(items[1]);
    } else {
      assert Join(rest) == rest[0] + "," + Join(rest[1..]);
    }
  }

  /** A list of strings without single quotes is written out losslessly and in order. */
  lemma {:induction false} ParseQuotedJoin(items: seq<string>)
    requires forall i :: 0 <= i < |items| ==> '\'' !in items[i]
    ensures ParseQuoted(Join(QuoteAll(items))) == Some(items)
    decreases |items|
  {
    if |items| == 1 {
      ParseQuotedOne(items[0]);
      assert QuoteAll(items) == [Quote(items[0])];
      assert items == [items[0]];
    } else if |items| > 1 {
      JoinQuoteAllCons(items);
      ParseQuotedJoin(items[1..]);
      ParseQuotedCons(items[0], Join(QuoteAll(items[1..])));
      assert [items[0]] + items[1..] == items;
    }
  }

  // ---------------------------------------------------------------------------
  // The pass.

  const ProxyHead := "_cmlStyleProxy(("

  /** What follows the expression in the proxy call: the configuration on web, nothing on weex. */
  function ProxyTail(p: Platform, cfg: StyleConfig): string
    requires !IsMiniapp(p)
  {
    if p == Web then ")," + SerializeConfig(cfg) + ")" else "))"
  }

  function StyleProxy(p: Platform, cfg: StyleConfig, e: string): string
    requires !IsMiniapp(p)
  {
    Wrap(ProxyHead, e, ProxyTail(p, cfg))
  }

  function RestyleAttr(p: Platform, cfg: StyleConfig, normalize: string -> string, a: Attr): Attr {
    if a.name == StyleBinding && !IsMiniapp(p) then Attr(StyleBinding, StyleProxy(p, cfg, a.value))
    else if a.name == StyleName && p == Weex then Attr(StyleName, normalize(a.value))
    else a
  }

  /**
   * The element's styles rewritten in place. `normalize` stands for the external
   * style-declaration engine weex output goes through. A dynamic style on a
   * miniapp is not covered, nor is the `:style` shorthand (which is where the
   * v-show rewrite leaves its style text on web and weex).
   */
  function StyleTransform(p: Platform, cfg: StyleConfig, normalize: string -> string, attrs: seq<Attr>): (r: seq<Attr>)
    requires IsMiniapp(p) ==> !Has(attrs, StyleBinding)
    requires !Has(attrs, StyleShorthand)
    ensures |r| == |attrs|
    ensures forall i :: 0 <= i < |attrs| ==> r[i].name == attrs[i].name
    ensures forall i :: 0 <= i < |attrs| && attrs[i].name == StyleBinding && !IsMiniapp(p) ==>
      Strip(r[i].value, ProxyHead, ProxyTail(p, cfg)) == Some(attrs[i].value)
    ensures forall i :: 0 <= i < |attrs| && attrs[i].name == StyleName ==>
      r[i].value == if p == Weex then normalize(attrs[i].value) else attrs[i].value
    ensures forall i :: 0 <= i < |attrs| && attrs[i].name != StyleName && attrs[i].name != StyleBinding ==> r[i] == attrs[i]
    ensures IsMiniapp(p) ==> r == attrs
  {
    var r := seq(|attrs|, i requires 0 <= i < |attrs| => RestyleAttr(p, cfg, normalize, attrs[i]));
    forall i | 0 <= i < |attrs| && attrs[i].name == StyleBinding && !IsMiniapp(p)
      ensures Strip(r[i].value, ProxyHead, ProxyTail(p, cfg)) == Some(attrs[i].value)
    {
      StripWrap(ProxyHead, attrs[i].value, ProxyTail(p, cfg));
    }
    r
  }
}
