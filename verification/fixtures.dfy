/**
 * The conformance fixtures of the directive passes, each stated on the
 * attribute lists of the fixture's elements: the source attributes of one
 * element in, the exact rewritten attributes out. Long expected texts are
 * written as the concatenation of their fixed and variable parts.
 */
module Fixtures {
  import opened Results
  import opened Attributes
  import opened Platforms
  import opened Iteration
  import opened Vue2Wx
  import RefPass
  import StylePass
  import ClassPass
  import DirectivePass

  // ---------------------------------------------------------------------------
  // ref

  lemma RefFixture()
    ensures RefPass.RefTransform(Wx, [Attr("ref", "flag")]) == [Attr("id", "flag"), Attr("class", "_cml_ref_lmc_")]
  {
  }

  // ---------------------------------------------------------------------------
  // v-if / v-else-if / v-else

  /** An element whose only attribute is a conditional, placed where the chain allows it. */
  lemma ConvertCondElement(p: Platform, prev: Option<Cond>, c: Cond, v: string)
    requires IsMiniapp(p) && (c != If ==> Continues(prev))
    ensures ElementCond([Attr(CondDirective(c), v)]) == Some(c)
    ensures ConvertElement(p, prev, [Attr(CondDirective(c), v)]) == Ok([Attr(CondName(p, c), Interpolate(p, v))])
  {
    var attrs := [Attr(CondDirective(c), v)];
    var out := [Attr(CondName(p, c), Interpolate(p, v))];
    assert CondOf(CondDirective(c)) == Some(c);
    assert ConvertAttr(p, attrs[0]) == Ok(out);
    assert ConvertAll(p, attrs[1..]) == Ok([]);
    assert out + [] == out;
  }

  /** Three siblings carrying v-if, v-else-if and v-else, in that order. */
  lemma ConvertChain(p: Platform, v: string)
    requires IsMiniapp(p)
    ensures ConvertSiblings(p, None, [[Attr("v-if", v)], [Attr("v-else-if", v)], [Attr("v-else", v)]]) ==
      Ok([[Attr(CondName(p, If), Interpolate(p, v))],
          [Attr(CondName(p, ElseIf), Interpolate(p, v))],
          [Attr(CondName(p, Else), Interpolate(p, v))]])
  {
    var e0, e1, e2 := [Attr("v-if", v)], [Attr("v-else-if", v)], [Attr("v-else", v)];
    var o0 := [Attr(CondName(p, If), Interpolate(p, v))];
    var o1 := [Attr(CondName(p, ElseIf), Interpolate(p, v))];
    var o2 := [Attr(CondName(p, Else), Interpolate(p, v))];
    ConvertCondElement(p, None, If, v);
    ConvertCondElement(p, Some(If), ElseIf, v);
    ConvertCondElement(p, Some(ElseIf), Else, v);
    assert ConvertElement(p, None, e0) == Ok(o0) && ElementCond(e0) == Some(If);
    assert ConvertElement(p, Some(If), e1) == Ok(o1) && ElementCond(e1) == Some(ElseIf);
    assert ConvertElement(p, Some(ElseIf), e2) == Ok(o2) && ElementCond(e2) == Some(Else);
    assert [e2][1..] == [];
    assert ConvertSiblings(p, Some(Else), []) == Ok([]);
    assert [o2] + [] == [o2];
    assert ConvertSiblings(p, Some(ElseIf), [e2]) == Ok([o2]);
    assert [e1, e2][1..] == [e2];
    assert [o1] + [o2] == [o1, o2];
    assert ConvertSiblings(p, Some(If), [e1, e2]) == Ok([o1, o2]);
    assert [e0, e1, e2][1..] == [e1, e2];
    assert [o0] + [o1, o2] == [o0, o1, o2];
  }

  const ChainSource := [[Attr("v-if", "true")], [Attr("v-else-if", "true")], [Attr("v-else", "true")]]

  lemma WxChainFixture()
    ensures ConvertSiblings(Wx, None, ChainSource) ==
      Ok([[Attr("wx:if", "{{true}}")], [Attr("wx:elif", "{{true}}")], [Attr("wx:else", "{{true}}")]])
  {
    ConvertChain(Wx, "true");
    assert Interpolate(Wx, "true") == "{{true}}";
    assert CondName(Wx, If) == "wx:if";
    assert CondName(Wx, ElseIf) == "wx:elif";
    assert CondName(Wx, Else) == "wx:else";
  }

  lemma AlipayChainFixture()
    ensures ConvertSiblings(Alipay, None, ChainSource) ==
      Ok([[Attr("a:if", "{{true}}")], [Attr("a:elif", "{{true}}")], [Attr("a:else", "{{true}}")]])
  {
    ConvertChain(Alipay, "true");
    assert Interpolate(Alipay, "true") == "{{true}}";
    assert CondName(Alipay, If) == "a:if";
    assert CondName(Alipay, ElseIf) == "a:elif";
    assert CondName(Alipay, Else) == "a:else";
  }

  lemma BaiduChainFixture()
    ensures ConvertSiblings(Baidu, None, ChainSource) ==
      Ok([[Attr("s-if", "true")], [Attr("s-elif", "true")], [Attr("s-else", "true")]])
  {
    ConvertChain(Baidu, "true");
    assert CondName(Baidu, If) == "s-if";
    assert CondName(Baidu, ElseIf) == "s-elif";
    assert CondName(Baidu, Else) == "s-else";
  }

  // ---------------------------------------------------------------------------
  // v-for

  /** An element whose only attribute is a well-formed v-for. */
  lemma ConvertForElement(p: Platform, v: string, c: ForClause)
    requires IsMiniapp(p) && ParseFor(v) == Ok(c)
    ensures ConvertElement(p, None, [Attr(ForName, v)]) == Ok(ForAttrs(p, c))
  {
    var attrs := [Attr(ForName, v)];
    assert CondOf(ForName).None?;
    assert ElementCond(attrs[1..]) == None;
    assert ConvertAttr(p, attrs[0]) == Ok(ForAttrs(p, c));
    assert ConvertAll(p, attrs[1..]) == Ok([]);
    assert ForAttrs(p, c) + [] == ForAttrs(p, c);
  }

  lemma ExplicitClause()
    ensures ParseFor("(m,i) in array") == Ok(ForClause("m", "i", "array"))
  {
    assert IsName("m");
    assert IsName("i");
    ParseFormat(ForClause("m", "i", "array"));
    assert FormatFor(ForClause("m", "i", "array")) == "(m,i) in array";
  }

  lemma BareClause()
    ensures ParseFor("item in array") == Ok(ForClause("item", DefaultIndex, "array"))
  {
    assert IsName("item");
    ParseBare("item", "array");
    assert "item" + InKeyword + "array" == "item in array";
  }

  lemma WxForAttrs(item: string, index: string)
    ensures ForAttrs(Wx, ForClause(item, index, "array")) ==
      [Attr("wx:for-item", item), Attr("wx:for-index", index), Attr("wx:for", "{{array}}")]
  {
    assert Interpolate(Wx, "array") == "{{array}}";
    assert "wx:" + "for-item" == "wx:for-item" && "wx:" + "for-index" == "wx:for-index" && "wx:" + "for" == "wx:for";
  }

  lemma WxIterationFixture()
    ensures ConvertElement(Wx, None, [Attr("v-for", "(m,i) in array")]) ==
      Ok([Attr("wx:for-item", "m"), Attr("wx:for-index", "i"), Attr("wx:for", "{{array}}")])
    ensures ConvertElement(Wx, None, [Attr("v-for", "item in array")]) ==
      Ok([Attr("wx:for-item", "item"), Attr("wx:for-index", "index"), Attr("wx:for", "{{array}}")])
  {
    ExplicitClause();
    BareClause();
    ConvertForElement(Wx, "(m,i) in array", ForClause("m", "i", "array"));
    ConvertForElement(Wx, "item in array", ForClause("item", DefaultIndex, "array"));
    WxForAttrs("m", "i");
    WxForAttrs("item", DefaultIndex);
  }

  lemma AlipayForAttrs(item: string, index: string)
    ensures ForAttrs(Alipay, ForClause(item, index, "array")) ==
      [Attr("a:for-item", item), Attr("a:for-index", index), Attr("a:for", "{{array}}")]
  {
    assert Interpolate(Alipay, "array") == "{{array}}";
    assert "a:" + "for-item" == "a:for-item" && "a:" + "for-index" == "a:for-index" && "a:" + "for" == "a:for";
  }

  lemma AlipayIterationFixture()
    ensures ConvertElement(Alipay, None, [Attr("v-for", "(m,i) in array")]) ==
      Ok([Attr("a:for-item", "m"), Attr("a:for-index", "i"), Attr("a:for", "{{array}}")])
    ensures ConvertElement(Alipay, None, [Attr("v-for", "item in array")]) ==
      Ok([Attr("a:for-item", "item"), Attr("a:for-index", "index"), Attr("a:for", "{{array}}")])
  {
    ExplicitClause();
    BareClause();
    ConvertForElement(Alipay, "(m,i) in array", ForClause("m", "i", "array"));
    ConvertForElement(Alipay, "item in array", ForClause("item", DefaultIndex, "array"));
    AlipayForAttrs("m", "i");
    AlipayForAttrs("item", DefaultIndex);
  }

  lemma BaiduForAttrs(item: string, index: string)
    ensures ForAttrs(Baidu, ForClause(item, index, "array")) ==
      [Attr("s-for-item", item), Attr("s-for-index", index), Attr("s-for", "array")]
  {
    assert "s-" + "for-item" == "s-for-item" && "s-" + "for-index" == "s-for-index" && "s-" + "for" == "s-for";
  }

  lemma BaiduIterationFixture()
    ensures ConvertElement(Baidu, None, [Attr("v-for", "(m,i) in array")]) ==
      Ok([Attr("s-for-item", "m"), Attr("s-for-index", "i"), Attr("s-for", "array")])
    ensures ConvertElement(Baidu, None, [Attr("v-for", "item in array")]) ==
      Ok([Attr("s-for-item", "item"), Attr("s-for-index", "index"), Attr("s-for", "array")])
  {
    ExplicitClause();
    BareClause();
    ConvertForElement(Baidu, "(m,i) in array", ForClause("m", "i", "array"));
    ConvertForElement(Baidu, "item in array", ForClause("item", DefaultIndex, "array"));
    BaiduForAttrs("m", "i");
    BaiduForAttrs("item", DefaultIndex);
  }

  // ---------------------------------------------------------------------------
  // v-bind

  /** An element with a static attribute followed by a bound one. */
  lemma ConvertBindElement(p: Platform, name: string, v: string, prop: string, e: string)
    requires IsMiniapp(p)
    requires CondOf(name).None? && name != ForName && !StartsWith(name, BindPrefix)
    ensures ConvertElement(p, None, [Attr(name, v), Attr(BindPrefix + prop, e)]) ==
      Ok([Attr(name, v), Attr(prop, Braces(e))])
  {
    var bound := BindPrefix + prop;
    var attrs := [Attr(name, v), Attr(bound, e)];
    PrefixStarts(BindPrefix, prop);
    assert bound[|BindPrefix|..] == prop;
    assert CondOf(bound).None? by {
      assert bound[2] == 'b';
    }
    assert bound != ForName by {
      assert bound[2] == 'b';
    }
    var rest := attrs[1..];
    assert rest == [Attr(bound, e)] && rest[1..] == [];
    assert ElementCond(rest) == None;
    assert ElementCond(attrs) == None;
    assert ConvertAttr(p, attrs[0]) == Ok([Attr(name, v)]);
    assert ConvertAttr(p, rest[0]) == Ok([Attr(prop, Braces(e))]);
    assert ConvertAll(p, rest[1..]) == Ok([]);
    assert [Attr(prop, Braces(e))] + [] == [Attr(prop, Braces(e))];
    assert ConvertAll(p, rest) == Ok([Attr(prop, Braces(e))]);
    assert ChainLegal(None, attrs);
    assert [Attr(name, v)] + [Attr(prop, Braces(e))] == [Attr(name, v), Attr(prop, Braces(e))];
    assert ConvertAll(p, attrs) == Ok([Attr(name, v), Attr(prop, Braces(e))]);
  }

  /** A static attribute is kept and a bound one loses its prefix and is braced, on every miniapp. */
  lemma BindFixture(p: Platform)
    requires IsMiniapp(p)
    ensures ConvertElement(p, None, [Attr("prop1", "static"), Attr("v-bind:prop2", "dynamic")]) ==
      Ok([Attr("prop1", "static"), Attr("prop2", "{{dynamic}}")])
  {
    assert !StartsWith("prop1", BindPrefix);
    ConvertBindElement(p, "prop1", "static", "prop2", "dynamic");
    assert BindPrefix + "prop2" == "v-bind:prop2";
    assert Braces("dynamic") == "{{dynamic}}";
  }

  // ---------------------------------------------------------------------------
  // style

  const FixtureConfig := StylePass.StyleConfig(true, "0.5", "75", "1.01", ["> 0.1%", "ios >= 8", "not ie < 12"])

  lemma JoinOfThree(a: string, b: string, c: string)
    ensures StylePass.Join([a, b, c]) == a + "," + (b + "," + c)
  {
    assert [a, b, c][1..] == [b, c];
    assert [b, c][1..] == [c];
    assert StylePass.Join([c]) == c;
    assert StylePass.Join([b, c]) == b + "," + c;
  }

  lemma BrowsersQuoted()
    ensures StylePass.QuoteAll(FixtureConfig.browsers) == ["'> 0.1%'", "'ios >= 8'", "'not ie < 12'"]
  {
    var quoted := StylePass.QuoteAll(FixtureConfig.browsers);
    assert quoted[0] == "'> 0.1%'";
    assert quoted[1] == "'ios >= 8'";
    assert quoted[2] == "'not ie < 12'";
  }

  lemma BrowsersText()
    ensures StylePass.ArrayLiteral(FixtureConfig.browsers) == "['> 0.1%'," + "'ios >= 8'," + "'not ie < 12']"
  {
    BrowsersQuoted();
    JoinOfThree("'> 0.1%'", "'ios >= 8'", "'not ie < 12'");
  }

  /** The web target wraps the binding with the configuration and leaves static style alone. */
  lemma WebStyleFixture(normalize: string -> string)
    ensures StylePass.StyleTransform(Web, FixtureConfig, normalize, [Attr("v-bind:style", "dynamicColor")]) ==
      [Attr("v-bind:style",
        "_cmlStyleProxy((" + "dynamicColor" + ("),"
        + ("{'rem':" + "true"
          + ",'scale':" + "0.5"
          + ",'remOptions':{'rootValue':" + "75"
          + ",'minPixelValue':" + "1.01"
          + "},'autoprefixOptions':{'browsers':" + ("['> 0.1%'," + "'ios >= 8'," + "'not ie < 12']")
          + "}}")
        + ")"))]
    ensures StylePass.StyleTransform(Web, FixtureConfig, normalize, [Attr("style", "color:red")]) ==
      [Attr("style", "color:red")]
  {
    BrowsersText();
    assert StylePass.SerializeConfig(FixtureConfig) ==
      "{'rem':" + "true"
      + ",'scale':" + "0.5"
      + ",'remOptions':{'rootValue':" + "75"
      + ",'minPixelValue':" + "1.01"
      + "},'autoprefixOptions':{'browsers':" + ("['> 0.1%'," + "'ios >= 8'," + "'not ie < 12']")
      + "}}";
  }

  /** Whatever the declaration engine does, weex hands it the static style and wraps the dynamic one without configuration. */
  lemma WeexStyleFixture(normalize: string -> string)
    requires normalize("color:red;width:20px") == "color: #ff0000;width: 20px"
    ensures StylePass.StyleTransform(Weex, FixtureConfig, normalize, [Attr("v-bind:style", "dynamicColor")]) ==
      [Attr("v-bind:style", "_cmlStyleProxy((" + "dynamicColor" + "))")]
    ensures StylePass.StyleTransform(Weex, FixtureConfig, normalize, [Attr("style", "color:red;width:20px")]) ==
      [Attr("style", "color: #ff0000;width: 20px")]
  {
    var bound := StylePass.StyleTransform(Weex, FixtureConfig, normalize, [Attr("v-bind:style", "dynamicColor")]);
    assert bound[0].value == "_cmlStyleProxy((" + "dynamicColor" + "))";
    var fixed := StylePass.StyleTransform(Weex, FixtureConfig, normalize, [Attr("style", "color:red;width:20px")]);
    assert fixed[0] == Attr("style", "color: #ff0000;width: 20px");
  }

  lemma MiniappStyleFixture(p: Platform, normalize: string -> string)
    requires IsMiniapp(p)
    ensures StylePass.StyleTransform(p, FixtureConfig, normalize, [Attr("style", "color:red;width:20px")]) ==
      [Attr("style", "color:red;width:20px")]
  {
    assert !Has([Attr("style", "color:red;width:20px")], StyleBinding);
  }

  // ---------------------------------------------------------------------------
  // class

  const ClassSource := [Attr("class", "cls1 cls2"), Attr("v-bind:class", "true?'cls3':'cls4'")]

  /** An element with a static class followed by a class binding. */
  lemma ClassPair(p: Platform, fixedClass: string, e: string)
    ensures ClassPass.Covered([Attr("class", fixedClass), Attr("v-bind:class", e)])
    ensures ClassPass.ClassTransform(p, [Attr("class", fixedClass), Attr("v-bind:class", e)]) ==
      if IsMiniapp(p) then [Attr("class", ClassPass.MergedClass(p, fixedClass, e))]
      else if p == Weex then [Attr("class", ClassPass.MergedClass(p, fixedClass, e)), Attr("v-bind:class", ClassPass.WeexClassProxy(e))]
      else [Attr("class", ClassPass.MergedClass(p, fixedClass, e)), Attr("v-bind:class", e)]
  {
    var attrs := [Attr("class", fixedClass), Attr("v-bind:class", e)];
    assert attrs[0].name == "class" && attrs[1].name == "v-bind:class";
    assert Lookup(attrs, "class") == Some(fixedClass);
    assert attrs[1..][1..] == [];
    assert Lookup(attrs, "v-bind:class") == Some(e);
    var m := ClassPass.MergedClass(p, fixedClass, e);
    var merged := SetValue(attrs, "class", m);
    assert merged == [Attr("class", m), Attr("v-bind:class", e)];
    if IsMiniapp(p) {
      assert merged[1..][1..] == [];
      assert Without(merged, {"v-bind:class"}) == [Attr("class", m)];
    } else if p == Weex {
      assert SetValue(merged, "v-bind:class", ClassPass.WeexClassProxy(e)) ==
        [Attr("class", m), Attr("v-bind:class", ClassPass.WeexClassProxy(e))];
    }
  }

  lemma BareClassFixture(p: Platform)
    ensures ClassPass.ClassTransform(p, []) == [Attr("class", " cml-base cml-view")]
  {
  }

  lemma WebClassFixture()
    ensures ClassPass.Covered(ClassSource)
    ensures ClassPass.ClassTransform(Web, ClassSource) ==
      [Attr("class", "cls1 cls2" + "  " + " cml-base cml-view"), Attr("v-bind:class", "true?'cls3':'cls4'")]
  {
    ClassPair(Web, "cls1 cls2", "true?'cls3':'cls4'");
  }

  lemma WeexClassFixture()
    ensures ClassPass.Covered(ClassSource)
    ensures ClassPass.ClassTransform(Weex, ClassSource) ==
      [Attr("class", "cls1 cls2" + "  " + " cml-base cml-view"),
       Attr("v-bind:class", "_weexClassProxy((" + "true?'cls3':'cls4'" + "))")]
  {
    ClassPair(Weex, "cls1 cls2", "true?'cls3':'cls4'");
  }

  lemma WxClassFixture()
    ensures ClassPass.Covered(ClassSource)
    ensures ClassPass.ClassTransform(Wx, ClassSource) ==
      [Attr("class", "{{" + "true?'cls3':'cls4'" + "}}" + " " + "cls1 cls2" + " " + " cml-base cml-view")]
  {
    ClassPair(Wx, "cls1 cls2", "true?'cls3':'cls4'");
  }

  // ---------------------------------------------------------------------------
  // v-model, v-show

  /** An element whose only attribute is a v-model or a v-show. */
  lemma RewriteSingle(p: Platform, a: Attr)
    requires a.name == DirectivePass.ModelName || a.name == DirectivePass.ShowName
    ensures DirectivePass.StyleFree([a])
    ensures DirectivePass.Rewrite(p, [a]) == DirectivePass.RewriteAttr(p, a)
  {
    assert [a][1..] == [];
    assert DirectivePass.RewriteAttr(p, a) + [] == DirectivePass.RewriteAttr(p, a);
  }

  lemma WebModelFixture()
    ensures DirectivePass.Rewrite(Web, [Attr("v-model", "searchText")]) ==
      [Attr("v-on:input", "_cmlModelEventProxy" + "($event,'" + "searchText" + "')"), Attr("v-bind:value", "searchText")]
    ensures DirectivePass.Rewrite(Web, [Attr("v-model", "search")]) ==
      [Attr("v-on:input", "_cmlModelEventProxy" + "($event,'" + "search" + "')"), Attr("v-bind:value", "search")]
  {
    RewriteSingle(Web, Attr("v-model", "searchText"));
    RewriteSingle(Web, Attr("v-model", "search"));
  }

  lemma WxModelFixture()
    ensures DirectivePass.Rewrite(Wx, [Attr("v-model", "searchText")]) ==
      [Attr("data-modelkey", "searchText"), Attr("bindinput", "_cmlModelEventProxy"), Attr("value", "{{searchText}}")]
    ensures DirectivePass.Rewrite(Wx, [Attr("v-model", "search")]) ==
      [Attr("data-modelkey", "search"), Attr("bindinput", "_cmlModelEventProxy"), Attr("value", "{{search}}")]
  {
    RewriteSingle(Wx, Attr("v-model", "searchText"));
    assert Braces("searchText") == "{{searchText}}";
    RewriteSingle(Wx, Attr("v-model", "search"));
    assert Braces("search") == "{{search}}";
  }

  lemma BaiduModelFixture()
    ensures DirectivePass.Rewrite(Baidu, [Attr("v-model", "searchText")]) ==
      [Attr("data-modelkey", "searchText"), Attr("bindinput", "_cmlModelEventProxy"), Attr("value", "{{searchText}}")]
    ensures DirectivePass.Rewrite(Baidu, [Attr("v-model", "search")]) ==
      [Attr("data-modelkey", "search"), Attr("bindinput", "_cmlModelEventProxy"), Attr("value", "{{search}}")]
  {
    RewriteSingle(Baidu, Attr("v-model", "searchText"));
    assert Braces("searchText") == "{{searchText}}";
    RewriteSingle(Baidu, Attr("v-model", "search"));
    assert Braces("search") == "{{search}}";
  }

  lemma AlipayModelFixture()
    ensures DirectivePass.Rewrite(Alipay, [Attr("v-model", "searchText")]) ==
      [Attr("data-modelkey", "searchText"), Attr("bindInput", "_cmlModelEventProxy"), Attr("value", "{{searchText}}")]
    ensures DirectivePass.Rewrite(Alipay, [Attr("v-model", "search")]) ==
      [Attr("data-modelkey", "search"), Attr("bindInput", "_cmlModelEventProxy"), Attr("value", "{{search}}")]
  {
    RewriteSingle(Alipay, Attr("v-model", "searchText"));
    assert Braces("searchText") == "{{searchText}}";
    RewriteSingle(Alipay, Attr("v-model", "search"));
    assert Braces("search") == "{{search}}";
  }

  lemma ShowFixture()
    ensures DirectivePass.Rewrite(Web, [Attr("v-show", "true")]) ==
      [Attr(":style", "display:{{" + "true" + "?'':'none'}};{{" + "true" + "?'':'height:0px;width:0px;overflow:hidden'}}")]
    ensures DirectivePass.Rewrite(Wx, [Attr("v-show", "true")]) ==
      [Attr("style", "display:{{" + "true" + "?'':'none'}};{{" + "true" + "?'':'height:0px;width:0px;overflow:hidden'}}")]
    ensures DirectivePass.Rewrite(Baidu, [Attr("v-show", "true")]) ==
      [Attr("style", "display:{{" + "true" + "?'':'none'}};{{" + "true" + "?'':'height:0px;width:0px;overflow:hidden'}}")]
    ensures DirectivePass.Rewrite(Alipay, [Attr("v-show", "true")]) ==
      [Attr("style", "display:{{" + "true" + "?'':'none'}};{{" + "true" + "?'':'height:0px;width:0px;overflow:hidden'}}")]
  {
    RewriteSingle(Web, Attr("v-show", "true"));
    RewriteSingle(Wx, Attr("v-show", "true"));
    RewriteSingle(Baidu, Attr("v-show", "true"));
    RewriteSingle(Alipay, Attr("v-show", "true"));
  }
}
