# Chameleon template directive passes

A model of the per-element directive rewrite of the Chameleon template
compiler. This rewrite turns Vue-style template attributes into the dialect of
one of five targets: `web`, `weex`, and the mini-programs `wx`, `alipay` and
`baidu`. The implementation (`src/parser/index.js`) is not part of this model.
What is modelled is the behaviour that the package's own test file fixes,
input string to output string, for five passes:

- `parseRefStatement` (module `RefPass`): on a mini-program, `ref` becomes an
  `id` plus the marker class `_cml_ref_lmc_`.
- `parseVue2WxStatement` (modules `Vue2Wx` and `Iteration`), on the three mini-programs:
  - `v-if`, `v-else-if` and `v-else` map to each dialect's conditional attributes.
  - `v-for` splits into for-item, for-index and for.
  - `v-bind:prop` becomes `prop="{{e}}"`.
- `parseStyleStatement` (module `StylePass`):
  - A dynamic style is wrapped in `_cmlStyleProxy((e)…)`. On web the call also
    carries the serialised style configuration.
  - On weex, a static style goes through the declaration normaliser.
- `parseClassStatement` (module `ClassPass`): the static class, the class
  binding and the base classes ` cml-base cml-view` are merged, keeping the
  literal spacing.
- `parseDirectiveStatement` (module `DirectivePass`): `v-model` becomes an
  event and value pair, and `v-show` becomes a style text.

Every pass is a pure function from a platform and an ordered attribute list
(`Attributes.Attr`, name and value strings) to an ordered attribute list.
Directive values are opaque strings.

The conditional chain is checked one element at a time. The resolved directive
of the previous sibling is passed in explicitly. `ConvertSiblings` threads it
along a list of siblings.

Every pass has a partner:

- The Vue2Wx and directive passes have decoders (`Revert`, `Restore`), with
  lossless round-trip lemmas.
- The v-for clause has a printer (`FormatFor`) that reads back through `ParseFor`.
- The style proxy is stripped back to its expression.
- The serialised browser list parses back into the list.
- A merged class string is read as class tokens: the binding's tokens, then the
  static tokens, then the two base classes.

The test fixtures are stated as lemmas in module `Fixtures`, at the level of
each element's attribute list.

## Model

| member | source | states |
|---|---|---|
| Platforms.Parse | packages/chameleon-template-parse/test/parser/index.vue.test.js:43-45 | a target identifier names exactly one of the five platforms; an identifier that names none is rejected |
| Platforms.UninterpolateInterpolate | packages/chameleon-template-parse/test/parser/index.vue.test.js:47-49 | a control-directive value written in braces (wx, alipay) or raw (baidu) reads back unchanged |
| RefPass.RefTransform | packages/chameleon-template-parse/test/parser/index.vue.test.js:30-35 | no ref is left; the id carries the ref's name; the class is the marker exactly when there was a ref; every id is directly followed by the marker class; every other attribute is kept in order |
| Fixtures.RefFixture | packages/chameleon-template-parse/test/parser/index.vue.test.js:30-35 | `ref="flag"` on wx becomes `id="flag"` then `class="_cml_ref_lmc_"` |
| Vue2Wx.ConvertAttr | packages/chameleon-template-parse/test/parser/index.vue.test.js:40-77 | an attribute fails exactly when it is a v-for without ` in `, and the failure names that value; an attribute that is not a directive (including the unrecognised `:prop` shorthand) passes through unchanged |
| Vue2Wx.ConvertAll | packages/chameleon-template-parse/test/parser/index.vue.test.js:68-77 | the element converts exactly when each attribute does; only an iteration syntax error can stop it; every plain attribute is kept as it is |
| Vue2Wx.ConvertElement | packages/chameleon-template-parse/test/parser/index.vue.test.js:40-49 | the chain error is raised exactly when an else-if or else does not follow an if or else-if; otherwise the element converts exactly when its attributes do |
| Vue2Wx.ConvertSiblings | packages/chameleon-template-parse/test/parser/index.vue.test.js:40-49 | siblings convert, in document order, exactly when each converts against its predecessor's directive; each result is that element's own conversion |
| Vue2Wx.RevertConvertAttr | packages/chameleon-template-parse/test/parser/index.vue.test.js:40-77 | one converted attribute reads back as its source attribute, with a v-for clause in explicit form |
| Vue2Wx.RevertConvertAll | packages/chameleon-template-parse/test/parser/index.vue.test.js:40-77 | the miniapp conversion is lossless: reading the output back gives the source attributes |
| Fixtures.ConvertChain | packages/chameleon-template-parse/test/parser/index.vue.test.js:40-49 | an if / else-if / else triple becomes the dialect's if / elif / else, each with the dialect's value encoding |
| Fixtures.WxChainFixture | packages/chameleon-template-parse/test/parser/index.vue.test.js:40-47 | the wx chain is `wx:if`, `wx:elif`, `wx:else`, each with `{{true}}` |
| Fixtures.AlipayChainFixture | packages/chameleon-template-parse/test/parser/index.vue.test.js:40-48 | the alipay chain is `a:if`, `a:elif`, `a:else`, each with `{{true}}` |
| Fixtures.BaiduChainFixture | packages/chameleon-template-parse/test/parser/index.vue.test.js:40-49 | the baidu chain is `s-if`, `s-elif`, `s-else`, each with the raw `true` |
| Iteration.ParseFor | packages/chameleon-template-parse/test/parser/index.vue.test.js:54-63 | a clause is rejected exactly when it has no ` in `, and the error carries the clause |
| Iteration.ParseFormat | packages/chameleon-template-parse/test/parser/index.vue.test.js:54-63 | an explicit `(item,index) in source` clause reads back to its three parts |
| Iteration.ParseBare | packages/chameleon-template-parse/test/parser/index.vue.test.js:54-63 | `item in source` reads with the index name defaulted to `index` |
| Fixtures.ExplicitClause | packages/chameleon-template-parse/test/parser/index.vue.test.js:54 | `(m,i) in array` reads as item m, index i, source array |
| Fixtures.BareClause | packages/chameleon-template-parse/test/parser/index.vue.test.js:54 | `item in array` reads as item item, index index, source array |
| Fixtures.WxIterationFixture | packages/chameleon-template-parse/test/parser/index.vue.test.js:54-61 | on wx both loops become for-item, for-index, then `wx:for="{{array}}"` |
| Fixtures.AlipayIterationFixture | packages/chameleon-template-parse/test/parser/index.vue.test.js:54-62 | on alipay both loops become the `a:` triple with `{{array}}` |
| Fixtures.BaiduIterationFixture | packages/chameleon-template-parse/test/parser/index.vue.test.js:54-63 | on baidu both loops become the `s-` triple with the raw `array` |
| Fixtures.BindFixture | packages/chameleon-template-parse/test/parser/index.vue.test.js:68-77 | on each miniapp `prop1="static"` stays first and unchanged and `v-bind:prop2` becomes `prop2="{{dynamic}}"` |
| StylePass.ParseQuotedJoin | packages/chameleon-template-parse/test/parser/index.vue.test.js:93-99 | the browser list, single-quoted and comma-joined with no blanks, reads back as the same list in order |
| StylePass.StyleTransform | packages/chameleon-template-parse/test/parser/index.vue.test.js:81-146 | names and positions are kept; on web and weex a dynamic style strips back to its expression through the platform's proxy; a static style is normalised on weex only; miniapps are left unchanged |
| Fixtures.BrowsersText | packages/chameleon-template-parse/test/parser/index.vue.test.js:93-99 | the browsers option is written `['> 0.1%','ios >= 8','not ie < 12']` |
| Fixtures.WebStyleFixture | packages/chameleon-template-parse/test/parser/index.vue.test.js:82-99 | on web the binding becomes the proxy call with the configuration object written in the tested key order; the static style is unchanged |
| Fixtures.WeexStyleFixture | packages/chameleon-template-parse/test/parser/index.vue.test.js:103-120 | on weex the binding becomes `_cmlStyleProxy((dynamicColor))` and the static style is what the normaliser returns |
| Fixtures.MiniappStyleFixture | packages/chameleon-template-parse/test/parser/index.vue.test.js:124-145 | on every miniapp the static style is left as written |
| ClassPass.ClassTransform | packages/chameleon-template-parse/test/parser/index.vue.test.js:149-175 | a class is always present; a bare element gains the base classes at the end; the binding is kept on web, proxied on weex and removed on miniapps; no other attribute changes |
| ClassPass.TokensJoin | packages/chameleon-template-parse/test/parser/index.vue.test.js:155 | joining two class strings with a blank joins their class lists, however many blanks each carries |
| ClassPass.MergedClassTokens | packages/chameleon-template-parse/test/parser/index.vue.test.js:150-174 | a merged class string reads as the blank-separated pieces of `{{e}}` (miniapps; one class when the binding has no blank), then the static tokens, then `cml-base`, `cml-view` |
| ClassPass.ClassTransformTokens | packages/chameleon-template-parse/test/parser/index.vue.test.js:149-175 | every element ends up carrying both base classes, after its own static classes and, on miniapps, after the binding |
| Fixtures.BareClassFixture | packages/chameleon-template-parse/test/parser/index.vue.test.js:155 | an element with no class gets `class=" cml-base cml-view"` |
| Fixtures.WebClassFixture | packages/chameleon-template-parse/test/parser/index.vue.test.js:150-155 | on web the class is `cls1 cls2   cml-base cml-view` and the binding is kept raw |
| Fixtures.WeexClassFixture | packages/chameleon-template-parse/test/parser/index.vue.test.js:159-165 | on weex the class text is the same and the binding becomes `_weexClassProxy((…))` |
| Fixtures.WxClassFixture | packages/chameleon-template-parse/test/parser/index.vue.test.js:169-174 | on wx one class `{{…}} cls1 cls2  cml-base cml-view` remains and the binding is gone |
| DirectivePass.ShowCondition | packages/chameleon-template-parse/test/parser/index.vue.test.js:208 | a style text is recognised as a v-show style only when rewriting the found condition gives back that text |
| DirectivePass.ShowConditionStyle | packages/chameleon-template-parse/test/parser/index.vue.test.js:208 | the v-show style text gives back the condition it was written from |
| DirectivePass.Rewrite | packages/chameleon-template-parse/test/parser/index.vue.test.js:178-223 | no v-model or v-show is left; every other attribute survives; each v-show leaves its style text in the platform's style slot; each v-model leaves its event and value attributes, and on miniapps its model key and the dialect's event attribute (`bindinput`, or `bindInput` on alipay) |
| DirectivePass.RewriteInPlace | packages/chameleon-template-parse/test/parser/index.vue.test.js:184-197 | each attribute's rewrite stands in the output as one contiguous run, in its own order, right after the rewrites of the attributes before it |
| DirectivePass.RestoreRewriteAttr | packages/chameleon-template-parse/test/parser/index.vue.test.js:178-223 | one rewritten directive reads back as its source attribute |
| DirectivePass.RestoreRewrite | packages/chameleon-template-parse/test/parser/index.vue.test.js:178-223 | the directive rewrite is lossless: reading the output back gives the source attributes |
| Fixtures.WebModelFixture | packages/chameleon-template-parse/test/parser/index.vue.test.js:179-184 | on web `v-model="searchText"` and `v-model="search"` each become the `v-on:input` proxy call then `v-bind:value` |
| Fixtures.WxModelFixture | packages/chameleon-template-parse/test/parser/index.vue.test.js:188-195 | on wx `searchText` and `search` each become `data-modelkey`, `bindinput`, `value="{{…}}"` |
| Fixtures.BaiduModelFixture | packages/chameleon-template-parse/test/parser/index.vue.test.js:188-196 | on baidu both keys give the same triple with `bindinput` |
| Fixtures.AlipayModelFixture | packages/chameleon-template-parse/test/parser/index.vue.test.js:188-197 | on alipay both keys give the triple with the event attribute `bindInput` |
| Fixtures.ShowFixture | packages/chameleon-template-parse/test/parser/index.vue.test.js:202-222 | `v-show="true"` becomes the display/height style text, under `:style` on web and under `style` on every miniapp |

## Left out

- The `compileTemplate` harness (parsing, tree walk, printing, the trailing `;` strip) is not modelled. Fixtures are stated on each element's attribute list, so printer effects such as `<view >` printing as `<view>` do not arise.
- Weex static-style normalisation (`color:red` becoming `color: #ff0000`) is done by an external declaration engine. It is the parameter `normalize`; the weex fixture assumes only the one input and output pair the test shows.
- Style configuration values are carried as their literal text (`0.5`, `75`, `1.01`). Rem scaling and autoprefixing are out of scope.
- Browser strings are written between single quotes without escaping. The round trip therefore assumes they hold no `'`.
- The runtime helpers `_cmlStyleProxy`, `_cmlModelEventProxy` and `_weexClassProxy` are emitted names only.
- No test exercises the error cases. The model reports an else-if or else without a preceding if as `ChainError`, a `v-for` without ` in ` as `IterationSyntaxError`, and an unknown identifier as `Platforms.Parse` returning `None`.
- Static styles on web and miniapps are left exactly as written; only weex passes them through the normaliser.
- RefPass.RefTransform: covers miniapps only, and only elements without an id or class of their own. Ref on web or weex, and merging into an existing class, are untested.
- ClassPass.ClassTransform: requires the static class and the class binding to be both present or both absent. A lone class or a lone binding is untested.
- ClassPass.ClassTransform: places the base class of a bare element after its other attributes, since the test shows no other attributes to order against.
- ClassPass.ClassTransform: re-running the class merge on its own output is not covered. No test runs it twice.
- StylePass.StyleTransform: requires no `v-bind:style` on a miniapp, and no `:style` shorthand on any platform. The hand-off of the v-show style text (written under `:style` on web and weex) to the style pass is not modelled, and neither is merging it into an existing style binding; no test runs the two passes together.
- DirectivePass.Rewrite: requires an element that carries `v-show` to have no style of its own, since merging with one is untested.
- Fixtures.WxClassFixture: only wx is tested for the miniapp class merge. The model applies the same rule on alipay and baidu.
- Iteration.ParseFor: an explicit index is the text after the first comma. Blanks and other separators are not normalised, as no test has them.
- Fixtures.WebModelFixture: the tag (`input` or `custom-input`) is not part of the model. The pass never looks at it, so each element is stated by its attribute list alone.
- Vue2Wx.ConvertAttr / ConvertAll / ConvertElement / ConvertSiblings: miniapps only; no test runs this pass on web or weex.
- Vue2Wx.ConvertAttr: the `:prop` shorthand of `v-bind:prop` is not recognised; it passes through as written. No test uses it.
- DirectivePass.Rewrite: weex is given the web output (`v-on:input` and `v-bind:value`, v-show under `:style`). The tests named for web and weex compile for web only, so weex follows web by assumption.
