/**
 * The two-way binding directive v-model and the show/hide directive v-show,
 * rewritten in place on one element.
 */
module DirectivePass {
  import opened Results
  import opened Attributes
  import opened Platforms

  const ModelName := "v-model"
  const ShowName := "v-show"

  /** The runtime handler every model binding dispatches to (emitted as a name only). */
  const ModelHandler := "_cmlModelEventProxy"
  const ModelKeyName := "data-modelkey"

  /** The web call site: the handler applied to the event and the key as a literal. */
  function ModelCall(key: string): string {
    Wrap(ModelHandler + "($event,'", key, "')")
  }

  /** What `v-model="key"` becomes; the tag (native control or component) plays no part. */
  function ModelAttrs(p: Platform, key: string): seq<Attr> {
    if IsMiniapp(p) then
      [Attr(ModelKeyName, key), Attr(DialectOf(p).inputEvent, ModelHandler), Attr("value", Braces(key))]
    else
      [Attr("v-on:input", ModelCall(key)), Attr("v-bind:value", key)]
  }

  const ShowHead := "display:{{"
  const ShowMid := "?'':'none'}};{{"
  const ShowTail := "?'':'height:0px;width:0px;overflow:hidden'}}"

  /** The style text that hides the element and its layout when `e` is false. */
  function ShowStyle(e: string): string {
    ShowHead + e + ShowMid + e + ShowTail
  }

  /** The style attribute v-show writes into: the binding on web/weex, the plain one on miniapps. */
  function ShowTarget(p: Platform): string {
    if IsMiniapp(p) then StyleName else StyleShorthand
  }

  /** The condition a v-show style text was written from. */
  function ShowCondition(s: string): (r: Option<string>)
    ensures r.Some? ==> ShowStyle(r.value) == s
  {
    var fixed := |ShowHead| + |ShowMid| + |ShowTail|;
    if |s| < fixed || (|s| - fixed) % 2 != 0 then None
    else
      var e := s[|ShowHead|..|ShowHead| + (|s| - fixed) / 2];
      if ShowStyle(e) == s then Some(e) else None
  }

  lemma ShowConditionStyle(e: string)
    ensures ShowCondition(ShowStyle(e)) == Some(e)
  {
    var s := ShowStyle(e);
    assert s == ShowHead + (e + (ShowMid + e + ShowTail));
    assert s[|ShowHead|..|ShowHead| + |e|] == e;
  }

  function RewriteAttr(p: Platform, a: Attr): seq<Attr> {
    if a.name == ModelName then ModelAttrs(p, a.value)
    else if a.name == ShowName then [Attr(ShowTarget(p), ShowStyle(a.value))]
    else [a]
  }

  predicate StyleFree(attrs: seq<Attr>) {
    !Has(attrs, StyleName) && !Has(attrs, StyleShorthand) && !Has(attrs, StyleBinding)
  }

  /**
   * Every v-model and v-show rewritten where it stands. Merging v-show into an
   * existing style is not covered, so the element may not carry one.
   */
  function Rewrite(p: Platform, attrs: seq<Attr>): (r: seq<Attr>)
    requires Has(attrs, ShowName) ==> StyleFree(attrs)
    ensures !Has(r, ModelName) && !Has(r, ShowName)
    ensures forall a :: a in attrs && a.name != ModelName && a.name != ShowName ==> a in r
    ensures forall a :: a in attrs && a.name == ShowName ==> Attr(ShowTarget(p), ShowStyle(a.value)) in r
    ensures forall a :: a in attrs && a.name == ModelName && IsMiniapp(p) ==>
      Attr(ModelKeyName, a.value) in r && Attr(DialectOf(p).inputEvent, ModelHandler) in r &&
      Attr("value", Braces(a.value)) in r
    ensures forall a :: a in attrs && a.name == ModelName && !IsMiniapp(p) ==>
      Attr("v-on:input", ModelCall(a.value)) in r && Attr("v-bind:value", a.value) in r
    decreases |attrs|
  {
    if attrs == [] then []
    else
      var head := RewriteAttr(p, attrs[0]);
      var tail := attrs[1..];
      HasTail(attrs, ShowName);
      HasTail(attrs, StyleName);
      HasTail(attrs, StyleShorthand);
      HasTail(attrs, StyleBinding);
      var r := head + Rewrite(p, tail);
      assert !Has(r, ModelName) && !Has(r, ShowName) by {
        forall i | 0 <= i < |r| ensures r[i].name != ModelName && r[i].name != ShowName {
          if i >= |head| {
            assert r[i] == Rewrite(p, tail)[i - |head|];
          }
        }
      }
      r
  }

  /** Attribute runs laid end to end. */
  function Flatten(runs: seq<seq<Attr>>): seq<Attr> {
    if runs == [] then [] else runs[0] + Flatten(runs[1..])
  }

  /** What each attribute of the element is rewritten to, one run per attribute. */
  function Pieces(p: Platform, attrs: seq<Attr>): (r: seq<seq<Attr>>)
    ensures |r| == |attrs|
  {
    seq(|attrs|, i requires 0 <= i < |attrs| => RewriteAttr(p, attrs[i]))
  }

  /** Where the rewrite of attribute `i` starts: after the rewrites of all earlier attributes. */
  function Offset(p: Platform, attrs: seq<Attr>, i: nat): nat
    requires i <= |attrs|
  {
    |Flatten(Pieces(p, attrs)[..i])|
  }

  /** `run` stands in `r` as one contiguous block starting at `j`. */
  predicate RunAt(r: seq<Attr>, run: seq<Attr>, j: nat) {
    j + |run| <= |r| && r[j..j + |run|] == run
  }

  /**
   * Each attribute's rewrite stands in the output as one contiguous run, in its
   * own order and after the rewrites of the attributes before it: the model
   * key, event and value of a v-model stay together.
   */
  lemma RewriteInPlace(p: Platform, attrs: seq<Attr>, i: nat)
    requires Has(attrs, ShowName) ==> StyleFree(attrs)
    requires i < |attrs|
    ensures RunAt(Rewrite(p, attrs), RewriteAttr(p, attrs[i]), Offset(p, attrs, i))
  {
    RewriteFlatten(p, attrs);
    FlattenRun(Pieces(p, attrs), i);
  }

  lemma {:induction false} FlattenRun(runs: seq<seq<Attr>>, i: nat)
    requires i < |runs|
    ensures RunAt(Flatten(runs), runs[i], |Flatten(runs[..i])|)
    decreases |runs|
  {
    if i == 0 {
      assert runs[..0] == [];
      RunHead(runs[0], Flatten(runs[1..]));
    } else {
      FlattenRun(runs[1..], i - 1);
      assert runs[1..][i - 1] == runs[i];
      assert runs[..i][1..] == runs[1..][..i - 1];
      RunFront(runs[0], Flatten(runs[1..]), runs[i], |Flatten(runs[1..][..i - 1])|);
    }
  }

  lemma {:induction false} RewriteFlatten(p: Platform, attrs: seq<Attr>)
    requires Has(attrs, ShowName) ==> StyleFree(attrs)
    ensures Rewrite(p, attrs) == Flatten(Pieces(p, attrs))
    decreases |attrs|
  {
    if attrs != [] {
      RewriteCons(p, attrs);
      RewriteFlatten(p, attrs[1..]);
      assert Pieces(p, attrs)[1..] == Pieces(p, attrs[1..]);
    }
  }

  lemma RunHead(head: seq<Attr>, rest: seq<Attr>)
    ensures RunAt(head + rest, head, 0)
  {
    assert (head + rest)[..|head|] == head;
  }

  /** A run found in `rest` is found in `head + rest`, shifted by `head`. */
  lemma RunFront(head: seq<Attr>, rest: seq<Attr>, run: seq<Attr>, j: nat)
    requires RunAt(rest, run, j)
    ensures RunAt(head + rest, run, |head| + j)
  {
    var r := head + rest;
    var shifted, found := r[|head| + j..|head| + j + |run|], rest[j..j + |run|];
    forall k | 0 <= k < |run| ensures shifted[k] == found[k] {
      assert shifted[k] == r[|head| + j + k];
    }
    assert shifted == found;
  }

  /** The rewrite of a non-empty list is its first attribute's rewrite followed by the rest's. */
  lemma RewriteCons(p: Platform, attrs: seq<Attr>)
    requires Has(attrs, ShowName) ==> StyleFree(attrs)
    requires attrs != []
    ensures Has(attrs[1..], ShowName) ==> StyleFree(attrs[1..])
    ensures Rewrite(p, attrs) == RewriteAttr(p, attrs[0]) + Rewrite(p, attrs[1..])
  {
    HasTail(attrs, ShowName);
    HasTail(attrs, StyleName);
    HasTail(attrs, StyleShorthand);
    HasTail(attrs, StyleBinding);
  }

  // ---------------------------------------------------------------------------
  // Reading the rewritten attributes back into the source directives.

  function Restore(p: Platform, out: seq<Attr>): seq<Attr>
    decreases |out|
  {
    if out == [] then []
    else if !IsMiniapp(p) && |out| >= 2 && out[1].name == "v-bind:value" && out[0] == Attr("v-on:input", ModelCall(out[1].value)) then
      [Attr(ModelName, out[1].value)] + Restore(p, out[2..])
    else if IsMiniapp(p) && |out| >= 3 && out[0].name == ModelKeyName
        && out[1] == Attr(DialectOf(p).inputEvent, ModelHandler) && out[2] == Attr("value", Braces(out[0].value)) then
      [Attr(ModelName, out[0].value)] + Restore(p, out[3..])
    else if out[0].name == ShowTarget(p) && ShowCondition(out[0].value).Some? then
      [Attr(ShowName, ShowCondition(out[0].value).value)] + Restore(p, out[1..])
    else [out[0]] + Restore(p, out[1..])
  }

  /** An attribute the pass leaves alone does not look like one it writes. */
  predicate Restorable(p: Platform, a: Attr) {
    a.name !in {"v-on:input", ModelKeyName, ShowTarget(p)}
  }

  lemma RestoreRewriteAttr(p: Platform, a: Attr, rest: seq<Attr>)
    requires a.name == ModelName || a.name == ShowName || Restorable(p, a)
    ensures Restore(p, RewriteAttr(p, a) + rest) == [a] + Restore(p, rest)
  {
    var out := RewriteAttr(p, a);
    if a.name == ModelName {
      if IsMiniapp(p) {
        assert (out + rest)[3..] == rest;
      } else {
        assert (out + rest)[2..] == rest;
      }
    } else if a.name == ShowName {
      ShowConditionStyle(a.value);
      assert (out + rest)[1..] == rest;
    } else {
      assert (out + rest)[1..] == rest;
    }
  }

  /** The rewrite is lossless: reading the output back yields the source attributes. */
  lemma {:induction false} RestoreRewrite(p: Platform, attrs: seq<Attr>)
    requires Has(attrs, ShowName) ==> StyleFree(attrs)
    requires forall i :: 0 <= i < |attrs| ==> attrs[i].name == ModelName || attrs[i].name == ShowName || Restorable(p, attrs[i])
    ensures Restore(p, Rewrite(p, attrs)) == attrs
    decreases |attrs|
  {
    if attrs != [] {
      var tail := attrs[1..];
      HasTail(attrs, ShowName);
      HasTail(attrs, StyleName);
      HasTail(attrs, StyleShorthand);
      HasTail(attrs, StyleBinding);
      assert Has(tail, ShowName) ==> StyleFree(tail);
      assert forall i :: 0 <= i < |tail| ==> tail[i] == attrs[i + 1];
      RestoreRewrite(p, tail);
      assert Rewrite(p, attrs) == RewriteAttr(p, attrs[0]) + Rewrite(p, tail);
      RestoreRewriteAttr(p, attrs[0], Rewrite(p, tail));
      assert [attrs[0]] + tail == attrs;
    }
  }
}
