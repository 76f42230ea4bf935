/**
 * The class merge: static `class`, the `v-bind:class` expression and the two
 * framework base classes, joined with the literal spacing each target emits.
 */
module ClassPass {
  import opened Results
  import opened Attributes
  import opened Platforms

  /** The injected base classes, with the leading blank every target keeps. */
  const BaseClasses := " cml-base cml-view"
  const BaseTokens := ["cml-base", "cml-view"]

  /** The weex call site that turns a class expression into something weex can apply. */
  function WeexClassProxy(e: string): string {
    Wrap("_weexClassProxy((", e, "))")
  }

  /**
   * The element shapes the merge is defined for: static class and binding
   * together, or neither.
   */
  predicate Covered(attrs: seq<Attr>) {
    Has(attrs, ClassName) <==> Has(attrs, ClassBinding)
  }

  /** The merged static class text of an element that has both a class and a binding. */
  function MergedClass(p: Platform, fixedClass: string, e: string): string {
    if IsMiniapp(p) then Braces(e) + " " + fixedClass + " " + BaseClasses
    else fixedClass + "  " + BaseClasses
  }

  function ClassTransform(p: Platform, attrs: seq<Attr>): (r: seq<Attr>)
    requires Covered(attrs)
    ensures Has(r, ClassName)
    ensures Lookup(attrs, ClassName).None? ==> r == attrs + [Attr(ClassName, BaseClasses)]
    ensures Lookup(attrs, ClassName).Some? && p == Web ==> Lookup(r, ClassBinding) == Lookup(attrs, ClassBinding)
    ensures Lookup(attrs, ClassName).Some? && p == Weex ==>
      Lookup(r, ClassBinding) == Some(WeexClassProxy(Lookup(attrs, ClassBinding).value))
    ensures IsMiniapp(p) ==> !Has(r, ClassBinding)
    ensures Without(r, {ClassName, ClassBinding}) == Without(attrs, {ClassName, ClassBinding})
  {
    match Lookup(attrs, ClassName)
    case None =>
      var r := attrs + [Attr(ClassName, BaseClasses)];
      assert Has(r, ClassName) by { assert r[|attrs|].name == ClassName; }
      WithoutAppend(attrs, Attr(ClassName, BaseClasses), {ClassName, ClassBinding});
      r
    case Some(fixedClass) =>
      var e := Lookup(attrs, ClassBinding).value;
      var merged := SetValue(attrs, ClassName, MergedClass(p, fixedClass, e));
      LookupSetValue(attrs, ClassName, MergedClass(p, fixedClass, e), ClassName);
      WithoutSetValue(attrs, ClassName, MergedClass(p, fixedClass, e), {ClassName, ClassBinding});
      if IsMiniapp(p) then
        var r := Without(merged, {ClassBinding});
        LookupWithout(merged, {ClassBinding}, ClassName);
        assert Without(r, {ClassName, ClassBinding}) == Without(merged, {ClassName, ClassBinding}) by {
          WithoutTwice(merged, {ClassBinding}, {ClassName, ClassBinding});
        }
        r
      else if p == Weex then
        var r := SetValue(merged, ClassBinding, WeexClassProxy(e));
        LookupSetValue(merged, ClassBinding, WeexClassProxy(e), ClassName);
        LookupSetValue(merged, ClassBinding, WeexClassProxy(e), ClassBinding);
        LookupSetValue(attrs, ClassName, MergedClass(p, fixedClass, e), ClassBinding);
        WithoutSetValue(merged, ClassBinding, WeexClassProxy(e), {ClassName, ClassBinding});
        r
      else
        LookupSetValue(attrs, ClassName, MergedClass(p, fixedClass, e), ClassBinding);
        merged
  }

  lemma WithoutAppend(attrs: seq<Attr>, a: Attr, names: set<string>)
    requires a.name in names
    ensures Without(attrs + [a], names) == Without(attrs, names)
    decreases |attrs|
  {
    if attrs != [] {
      assert (attrs + [a])[1..] == attrs[1..] + [a];
      WithoutAppend(attrs[1..], a, names);
    }
  }

  lemma WithoutSetValue(attrs: seq<Attr>, name: string, v: string, names: set<string>)
    requires name in names
    ensures Without(SetValue(attrs, name, v), names) == Without(attrs, names)
    decreases |attrs|
  {
    if attrs != [] {
      assert SetValue(attrs, name, v)[1..] == SetValue(attrs[1..], name, v);
      WithoutSetValue(attrs[1..], name, v, names);
    }
  }

  lemma WithoutTwice(attrs: seq<Attr>, inner: set<string>, outer: set<string>)
    requires inner <= outer
    ensures Without(Without(attrs, inner), outer) == Without(attrs, outer)
    decreases |attrs|
  {
    if attrs != [] {
      WithoutTwice(attrs[1..], inner, outer);
    }
  }

  // ---------------------------------------------------------------------------
  // Class tokens: what a browser or miniapp runtime reads from a class string.

  /** Length of the leading run of non-blank characters. */
  function WordEnd(s: string): (k: nat)
    ensures k <= |s|
    ensures k < |s| ==> s[k] == ' '
  {
    if s == [] || s[0] == ' ' then 0 else 1 + WordEnd(s[1..])
  }

  /** The leading run really is blank-free. */
  lemma {:induction false} WordEndWord(s: string)
    ensures forall i :: 0 <= i < WordEnd(s) ==> s[i] != ' '
    decreases |s|
  {
    if s != [] && s[0] != ' ' {
      WordEndWord(s[1..]);
      forall i | 0 <= i < WordEnd(s) ensures s[i] != ' ' {
        if i > 0 { assert s[i] == s[1..][i - 1]; }
      }
    }
  }

  /** The leading run, cut off, is a run of its own. */
  lemma {:induction false} WordEndPrefix(s: string)
    ensures WordEnd(s[..WordEnd(s)]) == WordEnd(s)
    decreases |s|
  {
    if s != [] && s[0] != ' ' {
      WordEndPrefix(s[1..]);
      assert s[..WordEnd(s)][1..] == s[1..][..WordEnd(s[1..])];
    }
  }

  /** The blank-separated class names of a class string; runs of blanks separate like one. */
  function Tokens(s: string): seq<string>
    decreases |s|
  {
    if s == [] then []
    else if s[0] == ' ' then Tokens(s[1..])
    else
      var k := WordEnd(s);
      [s[..k]] + Tokens(s[k..])
  }

  /** Every class name read from a class string is non-empty and blank-free. */
  lemma {:induction false} TokensAreWords(s: string)
    ensures forall i :: 0 <= i < |Tokens(s)| ==> Tokens(s)[i] != [] && ' ' !in Tokens(s)[i]
    decreases |s|
  {
    if s != [] && s[0] == ' ' {
      TokensAreWords(s[1..]);
    } else if s != [] {
      var k := WordEnd(s);
      assert ' ' !in s[..k] by {
        WordEndWord(s);
        forall i | 0 <= i < k ensures s[..k][i] != ' ' { }
      }
      TokensAreWords(s[k..]);
      var r := Tokens(s);
      assert r == [s[..k]] + Tokens(s[k..]);
      forall i | 0 <= i < |r| ensures r[i] != [] && ' ' !in r[i] {
        if i > 0 { assert r[i] == Tokens(s[k..])[i - 1]; }
      }
    }
  }

  lemma WordEndBlank(a: string, t: string)
    requires t != [] && t[0] == ' '
    ensures WordEnd(a + t) == WordEnd(a)
    decreases |a|
  {
    if a != [] && a[0] != ' ' {
      assert (a + t)[1..] == a[1..] + t;
      WordEndBlank(a[1..], t);
    }
  }

  /** Joining two class strings with a blank joins their class lists. */
  lemma {:induction false} TokensJoin(a: string, b: string)
    ensures Tokens(a + " " + b) == Tokens(a) + Tokens(b)
    decreases |a|
  {
    if a == [] {
      assert (a + " " + b)[1..] == b;
    } else if a[0] == ' ' {
      TokensJoin(a[1..], b);
      TokensJoinBlank(a, b);
    } else {
      var k := WordEnd(a);
      TokensJoin(a[k..], b);
      WordEndPrefix(a);
      assert a == a[..k] + a[k..];
      TokensJoinWord(a[..k], a[k..], b);
    }
  }

  lemma TokensJoinBlank(a: string, b: string)
    requires a != [] && a[0] == ' '
    requires Tokens(a[1..] + " " + b) == Tokens(a[1..]) + Tokens(b)
    ensures Tokens(a + " " + b) == Tokens(a) + Tokens(b)
  {
    var s := a + " " + b;
    assert s[0] == ' ';
    assert s[1..] == a[1..] + " " + b;
  }

  lemma TokensJoinWord(w: string, r: string, b: string)
    requires w != [] && WordEnd(w) == |w|
    requires r == [] || r[0] == ' '
    requires Tokens(r + " " + b) == Tokens(r) + Tokens(b)
    ensures Tokens(w + r + " " + b) == Tokens(w + r) + Tokens(b)
  {
    assert w + r + " " + b == w + (r + " " + b);
    TokensLead(w, r);
    TokensLead(w, r + " " + b);
  }

  /** A run of non-blanks followed by nothing or by a blank reads as that word first. */
  lemma TokensLead(w: string, rest: string)
    requires w != [] && WordEnd(w) == |w|
    requires rest == [] || rest[0] == ' '
    ensures Tokens(w + rest) == [w] + Tokens(rest)
  {
    var s := w + rest;
    WordEndLead(w, rest);
    assert s[..|w|] == w;
    assert s[|w|..] == rest;
  }

  lemma {:induction false} WordEndLead(w: string, rest: string)
    requires WordEnd(w) == |w|
    requires rest == [] || rest[0] == ' '
    ensures WordEnd(w + rest) == |w|
    decreases |w|
  {
    if w == [] {
      assert w + rest == rest;
    } else {
      assert (w + rest)[1..] == w[1..] + rest;
      WordEndLead(w[1..], rest);
    }
  }

  /** A single class name is its own class list. */
  lemma TokensWord(w: string)
    requires w != [] && ' ' !in w
    ensures Tokens(w) == [w]
  {
    var k := WordEnd(w);
    assert w[..k] == w;
    assert w[k..] == [];
  }

  lemma TokensTwoWords(a: string, b: string)
    requires a != [] && ' ' !in a && b != [] && ' ' !in b
    ensures Tokens(" " + a + " " + b) == [a, b]
  {
    assert " " + a + " " + b == [] + " " + (a + " " + b);
    TokensJoin([], a + " " + b);
    TokensJoin(a, b);
    TokensWord(a);
    TokensWord(b);
  }

  lemma BaseClassTokens()
    ensures Tokens(BaseClasses) == BaseTokens
  {
    var a, b := "cml-base", "cml-view";
    assert ' ' !in a && ' ' !in b;
    assert BaseClasses == " " + a + " " + b;
    TokensTwoWords(a, b);
  }

  /**
   * The class list a merged class string carries: on miniapps the binding's
   * tokens first, then the static classes, then the two base classes. The
   * binding's tokens are the blank-separated pieces of `{{e}}`; they name the
   * binding as one class only when `e` itself has no blank.
   */
  lemma {:induction false} MergedClassTokens(p: Platform, fixedClass: string, e: string)
    ensures Tokens(MergedClass(p, fixedClass, e)) ==
      (if IsMiniapp(p) then Tokens(Braces(e)) else []) + Tokens(fixedClass) + BaseTokens
  {
    BaseClassTokens();
    JoinThree(Braces(e), fixedClass, BaseClasses);
  }

  /** The two joins the merge uses: one blank on miniapps, two blanks elsewhere. */
  lemma JoinThree(front: string, middle: string, back: string)
    ensures Tokens(front + " " + middle + " " + back) == Tokens(front) + Tokens(middle) + Tokens(back)
    ensures Tokens(middle + "  " + back) == Tokens(middle) + Tokens(back)
  {
    assert front + " " + middle + " " + back == front + " " + (middle + " " + back);
    TokensJoin(front, middle + " " + back);
    TokensJoin(middle, back);
    assert middle + "  " + back == middle + " " + (" " + back);
    TokensJoin(middle, " " + back);
    assert (" " + back)[1..] == back;
  }

  /** Every element ends up carrying both base classes, after its own. */
  lemma ClassTransformTokens(p: Platform, attrs: seq<Attr>)
    requires Covered(attrs)
    ensures var r := ClassTransform(p, attrs);
      Tokens(Lookup(r, ClassName).value) ==
        match Lookup(attrs, ClassName)
        case None => BaseTokens
        case Some(fixedClass) =>
          (if IsMiniapp(p) then Tokens(Braces(Lookup(attrs, ClassBinding).value)) else []) + Tokens(fixedClass) + BaseTokens
  {
    var r := ClassTransform(p, attrs);
    match Lookup(attrs, ClassName)
    case None =>
      BaseClassTokens();
      LookupAppend(attrs, Attr(ClassName, BaseClasses));
    case Some(fixedClass) =>
      var e := Lookup(attrs, ClassBinding).value;
      MergedClassTokens(p, fixedClass, e);
      ClassValue(p, attrs);
  }

  lemma LookupAppend(attrs: seq<Attr>, a: Attr)
    requires !Has(attrs, a.name)
    ensures Lookup(attrs + [a], a.name) == Some(a.value)
    decreases |attrs|
  {
    if attrs != [] {
      assert (attrs + [a])[1..] == attrs[1..] + [a];
      HasTail(attrs, a.name);
      LookupAppend(attrs[1..], a);
    }
  }

  lemma ClassValue(p: Platform, attrs: seq<Attr>)
    requires Covered(attrs) && Has(attrs, ClassName)
    ensures Lookup(ClassTransform(p, attrs), ClassName) ==
      Some(MergedClass(p, Lookup(attrs, ClassName).value, Lookup(attrs, ClassBinding).value))
  {
    var fixedClass := Lookup(attrs, ClassName).value;
    var e := Lookup(attrs, ClassBinding).value;
    var merged := SetValue(attrs, ClassName, MergedClass(p, fixedClass, e));
    LookupSetValue(attrs, ClassName, MergedClass(p, fixedClass, e), ClassName);
    if IsMiniapp(p) {
      LookupWithout(merged, {ClassBinding}, ClassName);
    } else if p == Weex {
      LookupSetValue(merged, ClassBinding, WeexClassProxy(e), ClassName);
    }
  }
}
