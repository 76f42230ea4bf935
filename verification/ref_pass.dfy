/**
 * The miniapp rewrite of `ref`: miniapps have no component-instance reference,
 * so the name becomes the element's id and a marker class flags it for lookup.
 */
module RefPass {
  import opened Results
  import opened Attributes
  import opened Platforms

  const RefName := "ref"
  const IdName := "id"

  /** The class that marks an element reached through a ref. */
  const RefMarker := "_cml_ref_lmc_"

  /** What one attribute becomes: a ref turns into the id and the marker class. */
  function RefAttrs(a: Attr): seq<Attr> {
    if a.name == RefName then [Attr(IdName, a.value), Attr(ClassName, RefMarker)] else [a]
  }

  /**
   * Each `ref="name"` replaced where it stands by `id="name"` followed by the
   * marker class: every id in the output is directly followed by the marker. Only miniapps are covered, and only elements that carry no
   * id or class of their own.
   */
  function RefTransform(p: Platform, attrs: seq<Attr>): (r: seq<Attr>)
    requires IsMiniapp(p)
    requires !Has(attrs, IdName) && !Has(attrs, ClassName)
    ensures !Has(r, RefName)
    ensures Lookup(r, IdName) == Lookup(attrs, RefName)
    ensures Lookup(r, ClassName) == if Has(attrs, RefName) then Some(RefMarker) else None
    ensures Without(r, {IdName, ClassName}) == Without(attrs, {RefName})
    ensures forall j :: 0 <= j < |r| && r[j].name == IdName ==> j + 1 < |r| && r[j + 1] == Attr(ClassName, RefMarker)
    decreases |attrs|
  {
    if attrs == [] then []
    else
      HasTail(attrs, IdName);
      HasTail(attrs, ClassName);
      var tail := RefTransform(p, attrs[1..]);
      RefStep(attrs[0], attrs[1..], tail);
      assert [attrs[0]] + attrs[1..] == attrs;
      RefAdjacent(attrs[0], tail);
      RefAttrs(attrs[0]) + tail
  }

  /** Every id is directly followed by the marker class. */
  predicate IdThenMarker(r: seq<Attr>) {
    forall j :: 0 <= j < |r| && r[j].name == IdName ==> j + 1 < |r| && r[j + 1] == Attr(ClassName, RefMarker)
  }

  lemma RefAdjacent(first: Attr, tail: seq<Attr>)
    requires first.name != IdName
    requires IdThenMarker(tail)
    ensures IdThenMarker(RefAttrs(first) + tail)
  {
    var head := RefAttrs(first);
    var r := head + tail;
    forall j | 0 <= j < |r| && r[j].name == IdName ensures j + 1 < |r| && r[j + 1] == Attr(ClassName, RefMarker) {
      if j >= |head| {
        assert r[j] == tail[j - |head|];
        assert r[j + 1] == tail[j + 1 - |head|];
      }
    }
  }

  /** One attribute's rewrite put in front of an already rewritten rest keeps the four properties. */
  lemma RefStep(first: Attr, rest: seq<Attr>, tail: seq<Attr>)
    requires first.name != IdName && first.name != ClassName
    requires !Has(tail, RefName)
    requires Lookup(tail, IdName) == Lookup(rest, RefName)
    requires Lookup(tail, ClassName) == if Has(rest, RefName) then Some(RefMarker) else None
    requires Without(tail, {IdName, ClassName}) == Without(rest, {RefName})
    ensures !Has(RefAttrs(first) + tail, RefName)
    ensures Lookup(RefAttrs(first) + tail, IdName) == Lookup([first] + rest, RefName)
    ensures Lookup(RefAttrs(first) + tail, ClassName) ==
      if Has([first] + rest, RefName) then Some(RefMarker) else None
    ensures Without(RefAttrs(first) + tail, {IdName, ClassName}) == Without([first] + rest, {RefName})
  {
    var head := RefAttrs(first);
    var attrs := [first] + rest;
    assert attrs[1..] == rest;
    HasTail(attrs, RefName);
    HasTail(head, RefName);
    HasTail(head, IdName);
    HasTail(head, ClassName);
    if |head| == 2 {
      HasTail(head[1..], RefName);
      HasTail(head[1..], IdName);
      HasTail(head[1..], ClassName);
      assert head[1..][1..] == [];
    } else {
      assert head[1..] == [];
    }
    HasConcat(head, tail, RefName);
    LookupConcat(head, tail, IdName);
    LookupConcat(head, tail, ClassName);
    WithoutConcat(head, tail, {IdName, ClassName});
    WithoutConcat([first], rest, {RefName});
  }
}
