/** The ordered attribute list of one element, and the string helpers every pass shares. */
module Attributes {
  import opened Results

  /** One attribute as the template parser hands it over: a name and its raw text. */
  datatype Attr = Attr(name: string, value: string)

  // The attribute names more than one pass reads or writes.
  const ClassName := "class"
  const ClassBinding := "v-bind:class"
  const StyleName := "style"
  const StyleBinding := "v-bind:style"
  /** The shorthand spelling of the style binding. */
  const StyleShorthand := ":style"

  predicate StartsWith(s: string, prefix: string) {
    |prefix| <= |s| && s[..|prefix|] == prefix
  }

  lemma PrefixStarts(prefix: string, rest: string)
    ensures StartsWith(prefix + rest, prefix)
  {
    assert (prefix + rest)[..|prefix|] == prefix;
  }

  predicate Has(attrs: seq<Attr>, name: string) {
    exists i :: 0 <= i < |attrs| && attrs[i].name == name
  }

  lemma HasTail(attrs: seq<Attr>, name: string)
    requires attrs != []
    ensures Has(attrs, name) <==> attrs[0].name == name || Has(attrs[1..], name)
  {
    if Has(attrs[1..], name) {
      var i :| 0 <= i < |attrs[1..]| && attrs[1..][i].name == name;
      assert attrs[i + 1].name == name;
    }
    if Has(attrs, name) && attrs[0].name != name {
      var i :| 0 <= i < |attrs| && attrs[i].name == name;
      assert attrs[1..][i - 1].name == name;
    }
  }

  lemma HasConcat(a: seq<Attr>, b: seq<Attr>, name: string)
    ensures Has(a + b, name) <==> Has(a, name) || Has(b, name)
  {
    if Has(a + b, name) {
      var i :| 0 <= i < |a + b| && (a + b)[i].name == name;
      if i >= |a| { assert b[i - |a|].name == name; }
    }
    if Has(b, name) {
      var i :| 0 <= i < |b| && b[i].name == name;
      assert (a + b)[i + |a|].name == name;
    }
    if Has(a, name) {
      var i :| 0 <= i < |a| && a[i].name == name;
      assert (a + b)[i].name == name;
    }
  }

  /** The value of the first attribute called `name`. */
  function Lookup(attrs: seq<Attr>, name: string): (r: Option<string>)
    ensures r.Some? <==> Has(attrs, name)
    ensures r.Some? ==> Attr(name, r.value) in attrs
  {
    if attrs == [] then None
    else if attrs[0].name == name then Some(attrs[0].value)
    else
      var r := Lookup(attrs[1..], name);
      assert Has(attrs, name) ==> Has(attrs[1..], name) by {
        if Has(attrs, name) {
          var i :| 0 <= i < |attrs| && attrs[i].name == name;
          assert attrs[1..][i - 1].name == name;
        }
      }
      assert Has(attrs[1..], name) ==> Has(attrs, name) by {
        if Has(attrs[1..], name) {
          var i :| 0 <= i < |attrs[1..]| && attrs[1..][i].name == name;
          assert attrs[i + 1].name == name;
        }
      }
      r
  }

  /** Every attribute whose name is in `names` removed; the rest keep their order. */
  function Without(attrs: seq<Attr>, names: set<string>): (r: seq<Attr>)
    ensures |r| <= |attrs|
    ensures forall a :: a in r <==> a in attrs && a.name !in names
  {
    if attrs == [] then []
    else if attrs[0].name in names then Without(attrs[1..], names)
    else [attrs[0]] + Without(attrs[1..], names)
  }

  lemma LookupConcat(a: seq<Attr>, b: seq<Attr>, name: string)
    ensures Lookup(a + b, name) == if Has(a, name) then Lookup(a, name) else Lookup(b, name)
    decreases |a|
  {
    if a != [] {
      assert (a + b)[1..] == a[1..] + b;
      HasTail(a, name);
      LookupConcat(a[1..], b, name);
    } else {
      assert a + b == b;
    }
  }

  lemma WithoutConcat(a: seq<Attr>, b: seq<Attr>, names: set<string>)
    ensures Without(a + b, names) == Without(a, names) + Without(b, names)
    decreases |a|
  {
    if a != [] {
      assert (a + b)[1..] == a[1..] + b;
      WithoutConcat(a[1..], b, names);
    } else {
      assert a + b == b;
    }
  }

  /** Every attribute called `name` given the value `v`, in place. */
  function SetValue(attrs: seq<Attr>, name: string, v: string): (r: seq<Attr>)
    ensures |r| == |attrs|
    ensures forall i :: 0 <= i < |attrs| ==> r[i].name == attrs[i].name
    ensures forall i :: 0 <= i < |attrs| && attrs[i].name != name ==> r[i] == attrs[i]
    ensures forall i :: 0 <= i < |attrs| && attrs[i].name == name ==> r[i].value == v
  {
    seq(|attrs|, i requires 0 <= i < |attrs| =>
      if attrs[i].name == name then Attr(name, v) else attrs[i])
  }

  lemma LookupSetValue(attrs: seq<Attr>, name: string, v: string, other: string)
    ensures Lookup(SetValue(attrs, name, v), other) ==
      (if other == name && Has(attrs, name) then Some(v) else Lookup(attrs, other))
    decreases |attrs|
  {
    if attrs != [] {
      assert SetValue(attrs, name, v)[1..] == SetValue(attrs[1..], name, v);
      LookupSetValue(attrs[1..], name, v, other);
    }
  }

  lemma LookupWithout(attrs: seq<Attr>, names: set<string>, other: string)
    requires other !in names
    ensures Lookup(Without(attrs, names), other) == Lookup(attrs, other)
    decreases |attrs|
  {
    if attrs != [] {
      LookupWithout(attrs[1..], names, other);
    }
  }

  // ---------------------------------------------------------------------------
  // Wrapping an expression between a fixed head and tail, and undoing it.

  function Wrap(head: string, e: string, tail: string): string {
    head + e + tail
  }

  /** The text between `head` and `tail`, when `s` has that shape. */
  function Strip(s: string, head: string, tail: string): (r: Option<string>)
    ensures r.Some? ==> Wrap(head, r.value, tail) == s
    ensures r.None? ==> forall e :: Wrap(head, e, tail) != s
  {
    if |head| + |tail| <= |s| && s[..|head|] == head && s[|s| - |tail|..] == tail then
      var e := s[|head|..|s| - |tail|];
      assert Wrap(head, e, tail) == s by {
        assert s == s[..|head|] + s[|head|..|s| - |tail|] + s[|s| - |tail|..];
      }
      Some(e)
    else
      assert forall e :: Wrap(head, e, tail) != s by {
        forall e ensures Wrap(head, e, tail) != s {
          var w := Wrap(head, e, tail);
          assert w[..|head|] == head;
          assert w[|w| - |tail|..] == tail;
        }
      }
      None
  }

  lemma StripWrap(head: string, e: string, tail: string)
    ensures Strip(Wrap(head, e, tail), head, tail) == Some(e)
  {
    var w := Wrap(head, e, tail);
    assert w[..|head|] == head;
    assert w[|w| - |tail|..] == tail;
    assert w[|head|..|w| - |tail|] == e;
  }

  /** Brace interpolation `{{expr}}`, the miniapp dialects' mark of a dynamic value. */
  function Braces(e: string): string {
    Wrap("{{", e, "}}")
  }

  predicate IsBraced(s: string) {
    Strip(s, "{{", "}}").Some?
  }

  function Unbrace(s: string): (r: Option<string>)
    ensures r.Some? <==> IsBraced(s)
    ensures r.Some? ==> Braces(r.value) == s
  {
    Strip(s, "{{", "}}")
  }

  lemma UnbraceBraces(e: string)
    ensures Unbrace(Braces(e)) == Some(e)
  {
    StripWrap("{{", e, "}}");
  }
}
