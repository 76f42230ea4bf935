/** The v-for clause: `(item,index) in source` or `item in source`. */
module Iteration {
  import opened Results

  datatype ForClause = ForClause(item: string, index: string, source: string)

  /** The index name a clause without an explicit one gets. */
  const DefaultIndex := "index"

  const InKeyword := " in "

  predicate OccursAt(s: string, pat: string, j: int) {
    0 <= j && j + |pat| <= |s| && s[j..j + |pat|] == pat
  }

  /** The first position at which `pat` occurs in `s`. */
  function Find(s: string, pat: string): (r: Option<nat>)
    ensures r.Some? ==> OccursAt(s, pat, r.value)
    ensures r.Some? ==> forall j :: 0 <= j < r.value ==> !OccursAt(s, pat, j)
    ensures r.None? ==> forall j :: !OccursAt(s, pat, j)
    decreases |s|
  {
    if |s| < |pat| then None
    else if s[..|pat|] == pat then Some(0)
    else
      var r := Find(s[1..], pat);
      assert !OccursAt(s, pat, 0);
      forall j | 1 <= j ensures OccursAt(s, pat, j) <==> OccursAt(s[1..], pat, j - 1) {
        OccursShift(s, pat, j);
      }
      match r
      case None => None
      case Some(k) => Some(k + 1)
  }

  lemma OccursShift(s: string, pat: string, j: int)
    requires s != [] && 1 <= j
    ensures OccursAt(s, pat, j) <==> OccursAt(s[1..], pat, j - 1)
  {
    if j + |pat| <= |s| {
      var a, b := s[j..j + |pat|], s[1..][j - 1..j - 1 + |pat|];
      forall i | 0 <= i < |pat| ensures a[i] == b[i] {
        assert a[i] == s[j + i];
        assert b[i] == s[1..][j - 1 + i];
      }
      assert a == b;
    }
  }

  /** `Find` returns an occurrence exactly when nothing occurs earlier. */
  lemma FindFirst(s: string, pat: string, k: nat)
    requires OccursAt(s, pat, k)
    requires forall j :: 0 <= j < k ==> !OccursAt(s, pat, j)
    ensures Find(s, pat) == Some(k)
  {
  }

  /** Splits a v-for value at its first ` in `; an explicit index is the text after the first comma. */
  function ParseFor(s: string): (r: Result<ForClause, CompileError>)
    ensures r.Err? <==> forall j :: !OccursAt(s, InKeyword, j)
    ensures r.Err? ==> r.error == IterationSyntaxError(s)
  {
    match Find(s, InKeyword)
    case None => Err(IterationSyntaxError(s))
    case Some(k) =>
      var lhs := s[..k];
      var source := s[k + |InKeyword|..];
      if 2 <= |lhs| && lhs[0] == '(' && lhs[|lhs| - 1] == ')' then
        var inner := lhs[1..|lhs| - 1];
        match Find(inner, ",")
        case None => Ok(ForClause(inner, DefaultIndex, source))
        case Some(c) => Ok(ForClause(inner[..c], inner[c + 1..], source))
      else
        Ok(ForClause(lhs, DefaultIndex, source))
  }

  /** The canonical text of a clause, always with an explicit index. */
  function FormatFor(c: ForClause): string {
    "(" + c.item + "," + c.index + ")" + InKeyword + c.source
  }

  /** A name the clause grammar can carry: non-empty, no blank, comma or parenthesis. */
  predicate IsName(s: string) {
    |s| > 0 && forall i :: 0 <= i < |s| ==> s[i] !in " ,()"
  }

  lemma NoInBefore(s: string, k: nat)
    requires k <= |s|
    requires forall i :: 0 <= i < k ==> s[i] != ' '
    ensures forall j :: 0 <= j < k ==> !OccursAt(s, InKeyword, j)
  {
    forall j | 0 <= j < k
      ensures !OccursAt(s, InKeyword, j)
    {
      if j + |InKeyword| <= |s| {
        assert s[j..j + |InKeyword|][0] == s[j] != InKeyword[0];
      }
    }
  }

  /** Text without blanks followed by ` in `: the keyword is found right after it. */
  lemma FindKeyword(lhs: string, source: string)
    requires forall i :: 0 <= i < |lhs| ==> lhs[i] != ' '
    ensures Find(lhs + InKeyword + source, InKeyword) == Some(|lhs|)
  {
    var s := lhs + InKeyword + source;
    var k := |lhs|;
    assert s[k..k + |InKeyword|] == InKeyword;
    forall i | 0 <= i < k ensures s[i] != ' ' {
      assert s[i] == lhs[i];
    }
    NoInBefore(s, k);
    FindFirst(s, InKeyword, k);
  }

  /** A name followed by a comma: the comma is found right after it. */
  lemma FindComma(item: string, index: string)
    requires IsName(item)
    ensures Find(item + "," + index, ",") == Some(|item|)
  {
    var inner := item + "," + index;
    var m := |item|;
    assert inner[m..m + 1] == ",";
    forall j | 0 <= j < m ensures !OccursAt(inner, ",", j) {
      assert inner[j..j + 1][0] == item[j];
    }
    FindFirst(inner, ",", m);
  }

  /** The parenthesised pair of an explicit clause has no blank in it. */
  lemma PairNoBlank(item: string, index: string)
    requires IsName(item) && IsName(index)
    ensures var lhs := "(" + item + "," + index + ")";
      forall i :: 0 <= i < |lhs| ==> lhs[i] != ' '
  {
    var lhs := "(" + item + "," + index + ")";
    forall i | 0 <= i < |lhs| ensures lhs[i] != ' ' {
      if 1 <= i <= |item| {
        assert lhs[i] == item[i - 1];
      } else if |item| + 2 <= i < |lhs| - 1 {
        assert lhs[i] == index[i - |item| - 2];
      }
    }
  }

  /** The explicit form reads back to the clause it was written from. */
  lemma ParseFormat(c: ForClause)
    requires IsName(c.item) && IsName(c.index)
    ensures ParseFor(FormatFor(c)) == Ok(c)
  {
    var lhs := "(" + c.item + "," + c.index + ")";
    var s := FormatFor(c);
    assert s == lhs + InKeyword + c.source;
    PairNoBlank(c.item, c.index);
    FindKeyword(lhs, c.source);
    var k := |lhs|;
    assert s[..k] == lhs;
    assert s[k + |InKeyword|..] == c.source;
    var inner := lhs[1..|lhs| - 1];
    assert inner == c.item + "," + c.index;
    FindComma(c.item, c.index);
    var m := |c.item|;
    assert inner[..m] == c.item;
    assert inner[m + 1..] == c.index;
  }

  /** The bare form defaults the index name to `index`. */
  lemma ParseBare(item: string, source: string)
    requires IsName(item)
    ensures ParseFor(item + InKeyword + source) == Ok(ForClause(item, DefaultIndex, source))
  {
    var s := item + InKeyword + source;
    var k := |item|;
    FindKeyword(item, source);
    assert s[..k] == item;
    assert s[k + |InKeyword|..] == source;
    assert item[0] != '(';
  }
}
