/**
 * `extractArgNames`, written twice in the repository with the same body
 * (internal/javascript/runtime.go and internal/functions/parser.go): the
 * parameter names of a function's source text.
 *
 * The pattern `\(([^)]*)\)` matches at the first `(` that has a `)` after
 * it, and its group runs to the first such `)`; a `(` with no `)` after it
 * has none after any later `(` either, so the first `(` decides. The group
 * is split on every comma, each piece is trimmed in place, and the empty
 * pieces are dropped.
 */
module ArgNames {
  import opened Wrappers
  import opened Text

  /** "no arguments found in function signature" */
  datatype ArgNamesError = NoArguments

  /** The group of the first match of `\(([^)]*)\)`, if there is a match. */
  function ParenGroup(s: string): (r: Option<string>)
    ensures r.Some? ==> Excludes(r.value, ')')
  {
    var p := NextIndex(s, '(', 0);
    if p == |s| then None
    else
      var q := NextIndex(s, ')', p + 1);
      if q == |s| then None
      else Some(s[p + 1..q])
  }

  /** The pattern matches exactly when some `(` has a `)` after it. */
  lemma ParenGroupExists(s: string)
    ensures ParenGroup(s).Some? <==> exists i, j :: 0 <= i < j < |s| && s[i] == '(' && s[j] == ')'
  {
    var p := NextIndex(s, '(', 0);
    if p < |s| {
      var q := NextIndex(s, ')', p + 1);
      if q < |s| {
        assert s[p] == '(' && s[q] == ')';
      } else {
        forall i, j | 0 <= i < j < |s| && s[i] == '('
          ensures s[j] != ')'
        {
          assert p <= i;
          assert p + 1 <= j;
        }
      }
    }
  }

  /** The group of `a(g)b` is `g` when `a` opens no parenthesis and `g` closes none. */
  lemma ParenGroupOf(a: string, g: string, b: string)
    requires Excludes(a, '(') && Excludes(g, ')')
    ensures ParenGroup(a + "(" + g + ")" + b) == Some(g)
  {
    var s := a + "(" + g + ")" + b;
    NextIndexIs(s, '(', 0, |a|);
    NextIndexIs(s, ')', |a| + 1, |a| + 1 + |g|);
    assert s[|a| + 1..|a| + 1 + |g|] == g;
  }

  /** The pieces that are not empty, in order. */
  function NonEmpty(xs: seq<string>): (ys: seq<string>)
    ensures |ys| <= |xs|
    ensures forall j :: 0 <= j < |ys| ==> ys[j] != "" && ys[j] in xs
  {
    if |xs| == 0 then []
    else
      var last := xs[|xs| - 1];
      NonEmpty(xs[..|xs| - 1]) + (if last == "" then [] else [last])
  }

  /** `extractArgNames(fnString)`. */
  function Names(s: string): (r: Result<seq<string>, ArgNamesError>)
    ensures r.Failure? <==> ParenGroup(s).None?
  {
    match ParenGroup(s)
    case None => Failure(NoArguments)
    case Some(g) => Success(NonEmpty(TrimAll(Split(g, ','))))
  }

  /** The names are read from the group alone. */
  lemma NamesOfGroup(s: string, g: string)
    requires ParenGroup(s) == Some(g)
    ensures Names(s) == Success(NonEmpty(TrimAll(Split(g, ','))))
  {
  }

  /** Every name is non-empty, trimmed, and holds no comma and no `)`. */
  lemma NamesAreClean(s: string)
    requires Names(s).Success?
    ensures forall j :: 0 <= j < |Names(s).value| ==> Clean(Names(s).value[j])
  {
    var g := ParenGroup(s).value;
    NamesOfGroup(s, g);
    PiecesAreClean(g);
  }

  /** A parameter name as `extractArgNames` can return it. */
  predicate Clean(n: string) {
    n != "" && Trimmed(n)
  }

  /** Trimmed for good, and holding neither separator. */
  predicate Trimmed(n: string) {
    TrimSpace(n) == n && Excludes(n, ',') && Excludes(n, ')')
  }

  lemma PiecesAreClean(g: string)
    requires Excludes(g, ')')
    ensures forall j :: 0 <= j < |NonEmpty(TrimAll(Split(g, ',')))| ==> Clean(NonEmpty(TrimAll(Split(g, ',')))[j])
  {
    var ts := TrimAll(Split(g, ','));
    forall k | 0 <= k < |ts|
      ensures Trimmed(ts[k])
    {
      PieceIsClean(g, k);
    }
    NonEmptyClean(ts);
  }

  /** The non-empty pieces of trimmed pieces are clean names. */
  lemma NonEmptyClean(xs: seq<string>)
    requires forall k :: 0 <= k < |xs| ==> Trimmed(xs[k])
    ensures forall j :: 0 <= j < |NonEmpty(xs)| ==> Clean(NonEmpty(xs)[j])
  {
    var ys := NonEmpty(xs);
    forall j | 0 <= j < |ys|
      ensures Clean(ys[j])
    {
      var k :| 0 <= k < |xs| && xs[k] == ys[j];
    }
  }

  /** A trimmed piece of the group is trimmed for good and holds neither separator. */
  lemma PieceIsClean(g: string, k: nat)
    requires Excludes(g, ')') && k < |Split(g, ',')|
    ensures var n := TrimSpace(Split(g, ',')[k]);
      TrimSpace(n) == n && Excludes(n, ',') && Excludes(n, ')')
  {
    var piece := Split(g, ',')[k];
    TrimSpaceIdempotent(piece);
    SplitNoSep(g, ',', k);
    var lo, hi := SplitSlice(g, ',', k);
    ExcludesSlice(g, lo, hi, ')');
    var plo, phi := TrimSpaceSlice(piece);
    ExcludesSlice(piece, plo, phi, ',');
    ExcludesSlice(piece, plo, phi, ')');
  }

  lemma ExcludesSlice(s: string, lo: nat, hi: nat, c: char)
    requires lo <= hi <= |s| && Excludes(s, c)
    ensures Excludes(s[lo..hi], c)
  {
    assert forall k :: 0 <= k < hi - lo ==> s[lo..hi][k] == s[lo + k];
  }

  /** `()` declares no parameters, and is not an error. */
  lemma EmptyParentheses()
    ensures Names("()") == Success([])
  {
    NamesRoundTrip("", [], "");
    assert "" + "(" + Join([], ',') + ")" + "" == "()";
  }

  /** Names written as `a(n1,…,nk)b` are read back as they were written. */
  lemma NamesRoundTrip(a: string, names: seq<string>, b: string)
    requires Excludes(a, '(')
    requires forall j :: 0 <= j < |names| ==> Clean(names[j])
    ensures Names(a + "(" + Join(names, ',') + ")" + b) == Success(names)
  {
    var g := Join(names, ',');
    JoinExcludes(names, ',', ')');
    ParenGroupOf(a, g, b);
    NamesOfGroup(a + "(" + g + ")" + b, g);
    if |names| == 0 {
      assert Split("", ',') == [""];
      assert NonEmpty([""]) == NonEmpty([]) + [];
    } else {
      SplitJoin(names, ',');
      TrimAllKeeps(names);
      NonEmptyKeeps(names);
    }
  }

  lemma TrimAllKeeps(xs: seq<string>)
    requires forall j :: 0 <= j < |xs| ==> TrimSpace(xs[j]) == xs[j]
    ensures TrimAll(xs) == xs
  {
  }

  /** Joining strings without `c` by a separator other than `c` gives a string without `c`. */
  lemma {:induction false} JoinExcludes(parts: seq<string>, sep: char, c: char)
    requires sep != c && forall j :: 0 <= j < |parts| ==> Excludes(parts[j], c)
    ensures Excludes(Join(parts, sep), c)
  {
    if |parts| > 1 {
      JoinExcludes(parts[1..], sep, c);
      var rest := Join(parts[1..], sep);
      var whole := parts[0] + [sep] + rest;
      assert forall k :: |parts[0]| + 1 <= k < |whole| ==> whole[k] == rest[k - |parts[0]| - 1];
    }
  }

  /** Dropping the empty pieces of a sequence that has none keeps it whole. */
  lemma {:induction false} NonEmptyKeeps(xs: seq<string>)
    requires forall j :: 0 <= j < |xs| ==> xs[j] != ""
    ensures NonEmpty(xs) == xs
  {
    if |xs| > 0 {
      NonEmptyKeeps(xs[..|xs| - 1]);
      assert xs == xs[..|xs| - 1] + [xs[|xs| - 1]];
    }
  }

  /**
   * `extractArgNames`: the pieces of the group are trimmed in place in an
   * array, then the non-empty ones are appended to the result.
   */
  method ExtractArgNames(fnString: string) returns (r: Result<seq<string>, ArgNamesError>)
    ensures r == Names(fnString)
  {
    var group := ParenGroup(fnString);
    if group.None? {
      return Failure(NoArguments);
    }
    var filtered := CleanPieces(Split(group.value, ','));
    NamesOfGroup(fnString, group.value);
    return Success(filtered);
  }

  /** The pieces of the group, trimmed in place, then without the empty ones. */
  method CleanPieces(pieces: seq<string>) returns (names: seq<string>)
    ensures names == NonEmpty(TrimAll(pieces))
  {
    var argNames := new string[|pieces|](j => if 0 <= j < |pieces| then pieces[j] else "");
    assert argNames[..] == pieces;
    TrimInPlace(argNames);
    names := DropEmpty(argNames);
  }

  /** `argNames[i] = strings.TrimSpace(arg)` for every `i`. */
  method TrimInPlace(a: array<string>)
    modifies a
    ensures a[..] == TrimAll(old(a[..]))
  {
    for i := 0 to a.Length
      invariant forall j :: 0 <= j < i ==> a[j] == TrimSpace(old(a[j]))
      invariant forall j :: i <= j < a.Length ==> a[j] == old(a[j])
    {
      a[i] := TrimSpace(a[i]);
    }
    TrimmedEach(old(a[..]), a[..]);
  }

  /** A sequence trimmed element by element is `TrimAll` of the original. */
  lemma TrimmedEach(xs: seq<string>, ys: seq<string>)
    requires |xs| == |ys| && forall j :: 0 <= j < |ys| ==> ys[j] == TrimSpace(xs[j])
    ensures ys == TrimAll(xs)
  {
  }

  /** The appends to `filteredArgs`. */
  method DropEmpty(a: array<string>) returns (filtered: seq<string>)
    ensures filtered == NonEmpty(a[..])
  {
    filtered := [];
    for i := 0 to a.Length
      invariant filtered == NonEmpty(a[..i])
    {
      assert a[..i + 1][..i] == a[..i];
      if a[i] != "" {
        filtered := filtered + [a[i]];
      }
    }
    assert a[..a.Length] == a[..];
  }
}
