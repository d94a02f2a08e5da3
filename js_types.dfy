/**
 * internal/javascript/tfjs.go: reading a TypeScript type annotation (as
 * written in a JSDoc `{...}`) as a Terraform type.
 *
 * The object-member regular expression
 *   (?:(\w+)|\[(\w+)\s*:\s*(\w+)\])\s*:\s*({[^}]*}|[\w\[\]{}|]+)\s*;
 * is implemented by hand (`MatchAt`, `FindAll`) with Go's leftmost-first
 * semantics: every piece of it is either a maximal run or a fixed
 * character, so no backtracking except between the two value alternatives
 * can change a match.
 */
module JsTypes {
  import opened Wrappers
  import opened Types
  import opened Text

  /** The errors `getTerraformType` returns, innermost cause last. */
  datatype TypeError =
    | UnionUnsupported                                   // "union types are not supported"
    | InnerType(inner: string, cause: TypeError)         // "could not parse '%s' type: %w"
    | NonStringIndexKey(keyType: string)                 // "index signatures can only be assigned to maps ..."
    | IndexSignatureValue(keyName: string, keyType: string, valueType: string, cause: TypeError)
    | UnsupportedObject(tys: string)                     // "type '%s' is not supported"
    | AttributeType(key: string, typ: string, cause: TypeError)  // "could not parse key '%s' type '%s': %w"

  /** One match of the object-member expression: a named member (groups 1 and 4) or an index signature (groups 2, 3 and 4). */
  datatype Member =
    | Named(key: string, typ: string)
    | IndexSignature(keyName: string, keyType: string, valueType: string)

  function ValueText(m: Member): string {
    match m
    case Named(_, typ) => typ
    case IndexSignature(_, _, valueType) => valueType
  }

  /** The characters of the second value alternative, `[\w\[\]{}|]`. */
  predicate IsValueChar(c: char) {
    IsWordChar(c) || c == '[' || c == ']' || c == '{' || c == '}' || c == '|'
  }

  /** End of the longest run of `inClass` characters starting at `i`. */
  function RunEnd(s: string, i: nat, inClass: char -> bool): (r: nat)
    requires i <= |s|
    ensures i <= r <= |s|
    ensures forall k :: i <= k < r ==> inClass(s[k])
    ensures r < |s| ==> !inClass(s[r])
    decreases |s| - i
  {
    if i < |s| && inClass(s[i]) then RunEnd(s, i + 1, inClass) else i
  }

  /** `\s*;` at `v`: the position after the semicolon. */
  function Close(s: string, v: nat): (r: Option<nat>)
    requires v <= |s|
    ensures r.Some? ==> v < r.value <= |s|
  {
    var t := RunEnd(s, v, IsReSpace);
    if t < |s| && s[t] == ';' then Some(t + 1) else None
  }

  /** The value group and the end of the whole match. */
  datatype Span = Span(vStart: nat, vEnd: nat, end: nat)

  /** `({[^}]*}|[\w\[\]{}|]+)\s*;` at `f`, trying the braced alternative first. */
  function MatchValue(s: string, f: nat): (r: Option<Span>)
    requires f <= |s|
    ensures r.Some? ==> r.value.vStart == f && f < r.value.vEnd <= r.value.end <= |s|
  {
    var braced: Option<nat> :=
      if f < |s| && s[f] == '{' && NextIndex(s, '}', f + 1) < |s| then Some(NextIndex(s, '}', f + 1) + 1) else None;
    if braced.Some? && Close(s, braced.value).Some? then
      Some(Span(f, braced.value, Close(s, braced.value).value))
    else
      var g := RunEnd(s, f, IsValueChar);
      if g > f && Close(s, g).Some? then Some(Span(f, g, Close(s, g).value)) else None
  }

  /** `\s*:\s*` followed by the value and `\s*;`, after a head ending at `h`. */
  function AfterHead(s: string, h: nat): (r: Option<Span>)
    requires h <= |s|
    ensures r.Some? ==> h < r.value.vStart < r.value.vEnd <= r.value.end <= |s|
  {
    var e := RunEnd(s, h, IsReSpace);
    if e < |s| && s[e] == ':' then MatchValue(s, RunEnd(s, e + 1, IsReSpace)) else None
  }

  datatype Found = Found(member: Member, end: nat)

  /** The first alternative of the head, `(\w+)`, at `p`: a named member. */
  function MatchNamed(s: string, p: nat): (r: Option<Found>)
    requires p < |s| && IsWordChar(s[p])
    ensures r.Some? ==> p < r.value.end <= |s| && r.value.member.Named? && |r.value.member.typ| < |s|
  {
    var k := RunEnd(s, p, IsWordChar);
    match AfterHead(s, k)
    case None => None
    case Some(sp) => Some(Found(Named(s[p..k], s[sp.vStart..sp.vEnd]), sp.end))
  }

  /** The second alternative of the head, `\[(\w+)\s*:\s*(\w+)\]`, at `p`: an index signature. */
  function MatchIndexSignature(s: string, p: nat): (r: Option<Found>)
    requires p < |s| && s[p] == '['
    ensures r.Some? ==> p < r.value.end <= |s| && r.value.member.IndexSignature? && |r.value.member.valueType| < |s|
  {
    var a := RunEnd(s, p + 1, IsWordChar);
    var b := RunEnd(s, a, IsReSpace);
    if a == p + 1 || !(b < |s| && s[b] == ':') then None
    else
      var c := RunEnd(s, b + 1, IsReSpace);
      var d := RunEnd(s, c, IsWordChar);
      if d == c || !(d < |s| && s[d] == ']') then None
      else
        match AfterHead(s, d + 1)
        case None => None
        case Some(sp) => Some(Found(IndexSignature(s[p + 1..a], s[c..d], s[sp.vStart..sp.vEnd]), sp.end))
  }

  /** A match of the whole expression starting exactly at `p`. */
  function MatchAt(s: string, p: nat): (r: Option<Found>)
    requires p <= |s|
    ensures r.Some? ==> p < r.value.end <= |s| && |ValueText(r.value.member)| < |s|
  {
    if p < |s| && IsWordChar(s[p]) then MatchNamed(s, p)
    else if p < |s| && s[p] == '[' then MatchIndexSignature(s, p)
    else None
  }

  /** `FindAllStringSubmatch(s, -1)` from position `p`: successive non-overlapping leftmost matches. */
  function FindAll(s: string, p: nat): (r: seq<Member>)
    requires p <= |s|
    ensures forall i :: 0 <= i < |r| ==> |ValueText(r[i])| < |s|
    decreases |s| - p
  {
    if p == |s| then []
    else
      match MatchAt(s, p)
      case Some(m) => [m.member] + FindAll(s, m.end)
      case None => FindAll(s, p + 1)
  }

  /** How the array, set and map forms wrap their inner type. */
  datatype Wrapper = WList | WSet | WMap

  function Wrap(w: Wrapper, t: Type): Type {
    match w
    case WList => List(t)
    case WSet => Set(t)
    case WMap => Map(t)
  }

  /** The names `getTerraformType` maps straight to a type, `any` and the empty string meaning Dynamic. */
  function Primitive(tys: string): Option<Type> {
    if tys == "boolean" then Some(Bool)
    else if tys == "number" then Some(Number)
    else if tys == "string" then Some(String)
    else if tys == "any" || tys == "" then Some(Dynamic)
    else None
  }

  /**
   * A prefix ending in a character other than the one-character suffix
   * cannot share it, so a string with both is longer than the two.
   */
  lemma EnclosedLength(tys: string, open: string, close: char)
    requires |open| >= 1 && open[|open| - 1] != close
    requires HasPrefix(tys, open) && HasSuffix(tys, [close])
    ensures |tys| >= |open| + 1
  {
    assert tys[|open| - 1] == open[|open| - 1];
    assert tys[|tys| - 1] == close;
  }

  /** Which of the source's checks claims a type string first. */
  datatype Form = FUnion | FPrimitive(t: Type) | FArray | FTuple | FSet | FMap | FObject | FOther

  /** The guards of `getTerraformType`, in the order the source tests them. */
  function FormOf(tys: string): (f: Form)
    ensures f.FArray? || f.FTuple? ==> |tys| >= 2
    ensures f.FSet? || f.FMap? ==> |tys| >= 5
  {
    if '|' in tys then FUnion
    else if Primitive(tys).Some? then FPrimitive(Primitive(tys).value)
    else if HasSuffix(tys, "[]") then FArray
    else if HasPrefix(tys, "[") && HasSuffix(tys, "]") then
      EnclosedLength(tys, "[", ']');
      FTuple
    else if HasPrefix(tys, "Set<") && HasSuffix(tys, ">") then
      EnclosedLength(tys, "Set<", '>');
      FSet
    else if HasPrefix(tys, "Map<") && HasSuffix(tys, ">") then
      EnclosedLength(tys, "Map<", '>');
      FMap
    else if HasPrefix(tys, "{") && HasSuffix(tys, "}") then FObject
    else FOther
  }

  /**
   * `getTerraformType` as a function: the form the guards pick decides the
   * result, and anything unrecognised is Dynamic.
   */
  function ParseType(tys: string): Result<Type, TypeError>
    decreases |tys|, 2
  {
    match FormOf(tys)
    case FUnion => Failure(UnionUnsupported)
    case FPrimitive(t) => Success(t)
    case FArray => ParseWrapped(tys[..|tys| - 2], WList, tys)
    case FTuple =>
      var ps := TrimAll(Split(tys[1..|tys| - 1], ','));
      CollectElems(ps, ParseAll(ps, tys), 0, [])
    case FSet => ParseWrapped(tys[4..|tys| - 1], WSet, tys)
    case FMap => ParseWrapped(tys[4..|tys| - 1], WMap, tys)
    case FObject => ParseObject(tys)
    case FOther => Success(Dynamic)
  }

  /** The array, set and map forms: parse the inner type and wrap it, or report the inner string. */
  function ParseWrapped(inner: string, w: Wrapper, whole: string): Result<Type, TypeError>
    requires |inner| < |whole|
    decreases |whole|, 1
  {
    match ParseType(inner)
    case Failure(e) => Failure(InnerType(inner, e))
    case Success(t) => Success(Wrap(w, t))
  }

  /** The object form: a lone index signature is a map, anything else goes through the member loop. */
  function ParseObject(tys: string): Result<Type, TypeError>
    decreases |tys|, 1
  {
    var ms := FindAll(tys, 0);
    if |ms| == 1 && ms[0].IndexSignature? then
      var m := ms[0];
      assert |m.valueType| < |tys| by {
        assert ValueText(ms[0]) == m.valueType;
      }
      if m.keyType != "string" then Failure(NonStringIndexKey(m.keyType))
      else
        match ParseType(m.valueType)
        case Failure(e) => Failure(IndexSignatureValue(m.keyName, m.keyType, m.valueType, e))
        case Success(t) => Success(Map(t))
    else
      var vs := ValueTexts(ms);
      CollectMembers(ms, ParseAll(vs, tys), 0, map[], tys)
  }

  /** The parse of each of the strings, all shorter than `whole`. */
  function ParseAll(ps: seq<string>, whole: string): (rs: seq<Result<Type, TypeError>>)
    requires forall j :: 0 <= j < |ps| ==> |ps[j]| < |whole|
    ensures |rs| == |ps|
    decreases |whole|, 0
  {
    seq(|ps|, j requires 0 <= j < |ps| => ParseType(ps[j]))
  }

  /** The value group of each match. */
  function ValueTexts(ms: seq<Member>): (vs: seq<string>)
    ensures |vs| == |ms|
    ensures forall j :: 0 <= j < |vs| ==> vs[j] == ValueText(ms[j])
  {
    seq(|ms|, j requires 0 <= j < |ms| => ValueText(ms[j]))
  }

  /**
   * The tuple loop, over the parse result `rs[j]` of each trimmed piece
   * `ps[j]`: from position `i` on, stop at the first failure and report its
   * piece, or append every type to `acc`.
   */
  function CollectElems(ps: seq<string>, rs: seq<Result<Type, TypeError>>, i: nat, acc: seq<Type>): Result<Type, TypeError>
    requires i <= |ps| == |rs|
    decreases |ps| - i
  {
    if i == |ps| then Success(Tuple(acc))
    else if rs[i].Failure? then Failure(InnerType(ps[i], rs[i].error))
    else CollectElems(ps, rs, i + 1, acc + [rs[i].value])
  }

  /**
   * The object loop, over the members `ms` and the parse result `rs[j]` of
   * each member's value: an index signature is an error, a named member
   * whose type fails is reported with its key, and otherwise each named
   * member sets its key, overwriting an earlier one.
   */
  function CollectMembers(ms: seq<Member>, rs: seq<Result<Type, TypeError>>, i: nat, acc: map<string, Type>, whole: string): Result<Type, TypeError>
    requires i <= |ms| == |rs|
    decreases |ms| - i
  {
    if i == |ms| then Success(Object(acc))
    else
      match ms[i]
      case IndexSignature(_, _, _) => Failure(UnsupportedObject(whole))
      case Named(key, typ) =>
        if rs[i].Failure? then Failure(AttributeType(key, typ, rs[i].error))
        else CollectMembers(ms, rs, i + 1, acc[key := rs[i].value], whole)
  }

  // Which form the guards pick, proved from the guards alone (kept apart
  // from `ParseType`, whose unfolding is costly on an unknown string).

  lemma FormArray(tys: string)
    requires '|' !in tys && Primitive(tys).None? && HasSuffix(tys, "[]")
    ensures FormOf(tys) == FArray
  {
  }

  lemma FormTuple(tys: string)
    requires '|' !in tys && Primitive(tys).None? && !HasSuffix(tys, "[]")
    requires HasPrefix(tys, "[") && HasSuffix(tys, "]")
    ensures FormOf(tys) == FTuple
  {
  }

  lemma FormSet(tys: string)
    requires '|' !in tys && Primitive(tys).None? && !HasSuffix(tys, "[]")
    requires !(HasPrefix(tys, "[") && HasSuffix(tys, "]"))
    requires HasPrefix(tys, "Set<") && HasSuffix(tys, ">")
    ensures FormOf(tys) == FSet
  {
  }

  lemma FormMap(tys: string)
    requires '|' !in tys && Primitive(tys).None? && !HasSuffix(tys, "[]")
    requires !(HasPrefix(tys, "[") && HasSuffix(tys, "]")) && !(HasPrefix(tys, "Set<") && HasSuffix(tys, ">"))
    requires HasPrefix(tys, "Map<") && HasSuffix(tys, ">")
    ensures FormOf(tys) == FMap
  {
  }

  lemma FormObject(tys: string)
    requires '|' !in tys && Primitive(tys).None? && !HasSuffix(tys, "[]")
    requires !(HasPrefix(tys, "[") && HasSuffix(tys, "]")) && !(HasPrefix(tys, "Set<") && HasSuffix(tys, ">"))
    requires !(HasPrefix(tys, "Map<") && HasSuffix(tys, ">"))
    requires HasPrefix(tys, "{") && HasSuffix(tys, "}")
    ensures FormOf(tys) == FObject
  {
  }

  /** The primitive names all start with a lower-case letter. */
  lemma NotPrimitive(tys: string)
    requires |tys| > 0 && !('a' <= tys[0] <= 'z')
    ensures Primitive(tys).None?
  {
  }

  /** The trimmed comma-separated pieces between the brackets of a tuple form. */
  function TuplePieces(tys: string): (ps: seq<string>)
    requires |tys| >= 2
    ensures |ps| == |Split(tys[1..|tys| - 1], ',')|
    ensures forall j :: 0 <= j < |ps| ==> ps[j] == TrimSpace(Split(tys[1..|tys| - 1], ',')[j]) && |ps[j]| < |tys|
  {
    TrimAll(Split(tys[1..|tys| - 1], ','))
  }

  // What `ParseType` does once the form is known.

  lemma ParseArrayForm(tys: string)
    requires FormOf(tys) == FArray
    ensures ParseType(tys) == ParseWrapped(tys[..|tys| - 2], WList, tys)
  {
  }

  lemma ParseTupleForm(tys: string)
    requires FormOf(tys) == FTuple
    ensures ParseType(tys) == CollectElems(TuplePieces(tys), ParseAll(TuplePieces(tys), tys), 0, [])
  {
  }

  lemma ParseSetForm(tys: string)
    requires FormOf(tys) == FSet
    ensures ParseType(tys) == ParseWrapped(tys[4..|tys| - 1], WSet, tys)
  {
  }

  lemma ParseMapForm(tys: string)
    requires FormOf(tys) == FMap
    ensures ParseType(tys) == ParseWrapped(tys[4..|tys| - 1], WMap, tys)
  {
  }

  lemma ParseObjectForm(tys: string)
    requires FormOf(tys) == FObject
    ensures ParseType(tys) == ParseObject(tys)
  {
  }

  /** `getTerraformType`, with the tuple and object loops of the source. */
  method GetTerraformType(tys: string) returns (r: Result<Type, TypeError>)
    ensures r == ParseType(tys)
    decreases |tys|, 1
  {
    if '|' in tys {
      return Failure(UnionUnsupported);
    }
    if tys == "boolean" {
      return Success(Bool);
    } else if tys == "number" {
      return Success(Number);
    } else if tys == "string" {
      return Success(String);
    } else if tys == "any" || tys == "" {
      return Success(Dynamic);
    }
    assert Primitive(tys).None?;

    if HasSuffix(tys, "[]") {
      FormArray(tys);
      ParseArrayForm(tys);
      var innerStr := tys[..|tys| - 2];
      var inner := GetTerraformType(innerStr);
      if inner.Failure? {
        return Failure(InnerType(innerStr, inner.error));
      }
      return Success(List(inner.value));
    }

    if HasPrefix(tys, "[") && HasSuffix(tys, "]") {
      FormTuple(tys);
      ParseTupleForm(tys);
      r := ParseTupleElements(Split(tys[1..|tys| - 1], ','), tys);
      return;
    }

    if HasPrefix(tys, "Set<") && HasSuffix(tys, ">") {
      FormSet(tys);
      ParseSetForm(tys);
      var innerStr := tys[4..|tys| - 1];
      var inner := GetTerraformType(innerStr);
      if inner.Failure? {
        return Failure(InnerType(innerStr, inner.error));
      }
      return Success(Set(inner.value));
    }

    if HasPrefix(tys, "Map<") && HasSuffix(tys, ">") {
      FormMap(tys);
      ParseMapForm(tys);
      var innerStr := tys[4..|tys| - 1];
      var inner := GetTerraformType(innerStr);
      if inner.Failure? {
        return Failure(InnerType(innerStr, inner.error));
      }
      return Success(Map(inner.value));
    }

    if HasPrefix(tys, "{") && HasSuffix(tys, "}") {
      FormObject(tys);
      ParseObjectForm(tys);
      r := ParseObjectMembers(tys);
      return;
    }

    return Success(Dynamic);
  }

  /** The tuple branch of `getTerraformType`: each trimmed piece in turn, stopping at the first error. */
  method ParseTupleElements(strs: seq<string>, tys: string) returns (r: Result<Type, TypeError>)
    requires forall j :: 0 <= j < |strs| ==> |strs[j]| < |tys|
    ensures r == CollectElems(TrimAll(strs), ParseAll(TrimAll(strs), tys), 0, [])
    decreases |tys|, 0
  {
    ghost var ps := TrimAll(strs);
    ghost var rs := ParseAll(ps, tys);
    var innerTypes: seq<Type> := [];
    var i := 0;
    while i < |strs|
      invariant 0 <= i <= |strs|
      invariant CollectElems(ps, rs, 0, []) == CollectElems(ps, rs, i, innerTypes)
    {
      var innerStr := TrimSpace(strs[i]);
      var inner := GetTerraformType(innerStr);
      assert inner == rs[i] && innerStr == ps[i];
      if inner.Failure? {
        return Failure(InnerType(innerStr, inner.error));
      }
      innerTypes := innerTypes + [inner.value];
      i := i + 1;
    }
    return Success(Tuple(innerTypes));
  }

  /** The object branch of `getTerraformType`: a lone index signature, or the member loop. */
  method ParseObjectMembers(tys: string) returns (r: Result<Type, TypeError>)
    ensures r == ParseObject(tys)
    decreases |tys|, 0
  {
    var atys: map<string, Type> := map[];
    var matches := FindAll(tys, 0);
    if |matches| == 1 && matches[0].IndexSignature? {
      var m := matches[0];
      if m.keyType != "string" {
        return Failure(NonStringIndexKey(m.keyType));
      }
      assert ValueText(m) == m.valueType;
      var typ := GetTerraformType(m.valueType);
      if typ.Failure? {
        return Failure(IndexSignatureValue(m.keyName, m.keyType, m.valueType, typ.error));
      }
      return Success(Map(typ.value));
    }
    ghost var rs := ParseAll(ValueTexts(matches), tys);
    var i := 0;
    while i < |matches|
      invariant 0 <= i <= |matches|
      invariant ParseObject(tys) == CollectMembers(matches, rs, i, atys, tys)
    {
      var m := matches[i];
      if m.IndexSignature? {
        return Failure(UnsupportedObject(tys));
      }
      assert ValueText(m) == m.typ;
      var typ := GetTerraformType(m.typ);
      assert typ == rs[i];
      if typ.Failure? {
        return Failure(AttributeType(m.key, m.typ, typ.error));
      }
      atys := atys[m.key := typ.value];
      i := i + 1;
    }
    return Success(Object(atys));
  }

  // ---------------------------------------------------------------------
  // Properties of the loops, for any parse results
  // ---------------------------------------------------------------------

  /** Every result from `i` on is a success. */
  predicate AllSucceed(rs: seq<Result<Type, TypeError>>, i: nat) {
    forall j :: i <= j < |rs| ==> rs[j].Success?
  }

  /** The successful results from `i` on, in order. */
  function ValuesFrom(rs: seq<Result<Type, TypeError>>, i: nat): (ts: seq<Type>)
    requires i <= |rs| && AllSucceed(rs, i)
    ensures |ts| == |rs| - i
    ensures forall k :: 0 <= k < |ts| ==> ts[k] == rs[i + k].value
  {
    seq(|rs| - i, k requires 0 <= k < |rs| - i => rs[i + k].value)
  }

  /** The first failing result from `i` on, if there is one. */
  function FirstTypeFailure(rs: seq<Result<Type, TypeError>>, i: nat): (k: nat)
    requires i <= |rs| && !AllSucceed(rs, i)
    ensures i <= k < |rs| && rs[k].Failure? && AllSucceed(rs[..k], i)
    decreases |rs| - i
  {
    if rs[i].Failure? then i else FirstTypeFailure(rs, i + 1)
  }

  /**
   * The tuple loop succeeds exactly when every remaining piece parses; it
   * then appends their types in order, and otherwise reports the first
   * piece that fails, with that piece's error.
   */
  lemma {:induction false} CollectElemsResult(ps: seq<string>, rs: seq<Result<Type, TypeError>>, i: nat, acc: seq<Type>)
    requires i <= |ps| == |rs|
    ensures AllSucceed(rs, i) ==> CollectElems(ps, rs, i, acc) == Success(Tuple(acc + ValuesFrom(rs, i)))
    ensures !AllSucceed(rs, i) ==>
            var k := FirstTypeFailure(rs, i);
            CollectElems(ps, rs, i, acc) == Failure(InnerType(ps[k], rs[k].error))
    decreases |ps| - i
  {
    if i < |ps| {
      if rs[i].Success? {
        CollectElemsResult(ps, rs, i + 1, acc + [rs[i].value]);
        if AllSucceed(rs, i) {
          assert acc + ValuesFrom(rs, i) == (acc + [rs[i].value]) + ValuesFrom(rs, i + 1);
        } else {
          assert !AllSucceed(rs, i + 1);
        }
      }
    } else {
      assert acc + ValuesFrom(rs, i) == acc;
    }
  }

  /** The keys the named members `i..` define. */
  function MemberKeysFrom(ms: seq<Member>, i: nat): set<string>
    requires i <= |ms|
  {
    set j | i <= j < |ms| && ms[j].Named? :: ms[j].key
  }

  lemma MemberKeysStep(ms: seq<Member>, i: nat)
    requires i < |ms| && ms[i].Named?
    ensures MemberKeysFrom(ms, i) == {ms[i].key} + MemberKeysFrom(ms, i + 1)
  {
    forall k | k in MemberKeysFrom(ms, i)
      ensures k in {ms[i].key} + MemberKeysFrom(ms, i + 1)
    {
      var j :| i <= j < |ms| && ms[j].Named? && ms[j].key == k;
      if j > i {
        assert k in MemberKeysFrom(ms, i + 1);
      }
    }
  }

  /** Member `j` is the last one naming its key. */
  predicate LastWithKey(ms: seq<Member>, j: nat)
    requires j < |ms| && ms[j].Named?
  {
    forall l :: j < l < |ms| ==> !(ms[l].Named? && ms[l].key == ms[j].key)
  }

  /** Every match from `i` on is a named member whose type parses. */
  predicate MembersParse(ms: seq<Member>, rs: seq<Result<Type, TypeError>>, i: nat)
    requires |ms| == |rs|
  {
    forall j :: i <= j < |ms| ==> ms[j].Named? && rs[j].Success?
  }

  /** Each key of the members from `i` on is typed in `attrs` by the last member naming it. */
  predicate TypedByLast(attrs: map<string, Type>, ms: seq<Member>, rs: seq<Result<Type, TypeError>>, i: nat)
    requires |ms| == |rs| && MembersParse(ms, rs, i)
  {
    forall j :: i <= j < |ms| && LastWithKey(ms, j) ==> ms[j].key in attrs && attrs[ms[j].key] == rs[j].value
  }

  /** The member loop succeeds exactly when every remaining match is a named member whose type parses. */
  lemma {:induction false} CollectMembersSucceedIff(ms: seq<Member>, rs: seq<Result<Type, TypeError>>, i: nat, acc: map<string, Type>, whole: string)
    requires i <= |ms| == |rs|
    ensures CollectMembers(ms, rs, i, acc, whole).Success? <==> MembersParse(ms, rs, i)
    decreases |ms| - i
  {
    if i < |ms| {
      if ms[i].Named? && rs[i].Success? {
        CollectMembersSucceedIff(ms, rs, i + 1, acc[ms[i].key := rs[i].value], whole);
        assert MembersParse(ms, rs, i) <==> MembersParse(ms, rs, i + 1);
      } else {
        assert !MembersParse(ms, rs, i);
      }
    }
  }

  /**
   * When the member loop succeeds, the object holds every key, typed by the
   * last member naming it, and keeps the earlier keys no member names.
   */
  lemma {:induction false} CollectMembersValue(ms: seq<Member>, rs: seq<Result<Type, TypeError>>, i: nat, acc: map<string, Type>, whole: string)
    requires i <= |ms| == |rs| && MembersParse(ms, rs, i)
    ensures CollectMembers(ms, rs, i, acc, whole).Success?
    ensures var o := CollectMembers(ms, rs, i, acc, whole).value;
            o.Object? && o.attrs.Keys == acc.Keys + MemberKeysFrom(ms, i) && TypedByLast(o.attrs, ms, rs, i) &&
            (forall k :: k in acc && k !in MemberKeysFrom(ms, i) ==> o.attrs[k] == acc[k])
    decreases |ms| - i
  {
    if i < |ms| {
      var key := ms[i].key;
      var acc' := acc[key := rs[i].value];
      assert MembersParse(ms, rs, i + 1);
      CollectMembersValue(ms, rs, i + 1, acc', whole);
      MemberKeysStep(ms, i);
      var o := CollectMembers(ms, rs, i, acc, whole).value;
      forall j | i <= j < |ms| && LastWithKey(ms, j)
        ensures ms[j].key in o.attrs && o.attrs[ms[j].key] == rs[j].value
      {
        if j == i {
          assert key !in MemberKeysFrom(ms, i + 1);
        } else {
          assert TypedByLast(o.attrs, ms, rs, i + 1);
        }
      }
    } else {
      assert MemberKeysFrom(ms, i) == {};
    }
  }

  // ---------------------------------------------------------------------
  // Properties of the parser
  // ---------------------------------------------------------------------

  /** A `|` anywhere, even inside an object member, rejects the whole type. */
  lemma UnionRejected(tys: string)
    requires '|' in tys
    ensures ParseType(tys) == Failure(UnionUnsupported)
  {
  }

  /** `T[]` is picked by the array check, with `T` as its inner string. */
  lemma ArrayForm(inner: string)
    requires '|' !in inner
    ensures |inner + "[]"| >= 2 && (inner + "[]")[..|inner + "[]"| - 2] == inner
    ensures FormOf(inner + "[]") == FArray
  {
    var tys := inner + "[]";
    assert tys[..|tys| - 2] == inner;
    assert tys[|tys| - 1] == ']';
    assert '|' !in tys by {
      assert forall k :: 0 <= k < |inner| ==> tys[k] == inner[k];
    }
    assert Primitive(tys).None?;
    FormArray(tys);
  }

  /** `T[]` is a list of whatever `T` is; an error in `T` is reported with `T`'s text. */
  lemma ArrayOf(inner: string)
    requires '|' !in inner
    ensures ParseType(inner + "[]") ==
            if ParseType(inner).Success? then Success(List(ParseType(inner).value))
            else Failure(InnerType(inner, ParseType(inner).error))
  {
    ArrayForm(inner);
    ParseArrayForm(inner + "[]");
  }

  /** `Set<T>` is picked by the set check, with `T` as its inner string. */
  lemma SetForm(inner: string)
    requires '|' !in inner
    ensures |"Set<" + inner + ">"| >= 5 && ("Set<" + inner + ">")[4..|"Set<" + inner + ">"| - 1] == inner
    ensures FormOf("Set<" + inner + ">") == FSet
  {
    var tys := "Set<" + inner + ">";
    assert tys[4..|tys| - 1] == inner;
    assert tys[..4] == "Set<" && tys[|tys| - 1] == '>';
    assert '|' !in tys by {
      assert forall k :: 0 <= k < |inner| ==> tys[k + 4] == inner[k];
    }
    NotPrimitive(tys);
    assert !HasSuffix(tys, "[]") && !HasPrefix(tys, "[");
    FormSet(tys);
  }

  /** `Set<T>` is a set of whatever `T` is; an error in `T` is reported with `T`'s text. */
  lemma SetOf(inner: string)
    requires '|' !in inner
    ensures ParseType("Set<" + inner + ">") ==
            if ParseType(inner).Success? then Success(Set(ParseType(inner).value))
            else Failure(InnerType(inner, ParseType(inner).error))
  {
    SetForm(inner);
    ParseSetForm("Set<" + inner + ">");
  }

  /** `Map<T>` is picked by the map check, with `T` as its inner string. */
  lemma MapForm(inner: string)
    requires '|' !in inner
    ensures |"Map<" + inner + ">"| >= 5 && ("Map<" + inner + ">")[4..|"Map<" + inner + ">"| - 1] == inner
    ensures FormOf("Map<" + inner + ">") == FMap
  {
    var tys := "Map<" + inner + ">";
    assert tys[4..|tys| - 1] == inner;
    assert tys[..4] == "Map<" && tys[|tys| - 1] == '>';
    assert '|' !in tys by {
      assert forall k :: 0 <= k < |inner| ==> tys[k + 4] == inner[k];
    }
    NotPrimitive(tys);
    assert !HasSuffix(tys, "[]") && !HasPrefix(tys, "[") && !HasPrefix(tys, "Set<");
    FormMap(tys);
  }

  /** `Map<T>` is a map of whatever `T` is; an error in `T` is reported with `T`'s text. */
  lemma MapOf(inner: string)
    requires '|' !in inner
    ensures ParseType("Map<" + inner + ">") ==
            if ParseType(inner).Success? then Success(Map(ParseType(inner).value))
            else Failure(InnerType(inner, ParseType(inner).error))
  {
    MapForm(inner);
    ParseMapForm("Map<" + inner + ">");
  }

  /** The parse results of the pieces of a tuple form. */
  function TupleResults(tys: string): (rs: seq<Result<Type, TypeError>>)
    requires |tys| >= 2
    ensures |rs| == |TuplePieces(tys)|
    ensures forall j :: 0 <= j < |rs| ==> rs[j] == ParseType(TuplePieces(tys)[j])
  {
    ParseAll(TuplePieces(tys), tys)
  }

  /** Which strings `getTerraformType` reads as a tuple: it hands the trimmed pieces between the brackets to the tuple loop. */
  lemma TupleDispatch(tys: string)
    requires '|' !in tys && HasPrefix(tys, "[") && HasSuffix(tys, "]") && !HasSuffix(tys, "[]")
    ensures |tys| >= 2
    ensures ParseType(tys) == CollectElems(TuplePieces(tys), TupleResults(tys), 0, [])
  {
    NotPrimitive(tys);
    FormTuple(tys);
    ParseTupleForm(tys);
  }

  /**
   * `[A, B, ...]` (not ending in `[]`, which would make it an array): the
   * pieces are split at every comma and trimmed; the result is the tuple of
   * their types, in order, when every piece parses, and otherwise the first
   * failing piece with its error.
   */
  lemma TupleOf(tys: string)
    requires '|' !in tys && HasPrefix(tys, "[") && HasSuffix(tys, "]") && !HasSuffix(tys, "[]")
    ensures |tys| >= 2
    ensures AllSucceed(TupleResults(tys), 0) ==> ParseType(tys) == Success(Tuple(ValuesFrom(TupleResults(tys), 0)))
    ensures !AllSucceed(TupleResults(tys), 0) ==>
            var k := FirstTypeFailure(TupleResults(tys), 0);
            ParseType(tys) == Failure(InnerType(TuplePieces(tys)[k], TupleResults(tys)[k].error))
  {
    TupleDispatch(tys);
    ElemsOutcome(ParseType(tys), TuplePieces(tys), TupleResults(tys));
  }

  /** `CollectElemsResult` from the start of the loop, for a result known to be the loop's. */
  lemma ElemsOutcome(r: Result<Type, TypeError>, ps: seq<string>, rs: seq<Result<Type, TypeError>>)
    requires |ps| == |rs| && r == CollectElems(ps, rs, 0, [])
    ensures AllSucceed(rs, 0) ==> r == Success(Tuple(ValuesFrom(rs, 0)))
    ensures !AllSucceed(rs, 0) ==> r == Failure(InnerType(ps[FirstTypeFailure(rs, 0)], rs[FirstTypeFailure(rs, 0)].error))
  {
    CollectElemsResult(ps, rs, 0, []);
    if AllSucceed(rs, 0) {
      assert [] + ValuesFrom(rs, 0) == ValuesFrom(rs, 0);
    }
  }

  /** Which strings `getTerraformType` reads as an object: they go to the object branch. */
  lemma ObjectDispatch(tys: string)
    requires '|' !in tys && HasPrefix(tys, "{") && HasSuffix(tys, "}")
    ensures ParseType(tys) == ParseObject(tys)
  {
    NotPrimitive(tys);
    assert !HasSuffix(tys, "[]") && !HasPrefix(tys, "[") by {
      assert tys[0] == '{' && tys[|tys| - 1] == '}';
    }
    assert !HasPrefix(tys, "Set<") && !HasPrefix(tys, "Map<");
    FormObject(tys);
    ParseObjectForm(tys);
  }

  /** An object whose only member is an index signature is a map of the value type, if its key type is `string`. */
  lemma IndexSignatureIsMap(tys: string)
    requires '|' !in tys && HasPrefix(tys, "{") && HasSuffix(tys, "}")
    requires |FindAll(tys, 0)| == 1 && FindAll(tys, 0)[0].IndexSignature?
    ensures var m := FindAll(tys, 0)[0];
            if m.keyType != "string" then ParseType(tys) == Failure(NonStringIndexKey(m.keyType))
            else if ParseType(m.valueType).Success? then ParseType(tys) == Success(Map(ParseType(m.valueType).value))
            else ParseType(tys) == Failure(IndexSignatureValue(m.keyName, m.keyType, m.valueType, ParseType(m.valueType).error))
  {
    ObjectDispatch(tys);
  }

  /** The parse results of the members' value types. */
  function MemberResults(tys: string): (rs: seq<Result<Type, TypeError>>)
    ensures |rs| == |FindAll(tys, 0)|
    ensures forall j :: 0 <= j < |rs| ==> rs[j] == ParseType(ValueText(FindAll(tys, 0)[j]))
  {
    ParseAll(ValueTexts(FindAll(tys, 0)), tys)
  }

  /**
   * Any other object is the member loop's result: it succeeds exactly when
   * every match is a named member whose type parses, and then holds exactly
   * the members' keys, each typed by the last member naming it.
   */
  lemma ObjectOfMembers(tys: string)
    requires '|' !in tys && HasPrefix(tys, "{") && HasSuffix(tys, "}")
    requires !(|FindAll(tys, 0)| == 1 && FindAll(tys, 0)[0].IndexSignature?)
    ensures ParseType(tys).Success? <==> MembersParse(FindAll(tys, 0), MemberResults(tys), 0)
    ensures ParseType(tys).Success? ==>
            ParseType(tys).value.Object? &&
            ParseType(tys).value.attrs.Keys == MemberKeysFrom(FindAll(tys, 0), 0) &&
            TypedByLast(ParseType(tys).value.attrs, FindAll(tys, 0), MemberResults(tys), 0)
  {
    ObjectDispatch(tys);
    var ms, rs := FindAll(tys, 0), MemberResults(tys);
    assert ParseType(tys) == CollectMembers(ms, rs, 0, map[], tys);
    CollectMembersSucceedIff(ms, rs, 0, map[], tys);
    if MembersParse(ms, rs, 0) {
      CollectMembersValue(ms, rs, 0, map[], tys);
    }
  }

  /** No `|` and no `{` anywhere in `s`. */
  predicate Plain(s: string) {
    forall k :: 0 <= k < |s| ==> s[k] != '|' && s[k] != '{'
  }

  lemma PlainSlice(s: string, lo: nat, hi: nat)
    requires Plain(s) && lo <= hi <= |s|
    ensures Plain(s[lo..hi])
  {
    assert forall k :: 0 <= k < hi - lo ==> s[lo..hi][k] == s[lo + k];
  }

  /** Every tuple piece of a plain string is plain. */
  lemma PlainPieces(tys: string, j: nat)
    requires |tys| >= 2 && Plain(tys) && j < |TuplePieces(tys)|
    ensures Plain(TuplePieces(tys)[j])
  {
    var body := tys[1..|tys| - 1];
    PlainSlice(tys, 1, |tys| - 1);
    var lo, hi := SplitSlice(body, ',', j);
    PlainSlice(body, lo, hi);
    var piece := body[lo..hi];
    var tlo, thi := TrimSpaceSlice(piece);
    PlainSlice(piece, tlo, thi);
  }

  /**
   * Parsing fails only because of a union, or inside an object: a type
   * string with neither `|` nor `{` always yields a type.
   */
  lemma {:induction false} PlainParses(tys: string)
    requires Plain(tys)
    ensures ParseType(tys).Success?
    decreases |tys|
  {
    assert '|' !in tys;
    var f := FormOf(tys);
    if f.FArray? {
      ParseArrayForm(tys);
      PlainSlice(tys, 0, |tys| - 2);
      PlainParses(tys[..|tys| - 2]);
    } else if f.FTuple? {
      ParseTupleForm(tys);
      var ps := TuplePieces(tys);
      var rs := ParseAll(ps, tys);
      forall j | 0 <= j < |ps|
        ensures rs[j].Success?
      {
        PlainPieces(tys, j);
        PlainParses(ps[j]);
      }
      CollectElemsResult(ps, rs, 0, []);
    } else if f.FSet? || f.FMap? {
      if f.FSet? {
        ParseSetForm(tys);
      } else {
        ParseMapForm(tys);
      }
      PlainSlice(tys, 4, |tys| - 1);
      PlainParses(tys[4..|tys| - 1]);
    } else {
      assert !HasPrefix(tys, "{") by {
        if |tys| > 0 {
          assert tys[0] != '{';
        }
      }
    }
  }

  // Examples from internal/javascript/tfjs_test.go

  lemma PrimitiveExamples()
    ensures ParseType("boolean") == Success(Bool) && ParseType("number") == Success(Number)
    ensures ParseType("string") == Success(String) && ParseType("any") == Success(Dynamic)
    ensures ParseType("bool") == Success(Dynamic)
  {
  }
}
