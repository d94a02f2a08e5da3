/**
 * tftypes/tfgoja/json_type.go: `JSONImpliedType`, the Terraform type a JSON
 * document implies.
 *
 * The document is read through a `json.Decoder`, modelled as the token
 * sequence it produces (`[`, `]`, `{` and `}` delimiters, booleans,
 * numbers, strings and nulls; commas and colons never surface as tokens)
 * and a cursor. The decoder's own syntax checks are not modelled: any
 * token sequence is accepted as input, and reading past its end is the
 * decoder's end-of-input error.
 *
 * Strings, numbers and booleans imply their primitive types, null implies
 * Dynamic, an object implies an object type of its keys and an array a
 * tuple type of its members. Any error yields `NullType`, which is
 * Dynamic.
 */
module JsonType {
  import opened Wrappers
  import opened Types

  datatype Token =
    | TBool(b: bool)
    | TNumber(text: string)
    | TString(s: string)
    | TNull
    | TDelim(delim: char)

  datatype JsonError =
    /** The decoder's end-of-input error. */
    | EndOfInput
    /** "unexpected token %q": a closing delimiter where a value was expected. */
    | UnexpectedToken(token: char)
    /** "unexpected delimiter %q": a delimiter other than `}` where a key was expected. */
    | UnexpectedDelimiter(found: char)
    /** "expected string but found %T": a key that is not a string. */
    | ExpectedString(got: Token)
    /** "extraneous data after JSON object". */
    | ExtraneousData

  /** `NullType`: the type of a dynamic null. */
  const NullType: Type := Dynamic

  /** What a parse step produced, and where the cursor stands after it. */
  datatype Parsed = Parsed(result: Result<Type, JsonError>, next: nat)

  // ----- the specification: the parse as functions of the token sequence and the cursor -----

  /** `impliedType(dec)` with the cursor at `pos`: read one token and type the value it starts. */
  function ImpliedAt(ts: seq<Token>, pos: nat): (p: Parsed)
    requires pos <= |ts|
    ensures pos <= p.next <= |ts|
    decreases |ts| - pos, 2
  {
    if pos == |ts| then Parsed(Failure(EndOfInput), pos)
    else ForToken(ts[pos], ts, pos + 1)
  }

  /** `impliedTypeForTok(tok, dec)`, the cursor at `pos` just past `tok`. */
  function ForToken(tok: Token, ts: seq<Token>, pos: nat): (p: Parsed)
    requires pos <= |ts|
    ensures pos <= p.next <= |ts|
    decreases |ts| - pos, 1
  {
    match tok
    case TNull => Parsed(Success(NullType), pos)
    case TBool(_) => Parsed(Success(Bool), pos)
    case TNumber(_) => Parsed(Success(Number), pos)
    case TString(_) => Parsed(Success(String), pos)
    case TDelim(c) =>
      if c == '{' then ObjectFrom(ts, pos, map[])
      else if c == '[' then TupleFrom(ts, pos, [])
      else Parsed(Failure(UnexpectedToken(c)), pos)
  }

  /** The loop of `impliedObjectType` from `pos` on, with the attributes `atys` read so far. */
  function ObjectFrom(ts: seq<Token>, pos: nat, atys: map<string, Type>): (p: Parsed)
    requires pos <= |ts|
    ensures pos <= p.next <= |ts|
    decreases |ts| - pos, 0
  {
    if pos == |ts| then Parsed(Failure(EndOfInput), pos)
    else
      match ts[pos]
      case TDelim(c) =>
        if c != '}' then Parsed(Failure(UnexpectedDelimiter(c)), pos + 1)
        else Parsed(Success(Object(atys)), pos + 1)
      case TString(key) =>
        if pos + 1 == |ts| then Parsed(Failure(EndOfInput), pos + 1)
        else
          var p := ForToken(ts[pos + 1], ts, pos + 2);
          if p.result.Failure? then p
          else ObjectFrom(ts, p.next, atys[key := p.result.value])
      case other => Parsed(Failure(ExpectedString(other)), pos + 1)
  }

  /** The loop of `impliedTupleType` from `pos` on, with the element types `etys` read so far. */
  function TupleFrom(ts: seq<Token>, pos: nat, etys: seq<Type>): (p: Parsed)
    requires pos <= |ts|
    ensures pos <= p.next <= |ts|
    decreases |ts| - pos, 0
  {
    if pos == |ts| then Parsed(Failure(EndOfInput), pos)
    else if ts[pos] == TDelim(']') then Parsed(Success(Tuple(etys)), pos + 1)
    else
      var p := ForToken(ts[pos], ts, pos + 1);
      if p.result.Failure? then p
      else TupleFrom(ts, p.next, etys + [p.result.value])
  }

  /** `dec.More()` at `pos`: input is left and it does not close an array or an object. */
  predicate MoreAt(ts: seq<Token>, pos: nat) {
    pos < |ts| && ts[pos] != TDelim(']') && ts[pos] != TDelim('}')
  }

  /** What `JSONImpliedType` returns: a type, and an error beside it when there is one. */
  datatype Implied = Implied(ty: Type, err: Option<JsonError>)

  /** `JSONImpliedType(buf)` for the tokens of `buf`. */
  function ImpliedTypeOf(ts: seq<Token>): Implied {
    var p := ImpliedAt(ts, 0);
    if p.result.Failure? then Implied(NullType, Some(p.result.error))
    else if MoreAt(ts, p.next) then Implied(NullType, Some(ExtraneousData))
    else Implied(p.result.value, None)
  }

  // ----- the implementation: a decoder with a cursor -----

  /** A `json.Decoder` over a document already split into tokens. */
  class Decoder {
    const tokens: seq<Token>
    var pos: nat

    ghost predicate Valid()
      reads this
    {
      pos <= |tokens|
    }

    constructor (tokens: seq<Token>)
      ensures this.tokens == tokens && pos == 0 && Valid()
    {
      this.tokens := tokens;
      pos := 0;
    }

    /** `dec.Token()`: the next token, or the end-of-input error. */
    method Token() returns (r: Result<Token, JsonError>)
      requires Valid()
      modifies this
      ensures Valid()
      ensures old(pos) < |tokens| ==> r == Success(tokens[old(pos)]) && pos == old(pos) + 1
      ensures old(pos) == |tokens| ==> r == Failure(EndOfInput) && pos == old(pos)
    {
      if pos == |tokens| {
        return Failure(EndOfInput);
      }
      r := Success(tokens[pos]);
      pos := pos + 1;
    }

    /** `dec.More()`. */
    predicate More()
      reads this
    {
      MoreAt(tokens, pos)
    }
  }

  /** `impliedType(dec)`. */
  method ImpliedType(dec: Decoder) returns (r: Result<Type, JsonError>)
    requires dec.Valid()
    modifies dec
    ensures dec.Valid() && Parsed(r, dec.pos) == ImpliedAt(dec.tokens, old(dec.pos))
    decreases |dec.tokens| - dec.pos, 2
  {
    var tok := dec.Token();
    if tok.Failure? {
      return Failure(tok.error);
    }
    r := ImpliedTypeForTok(tok.value, dec);
  }

  /** `impliedTypeForTok(tok, dec)`. */
  method ImpliedTypeForTok(tok: Token, dec: Decoder) returns (r: Result<Type, JsonError>)
    requires dec.Valid()
    modifies dec
    ensures dec.Valid() && Parsed(r, dec.pos) == ForToken(tok, dec.tokens, old(dec.pos))
    decreases |dec.tokens| - dec.pos, 1
  {
    match tok
    case TNull => return Success(NullType);
    case TBool(_) => return Success(Bool);
    case TNumber(_) => return Success(Number);
    case TString(_) => return Success(String);
    case TDelim(c) =>
      if c == '{' {
        r := ImpliedObjectType(dec);
      } else if c == '[' {
        r := ImpliedTupleType(dec);
      } else {
        return Failure(UnexpectedToken(c));
      }
  }

  /** `impliedObjectType(dec)`, the `{` already consumed. */
  method ImpliedObjectType(dec: Decoder) returns (r: Result<Type, JsonError>)
    requires dec.Valid()
    modifies dec
    ensures dec.Valid() && Parsed(r, dec.pos) == ObjectFrom(dec.tokens, old(dec.pos), map[])
    decreases |dec.tokens| - dec.pos, 0
  {
    var atys: map<string, Type> := map[];
    while true
      invariant dec.Valid() && old(dec.pos) <= dec.pos
      invariant ObjectFrom(dec.tokens, dec.pos, atys) == ObjectFrom(dec.tokens, old(dec.pos), map[])
      decreases |dec.tokens| - dec.pos
    {
      var tok := dec.Token();
      if tok.Failure? {
        return Failure(tok.error);
      }
      if tok.value.TDelim? {
        if tok.value.delim != '}' {
          return Failure(UnexpectedDelimiter(tok.value.delim));
        }
        break;
      }
      if !tok.value.TString? {
        return Failure(ExpectedString(tok.value));
      }
      var key := tok.value.s;
      tok := dec.Token();
      if tok.Failure? {
        return Failure(tok.error);
      }
      var aty := ImpliedTypeForTok(tok.value, dec);
      if aty.Failure? {
        return aty;
      }
      atys := atys[key := aty.value];
    }
    return Success(Object(atys));
  }

  /** `impliedTupleType(dec)`, the `[` already consumed. */
  method ImpliedTupleType(dec: Decoder) returns (r: Result<Type, JsonError>)
    requires dec.Valid()
    modifies dec
    ensures dec.Valid() && Parsed(r, dec.pos) == TupleFrom(dec.tokens, old(dec.pos), [])
    decreases |dec.tokens| - dec.pos, 0
  {
    var etys: seq<Type> := [];
    while true
      invariant dec.Valid() && old(dec.pos) <= dec.pos
      invariant TupleFrom(dec.tokens, dec.pos, etys) == TupleFrom(dec.tokens, old(dec.pos), [])
      decreases |dec.tokens| - dec.pos
    {
      var tok := dec.Token();
      if tok.Failure? {
        return Failure(tok.error);
      }
      if tok.value == TDelim(']') {
        break;
      }
      var ety := ImpliedTypeForTok(tok.value, dec);
      if ety.Failure? {
        return ety;
      }
      etys := etys + [ety.value];
    }
    return Success(Tuple(etys));
  }

  /** `JSONImpliedType(buf)` for the tokens of `buf`. */
  method JSONImpliedType(ts: seq<Token>) returns (r: Implied)
    ensures r == ImpliedTypeOf(ts)
  {
    var dec := new Decoder(ts);
    var ty := ImpliedType(dec);
    if ty.Failure? {
      return Implied(NullType, Some(ty.error));
    }
    if dec.More() {
      return Implied(NullType, Some(ExtraneousData));
    }
    return Implied(ty.value, None);
  }

  // ----- properties -----

  /** The types a JSON document can imply: primitives, Dynamic, tuples and objects of those. */
  predicate JsonShaped(t: Type) {
    match t
    case Bool => true
    case Number => true
    case String => true
    case Dynamic => true
    case Tuple(ets) => forall i :: 0 <= i < |ets| ==> JsonShaped(ets[i])
    case Object(atys) => forall k :: k in atys ==> JsonShaped(atys[k])
    case _ => false
  }

  /** No parse step ever implies a list, set or map type, at any depth. */
  lemma {:induction false} ImpliedIsJsonShaped(ts: seq<Token>, pos: nat)
    requires pos <= |ts|
    ensures ImpliedAt(ts, pos).result.Success? ==> JsonShaped(ImpliedAt(ts, pos).result.value)
    decreases |ts| - pos, 2
  {
    if pos < |ts| {
      ForTokenIsJsonShaped(ts[pos], ts, pos + 1);
    }
  }

  lemma {:induction false} ForTokenIsJsonShaped(tok: Token, ts: seq<Token>, pos: nat)
    requires pos <= |ts|
    ensures ForToken(tok, ts, pos).result.Success? ==> JsonShaped(ForToken(tok, ts, pos).result.value)
    decreases |ts| - pos, 1
  {
    if tok == TDelim('{') {
      ObjectIsJsonShaped(ts, pos, map[]);
    } else if tok == TDelim('[') {
      TupleIsJsonShaped(ts, pos, []);
    }
  }

  lemma {:induction false} ObjectIsJsonShaped(ts: seq<Token>, pos: nat, atys: map<string, Type>)
    requires pos <= |ts|
    requires forall k :: k in atys ==> JsonShaped(atys[k])
    ensures ObjectFrom(ts, pos, atys).result.Success? ==> JsonShaped(ObjectFrom(ts, pos, atys).result.value)
    decreases |ts| - pos, 0
  {
    if pos < |ts| && ts[pos].TString? && pos + 1 < |ts| {
      var p := ForToken(ts[pos + 1], ts, pos + 2);
      ForTokenIsJsonShaped(ts[pos + 1], ts, pos + 2);
      if p.result.Success? {
        ObjectIsJsonShaped(ts, p.next, atys[ts[pos].s := p.result.value]);
      }
    }
  }

  lemma {:induction false} TupleIsJsonShaped(ts: seq<Token>, pos: nat, etys: seq<Type>)
    requires pos <= |ts|
    requires forall i :: 0 <= i < |etys| ==> JsonShaped(etys[i])
    ensures TupleFrom(ts, pos, etys).result.Success? ==> JsonShaped(TupleFrom(ts, pos, etys).result.value)
    decreases |ts| - pos, 0
  {
    if pos < |ts| && ts[pos] != TDelim(']') {
      var p := ForToken(ts[pos], ts, pos + 1);
      ForTokenIsJsonShaped(ts[pos], ts, pos + 1);
      if p.result.Success? {
        TupleIsJsonShaped(ts, p.next, etys + [p.result.value]);
      }
    }
  }

  /** `JSONImpliedType` returns NullType beside every error, and a JSON-shaped type otherwise. */
  lemma ImpliedTypeOfShape(ts: seq<Token>)
    ensures ImpliedTypeOf(ts).err.Some? ==> ImpliedTypeOf(ts).ty == NullType
    ensures JsonShaped(ImpliedTypeOf(ts).ty)
  {
    ImpliedIsJsonShaped(ts, 0);
  }

  /** The error cases of the decoder loops, each on the shortest input that shows it. */
  lemma ErrorCases(t: Token, rest: seq<Token>)
    ensures ImpliedTypeOf([]) == Implied(NullType, Some(EndOfInput))
    ensures ImpliedTypeOf([TDelim(']')] + rest) == Implied(NullType, Some(UnexpectedToken(']')))
    ensures ImpliedTypeOf([TDelim('}')] + rest) == Implied(NullType, Some(UnexpectedToken('}')))
    ensures ImpliedTypeOf([TDelim('{'), TDelim(']')] + rest) == Implied(NullType, Some(UnexpectedDelimiter(']')))
    ensures !t.TString? && !t.TDelim? ==> ImpliedTypeOf([TDelim('{'), t] + rest) == Implied(NullType, Some(ExpectedString(t)))
    ensures ImpliedTypeOf([TDelim('{'), TString("k")]) == Implied(NullType, Some(EndOfInput))
    ensures ImpliedTypeOf([TDelim('[')]) == Implied(NullType, Some(EndOfInput))
    ensures ImpliedTypeOf([TNull, TNull]) == Implied(NullType, Some(ExtraneousData))
    ensures ImpliedTypeOf([TNull, TDelim(']')]) == Implied(NullType, None)
  {
    var ts := [TDelim('{'), TDelim(']')] + rest;
    assert ts[1] == TDelim(']') && ImpliedAt(ts, 0) == ObjectFrom(ts, 1, map[]);
    var us := [TDelim('{'), t] + rest;
    assert us[1] == t && ImpliedAt(us, 0) == ObjectFrom(us, 1, map[]);
  }

  // ----- the rules of the doc comment, against JSON documents -----

  /** A JSON document; an object keeps its members in order, duplicates included. */
  datatype Json =
    | JNull
    | JBool(b: bool)
    | JNumber(text: string)
    | JString(s: string)
    | JArray(elems: seq<Json>)
    | JObject(members: seq<Member>)

  datatype Member = Member(key: string, value: Json)

  /** The tokens the decoder produces for `j`. */
  function Tokens(j: Json): (ts: seq<Token>)
    ensures |ts| > 0 && ts[0] != TDelim(']') && ts[0] != TDelim('}')
    decreases j, 1
  {
    match j
    case JNull => [TNull]
    case JBool(b) => [TBool(b)]
    case JNumber(t) => [TNumber(t)]
    case JString(s) => [TString(s)]
    case JArray(es) => [TDelim('[')] + ElemsTokens(j, 0) + [TDelim(']')]
    case JObject(ms) => [TDelim('{')] + MembersTokens(j, 0) + [TDelim('}')]
  }

  /** The tokens of the members of array `j` from position `i` on. */
  function ElemsTokens(j: Json, i: nat): seq<Token>
    requires j.JArray? && i <= |j.elems|
    decreases j, 0, |j.elems| - i
  {
    if i == |j.elems| then [] else Tokens(j.elems[i]) + ElemsTokens(j, i + 1)
  }

  /** The tokens of the members of object `j` from position `i` on: each key, then its value. */
  function MembersTokens(j: Json, i: nat): seq<Token>
    requires j.JObject? && i <= |j.members|
    decreases j, 0, |j.members| - i
  {
    if i == |j.members| then []
    else [TString(j.members[i].key)] + Tokens(j.members[i].value) + MembersTokens(j, i + 1)
  }

  /**
   * The type the doc comment of `JSONImpliedType` gives a document: the
   * primitive types for strings, numbers and booleans, Dynamic for null, a
   * tuple of the members' types for an array, an object of the keys' types
   * for an object.
   */
  function ImpliedOf(j: Json): Type
    decreases j, 1
  {
    match j
    case JNull => Dynamic
    case JBool(_) => Bool
    case JNumber(_) => Number
    case JString(_) => String
    case JArray(es) => Tuple(ElemTypes(j, 0))
    case JObject(ms) => Object(MemberTypes(j, 0, map[]))
  }

  /** The types of the members of array `j` from position `i` on. */
  function ElemTypes(j: Json, i: nat): (ets: seq<Type>)
    requires j.JArray? && i <= |j.elems|
    ensures |ets| == |j.elems| - i
    ensures forall n :: 0 <= n < |ets| ==> ets[n] == ImpliedOf(j.elems[i + n])
    decreases j, 0, |j.elems| - i
  {
    if i == |j.elems| then [] else [ImpliedOf(j.elems[i])] + ElemTypes(j, i + 1)
  }

  /** `atys` updated with the members of object `j` from position `i` on, in order. */
  function MemberTypes(j: Json, i: nat, atys: map<string, Type>): map<string, Type>
    requires j.JObject? && i <= |j.members|
    decreases j, 0, |j.members| - i
  {
    if i == |j.members| then atys
    else MemberTypes(j, i + 1, atys[j.members[i].key := ImpliedOf(j.members[i].value)])
  }

  /** The attributes are the keys already recorded and those of the members from `i` on. */
  lemma {:induction false} MemberTypesKeys(j: Json, i: nat, atys: map<string, Type>)
    requires j.JObject? && i <= |j.members|
    ensures forall k :: k in MemberTypes(j, i, atys) <==>
      k in atys || exists n :: i <= n < |j.members| && j.members[n].key == k
    decreases |j.members| - i
  {
    if i < |j.members| {
      MemberTypesKeys(j, i + 1, atys[j.members[i].key := ImpliedOf(j.members[i].value)]);
    }
  }

  /** Of several members with the same key, the last one wins. */
  lemma {:induction false} LastMemberWins(j: Json, i: nat, atys: map<string, Type>, n: nat)
    requires j.JObject? && i <= n < |j.members|
    requires forall m :: n < m < |j.members| ==> j.members[m].key != j.members[n].key
    ensures j.members[n].key in MemberTypes(j, i, atys)
    ensures MemberTypes(j, i, atys)[j.members[n].key] == ImpliedOf(j.members[n].value)
    decreases |j.members| - i
  {
    var k := j.members[i].key;
    var next := atys[k := ImpliedOf(j.members[i].value)];
    if i < n {
      LastMemberWins(j, i + 1, next, n);
    } else {
      MemberTypesKeep(j, i + 1, next, k);
    }
  }

  /** A key no later member names keeps the type it has. */
  lemma {:induction false} MemberTypesKeep(j: Json, i: nat, atys: map<string, Type>, k: string)
    requires j.JObject? && i <= |j.members| && k in atys
    requires forall m :: i <= m < |j.members| ==> j.members[m].key != k
    ensures k in MemberTypes(j, i, atys) && MemberTypes(j, i, atys)[k] == atys[k]
    decreases |j.members| - i
  {
    if i < |j.members| {
      MemberTypesKeep(j, i + 1, atys[j.members[i].key := ImpliedOf(j.members[i].value)], k);
    }
  }

  /** The tokens `a + b` at `pos` put `a` at `pos` and `b` right after it. */
  lemma Split(ts: seq<Token>, pos: nat, a: seq<Token>, b: seq<Token>)
    requires pos + |a| + |b| <= |ts| && ts[pos..pos + |a| + |b|] == a + b
    ensures ts[pos..pos + |a|] == a && ts[pos + |a|..pos + |a| + |b|] == b
    ensures |a| > 0 ==> ts[pos] == a[0]
  {
    var w := ts[pos..pos + |a| + |b|];
    assert w[..|a|] == a && w[|a|..] == b;
    assert ts[pos..pos + |a|] == w[..|a|];
    assert ts[pos + |a|..pos + |a| + |b|] == w[|a|..];
  }

  /** The decoder, started on the tokens of `j`, implies `ImpliedOf(j)` and stops right after them. */
  lemma {:induction false} ParsesDocument(j: Json, ts: seq<Token>, pos: nat)
    requires pos + |Tokens(j)| <= |ts| && ts[pos..pos + |Tokens(j)|] == Tokens(j)
    ensures ImpliedAt(ts, pos) == Parsed(Success(ImpliedOf(j)), pos + |Tokens(j)|)
    decreases j, 2
  {
    assert ts[pos] == Tokens(j)[0];
    if j.JArray? {
      ParsesArray(j, ts, pos);
    } else if j.JObject? {
      ParsesObject(j, ts, pos);
    }
  }

  lemma {:induction false} ParsesArray(j: Json, ts: seq<Token>, pos: nat)
    requires j.JArray?
    requires pos + |Tokens(j)| <= |ts| && ts[pos..pos + |Tokens(j)|] == Tokens(j)
    ensures ImpliedAt(ts, pos) == Parsed(Success(ImpliedOf(j)), pos + |Tokens(j)|)
    decreases j, 1, |j.elems| + 1
  {
    var inner := ElemsTokens(j, 0);
    ArrayParts(j);
    Split(ts, pos, [TDelim('[')] + inner, [TDelim(']')]);
    Split(ts, pos, [TDelim('[')], inner);
    ParsesElems(j, 0, ts, pos + 1, []);
    CloseTuple(ts, pos, pos + 1 + |inner|, ElemTypes(j, 0));
  }

  lemma {:induction false} ParsesObject(j: Json, ts: seq<Token>, pos: nat)
    requires j.JObject?
    requires pos + |Tokens(j)| <= |ts| && ts[pos..pos + |Tokens(j)|] == Tokens(j)
    ensures ImpliedAt(ts, pos) == Parsed(Success(ImpliedOf(j)), pos + |Tokens(j)|)
    decreases j, 1, |j.members| + 1
  {
    var inner := MembersTokens(j, 0);
    ObjectParts(j);
    Split(ts, pos, [TDelim('{')] + inner, [TDelim('}')]);
    Split(ts, pos, [TDelim('{')], inner);
    ParsesMembers(j, 0, ts, pos + 1, map[]);
    CloseObject(ts, pos, pos + 1 + |inner|, MemberTypes(j, 0, map[]));
  }

  /** The tokens of an array and the type it implies, unfolded. */
  lemma ArrayParts(j: Json)
    requires j.JArray?
    ensures Tokens(j) == [TDelim('[')] + ElemsTokens(j, 0) + [TDelim(']')]
    ensures |Tokens(j)| == 1 + |ElemsTokens(j, 0)| + 1
    ensures ImpliedOf(j) == Tuple(ElemTypes(j, 0))
  {
  }

  /** The tokens of an object and the type it implies, unfolded. */
  lemma ObjectParts(j: Json)
    requires j.JObject?
    ensures Tokens(j) == [TDelim('{')] + MembersTokens(j, 0) + [TDelim('}')]
    ensures |Tokens(j)| == 1 + |MembersTokens(j, 0)| + 1
    ensures ImpliedOf(j) == Object(MemberTypes(j, 0, map[]))
  {
  }

  /** An array whose members take the decoder from `pos + 1` to the closing `]` at `end`. */
  lemma CloseTuple(ts: seq<Token>, pos: nat, end: nat, ets: seq<Type>)
    requires pos < end < |ts| && ts[pos] == TDelim('[') && ts[end] == TDelim(']')
    requires TupleFrom(ts, pos + 1, []) == TupleFrom(ts, end, [] + ets)
    ensures ImpliedAt(ts, pos) == Parsed(Success(Tuple(ets)), end + 1)
  {
    assert [] + ets == ets;
  }

  /** An object whose members take the decoder from `pos + 1` to the closing `}` at `end`. */
  lemma CloseObject(ts: seq<Token>, pos: nat, end: nat, atys: map<string, Type>)
    requires pos < end < |ts| && ts[pos] == TDelim('{') && ts[end] == TDelim('}')
    requires ObjectFrom(ts, pos + 1, map[]) == ObjectFrom(ts, end, atys)
    ensures ImpliedAt(ts, pos) == Parsed(Success(Object(atys)), end + 1)
  {
  }

  /** The tuple loop reads the tokens of the members of `j` from `i` on, appending their types. */
  lemma {:induction false} ParsesElems(j: Json, i: nat, ts: seq<Token>, pos: nat, etys: seq<Type>)
    requires j.JArray? && i <= |j.elems|
    requires pos + |ElemsTokens(j, i)| <= |ts| && ts[pos..pos + |ElemsTokens(j, i)|] == ElemsTokens(j, i)
    ensures TupleFrom(ts, pos, etys) == TupleFrom(ts, pos + |ElemsTokens(j, i)|, etys + ElemTypes(j, i))
    decreases j, 1, |j.elems| - i, 1
  {
    if i < |j.elems| {
      ParsesElem(j, i, ts, pos, etys);
    } else {
      assert ElemsTokens(j, i) == [] && etys + ElemTypes(j, i) == etys;
    }
  }

  lemma {:induction false} ParsesElem(j: Json, i: nat, ts: seq<Token>, pos: nat, etys: seq<Type>)
    requires j.JArray? && i < |j.elems|
    requires pos + |ElemsTokens(j, i)| <= |ts| && ts[pos..pos + |ElemsTokens(j, i)|] == ElemsTokens(j, i)
    ensures TupleFrom(ts, pos, etys) == TupleFrom(ts, pos + |ElemsTokens(j, i)|, etys + ElemTypes(j, i))
    decreases j, 1, |j.elems| - i, 0
  {
    var e := j.elems[i];
    ElemsParts(j, i);
    ElemAt(j, i, ts, pos);
    var mid := pos + |Tokens(e)|;
    ParsesDocument(e, ts, pos);
    ParsesElems(j, i + 1, ts, mid, etys + [ImpliedOf(e)]);
    ChainTuple(ts, pos, mid, pos + |ElemsTokens(j, i)|, etys, ImpliedOf(e), ElemTypes(j, i + 1));
  }

  /** Where member `i` and the later members stand in `ts`. */
  lemma ElemAt(j: Json, i: nat, ts: seq<Token>, pos: nat)
    requires j.JArray? && i < |j.elems|
    requires pos + |ElemsTokens(j, i)| <= |ts| && ts[pos..pos + |ElemsTokens(j, i)|] == ElemsTokens(j, i)
    ensures ts[pos] == Tokens(j.elems[i])[0] && ts[pos] != TDelim(']')
    ensures ts[pos..pos + |Tokens(j.elems[i])|] == Tokens(j.elems[i])
    ensures pos + |Tokens(j.elems[i])| + |ElemsTokens(j, i + 1)| == pos + |ElemsTokens(j, i)|
    ensures ts[pos + |Tokens(j.elems[i])|..pos + |ElemsTokens(j, i)|] == ElemsTokens(j, i + 1)
  {
    ElemsParts(j, i);
    Split(ts, pos, Tokens(j.elems[i]), ElemsTokens(j, i + 1));
  }

  lemma ElemsParts(j: Json, i: nat)
    requires j.JArray? && i < |j.elems|
    ensures ElemsTokens(j, i) == Tokens(j.elems[i]) + ElemsTokens(j, i + 1)
    ensures ElemTypes(j, i) == [ImpliedOf(j.elems[i])] + ElemTypes(j, i + 1)
  {
  }

  lemma ChainTuple(ts: seq<Token>, pos: nat, mid: nat, end: nat, etys: seq<Type>, t: Type, tail: seq<Type>)
    requires pos < mid <= end <= |ts| && ts[pos] != TDelim(']')
    requires ImpliedAt(ts, pos) == Parsed(Success(t), mid)
    requires TupleFrom(ts, mid, etys + [t]) == TupleFrom(ts, end, etys + [t] + tail)
    ensures TupleFrom(ts, pos, etys) == TupleFrom(ts, end, etys + ([t] + tail))
  {
    assert etys + [t] + tail == etys + ([t] + tail);
  }

  /** The object loop reads the tokens of the members of `j` from `i` on, recording their types. */
  lemma {:induction false} ParsesMembers(j: Json, i: nat, ts: seq<Token>, pos: nat, atys: map<string, Type>)
    requires j.JObject? && i <= |j.members|
    requires pos + |MembersTokens(j, i)| <= |ts| && ts[pos..pos + |MembersTokens(j, i)|] == MembersTokens(j, i)
    ensures ObjectFrom(ts, pos, atys) == ObjectFrom(ts, pos + |MembersTokens(j, i)|, MemberTypes(j, i, atys))
    decreases j, 1, |j.members| - i, 1
  {
    if i < |j.members| {
      ParsesMember(j, i, ts, pos, atys);
    } else {
      assert MembersTokens(j, i) == [] && MemberTypes(j, i, atys) == atys;
    }
  }

  lemma {:induction false} ParsesMember(j: Json, i: nat, ts: seq<Token>, pos: nat, atys: map<string, Type>)
    requires j.JObject? && i < |j.members|
    requires pos + |MembersTokens(j, i)| <= |ts| && ts[pos..pos + |MembersTokens(j, i)|] == MembersTokens(j, i)
    ensures ObjectFrom(ts, pos, atys) == ObjectFrom(ts, pos + |MembersTokens(j, i)|, MemberTypes(j, i, atys))
    decreases j, 1, |j.members| - i, 0
  {
    var m := j.members[i];
    MembersParts(j, i, atys);
    MemberAt(j, i, ts, pos);
    var mid := pos + 1 + |Tokens(m.value)|;
    var end := pos + |MembersTokens(j, i)|;
    ParsesDocument(m.value, ts, pos + 1);
    var next := atys[m.key := ImpliedOf(m.value)];
    ParsesMembers(j, i + 1, ts, mid, next);
    ChainObject(ts, pos, mid, end, atys, m.key, ImpliedOf(m.value), MemberTypes(j, i + 1, next));
  }

  /** Where the key, the value and the later members of member `i` stand in `ts`. */
  lemma MemberAt(j: Json, i: nat, ts: seq<Token>, pos: nat)
    requires j.JObject? && i < |j.members|
    requires pos + |MembersTokens(j, i)| <= |ts| && ts[pos..pos + |MembersTokens(j, i)|] == MembersTokens(j, i)
    ensures ts[pos] == TString(j.members[i].key)
    ensures ts[pos + 1..pos + 1 + |Tokens(j.members[i].value)|] == Tokens(j.members[i].value)
    ensures pos + 1 + |Tokens(j.members[i].value)| + |MembersTokens(j, i + 1)| == pos + |MembersTokens(j, i)|
    ensures ts[pos + 1 + |Tokens(j.members[i].value)|..pos + |MembersTokens(j, i)|] == MembersTokens(j, i + 1)
  {
    var m := j.members[i];
    var here := [TString(m.key)] + Tokens(m.value);
    MembersParts(j, i, map[]);
    Split(ts, pos, here, MembersTokens(j, i + 1));
    Split(ts, pos, [TString(m.key)], Tokens(m.value));
  }

  lemma MembersParts(j: Json, i: nat, atys: map<string, Type>)
    requires j.JObject? && i < |j.members|
    ensures MembersTokens(j, i) == [TString(j.members[i].key)] + Tokens(j.members[i].value) + MembersTokens(j, i + 1)
    ensures MemberTypes(j, i, atys) == MemberTypes(j, i + 1, atys[j.members[i].key := ImpliedOf(j.members[i].value)])
  {
  }

  /** One turn of the object loop, then the rest of it. */
  lemma ChainObject(ts: seq<Token>, pos: nat, mid: nat, end: nat, atys: map<string, Type>, key: string, t: Type, last: map<string, Type>)
    requires pos + 1 < mid <= end <= |ts| && ts[pos] == TString(key)
    requires ImpliedAt(ts, pos + 1) == Parsed(Success(t), mid)
    requires ObjectFrom(ts, mid, atys[key := t]) == ObjectFrom(ts, end, last)
    ensures ObjectFrom(ts, pos, atys) == ObjectFrom(ts, end, last)
  {
  }

  /**
   * The round trip of the doc comment: the tokens of any document imply
   * the type the rules give it, with no error; any trailing data is the
   * extraneous-data error.
   */
  lemma DocumentType(j: Json, trailing: seq<Token>)
    ensures ImpliedTypeOf(Tokens(j)) == Implied(ImpliedOf(j), None)
    ensures trailing != [] && trailing[0] != TDelim(']') && trailing[0] != TDelim('}') ==>
      ImpliedTypeOf(Tokens(j) + trailing) == Implied(NullType, Some(ExtraneousData))
  {
    var ts := Tokens(j);
    assert ts[0..|ts|] == ts;
    ParsesDocument(j, ts, 0);
    var us := ts + trailing;
    assert us[0..|ts|] == ts;
    ParsesDocument(j, us, 0);
  }

  /** An array or object whose closing delimiter is missing is the end-of-input error. */
  lemma Unclosed(j: Json)
    requires j.JArray? || j.JObject?
    ensures ImpliedTypeOf(Tokens(j)[..|Tokens(j)| - 1]) == Implied(NullType, Some(EndOfInput))
  {
    var ts := Tokens(j)[..|Tokens(j)| - 1];
    if j.JArray? {
      var inner := ElemsTokens(j, 0);
      assert ts == [TDelim('[')] + inner;
      assert ts[1..1 + |inner|] == inner;
      ParsesElems(j, 0, ts, 1, []);
    } else {
      var inner := MembersTokens(j, 0);
      assert ts == [TDelim('{')] + inner;
      assert ts[1..1 + |inner|] == inner;
      ParsesMembers(j, 0, ts, 1, map[]);
    }
  }
}
