/**
 * The structural type algebra shared by every component, and the shallow
 * "same top-level kind" tests of tftypes/check.go.
 *
 * The Go code distinguishes the value form (`basetypes.BoolType{}`) from the
 * pointer form (`&basetypes.BoolType{}`) of each type; the model has one form,
 * so every `Is*Type` test accepts both by construction.
 */
module Types {

  datatype Type =
    | Bool
    | Number
    | String
    | Dynamic
    | List(elem: Type)
    | Set(elem: Type)
    | Map(elem: Type)
    | Tuple(elems: seq<Type>)
    | Object(attrs: map<string, Type>)

  /** The eight kinds the shallow tests tell apart, and everything else. */
  datatype Kind = KBool | KNumber | KString | KTuple | KList | KSet | KObject | KMap | KOther

  /** Reference classification of a type by its outermost constructor. */
  function KindOf(t: Type): Kind {
    match t
    case Bool => KBool
    case Number => KNumber
    case String => KString
    case Tuple(_) => KTuple
    case List(_) => KList
    case Set(_) => KSet
    case Object(_) => KObject
    case Map(_) => KMap
    case Dynamic => KOther
  }

  /** The tag each kind is given by `PlainTypeString`. */
  function KindTag(k: Kind): string {
    match k
    case KBool => "basetypes.BoolType"
    case KNumber => "basetypes.NumberType"
    case KString => "basetypes.StringType"
    case KTuple => "basetypes.TupleType"
    case KList => "basetypes.ListType"
    case KSet => "basetypes.SetType"
    case KObject => "basetypes.ObjectType"
    case KMap => "basetypes.MapType"
    case KOther => "basetypes.DynamicType"
  }

  predicate IsBoolType(t: Type) { t.Bool? }
  predicate IsNumberType(t: Type) { t.Number? }
  predicate IsStringType(t: Type) { t.String? }
  predicate IsTupleType(t: Type) { t.Tuple? }
  predicate IsListType(t: Type) { t.List? }
  predicate IsSetType(t: Type) { t.Set? }
  predicate IsObjectType(t: Type) { t.Object? }
  predicate IsMapType(t: Type) { t.Map? }

  /** A representative tag that ignores inner types; the `if` chain of the source. */
  function PlainTypeString(t: Type): (r: string)
    ensures r == KindTag(KindOf(t))
    ensures t.Dynamic? ==> r == "basetypes.DynamicType"
  {
    if IsBoolType(t) then "basetypes.BoolType"
    else if IsNumberType(t) then "basetypes.NumberType"
    else if IsStringType(t) then "basetypes.StringType"
    else if IsTupleType(t) then "basetypes.TupleType"
    else if IsListType(t) then "basetypes.ListType"
    else if IsSetType(t) then "basetypes.SetType"
    else if IsObjectType(t) then "basetypes.ObjectType"
    else if IsMapType(t) then "basetypes.MapType"
    else "basetypes.DynamicType"
  }

  /**
   * Shallow equality: both types have the same one of the eight kinds.
   * Inner types are never looked at, and Dynamic is equal to nothing,
   * not even to itself, because no test in the chain matches it.
   */
  function TypeEqual(lhs: Type, rhs: Type): (r: bool)
    ensures r <==> KindOf(lhs) == KindOf(rhs) && KindOf(lhs) != KOther
  {
    if IsBoolType(lhs) && IsBoolType(rhs) then true
    else if IsNumberType(lhs) && IsNumberType(rhs) then true
    else if IsStringType(lhs) && IsStringType(rhs) then true
    else if IsTupleType(lhs) && IsTupleType(rhs) then true
    else if IsListType(lhs) && IsListType(rhs) then true
    else if IsSetType(lhs) && IsSetType(rhs) then true
    else if IsObjectType(lhs) && IsObjectType(rhs) then true
    else if IsMapType(lhs) && IsMapType(rhs) then true
    else false
  }

  /** The nine tags are pairwise distinct, so a tag determines the kind. */
  lemma KindTagInjective(j: Kind, k: Kind)
    ensures KindTag(j) == KindTag(k) <==> j == k
  {
    if j != k {
      // the tags differ in length or at the position right after "basetypes."
      assert KindTag(j)[10] != KindTag(k)[10] || |KindTag(j)| != |KindTag(k)| || KindTag(j)[11] != KindTag(k)[11];
    }
  }

  /** `PlainTypeString` gives each of the eight kinds its own tag, everything else the Dynamic tag. */
  lemma PlainTypeStringTags(t: Type)
    ensures t.Bool? <==> PlainTypeString(t) == "basetypes.BoolType"
    ensures t.Number? <==> PlainTypeString(t) == "basetypes.NumberType"
    ensures t.String? <==> PlainTypeString(t) == "basetypes.StringType"
    ensures t.Tuple? <==> PlainTypeString(t) == "basetypes.TupleType"
    ensures t.List? <==> PlainTypeString(t) == "basetypes.ListType"
    ensures t.Set? <==> PlainTypeString(t) == "basetypes.SetType"
    ensures t.Object? <==> PlainTypeString(t) == "basetypes.ObjectType"
    ensures t.Map? <==> PlainTypeString(t) == "basetypes.MapType"
    ensures t.Dynamic? <==> PlainTypeString(t) == "basetypes.DynamicType"
  {
    KindTagInjective(KindOf(t), KBool);
    KindTagInjective(KindOf(t), KNumber);
    KindTagInjective(KindOf(t), KString);
    KindTagInjective(KindOf(t), KTuple);
    KindTagInjective(KindOf(t), KList);
    KindTagInjective(KindOf(t), KSet);
    KindTagInjective(KindOf(t), KObject);
    KindTagInjective(KindOf(t), KMap);
    KindTagInjective(KindOf(t), KOther);
  }

  /** Shallow equality is symmetric. */
  lemma TypeEqualSymmetric(a: Type, b: Type)
    ensures TypeEqual(a, b) == TypeEqual(b, a)
  {
  }

  /** Shallow equality is transitive, so it is an equivalence on the non-Dynamic types. */
  lemma TypeEqualTransitive(a: Type, b: Type, c: Type)
    requires TypeEqual(a, b) && TypeEqual(b, c)
    ensures TypeEqual(a, c)
  {
  }

  /** Dynamic is not shallow-equal to itself, nor to anything else. */
  lemma DynamicEqualsNothing(t: Type)
    ensures !TypeEqual(Dynamic, t) && !TypeEqual(t, Dynamic)
  {
  }

  /** Inner types are ignored: any two lists, sets, maps, tuples or objects are shallow-equal. */
  lemma TypeEqualIgnoresInnerTypes(a: Type, b: Type, xs: seq<Type>, ys: seq<Type>, m: map<string, Type>, n: map<string, Type>)
    ensures TypeEqual(List(a), List(b)) && TypeEqual(Set(a), Set(b)) && TypeEqual(Map(a), Map(b))
    ensures TypeEqual(Tuple(xs), Tuple(ys)) && TypeEqual(Object(m), Object(n))
  {
  }

  /**
   * Shallow equality holds exactly when both types get the same tag and that
   * tag is not the Dynamic one.
   */
  lemma TypeEqualIffSameTag(a: Type, b: Type)
    ensures TypeEqual(a, b) <==> (PlainTypeString(a) == PlainTypeString(b) && PlainTypeString(a) != "basetypes.DynamicType")
  {
    KindTagInjective(KindOf(a), KindOf(b));
    KindTagInjective(KindOf(a), KOther);
  }
}
