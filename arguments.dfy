/**
 * internal/functions/argument.go: the older type-string dispatch of the
 * function library.
 *
 * `toAttrType` understands four primitive names, a `[]` suffix and the
 * `Map<…>`/`Set<…>` wrappers, tried in that order; anything else is
 * Dynamic. `ToSDKParameter` and `ToSDKReturn` trim white space before the
 * primitive test only, and build the element type with `toAttrType` on the
 * untrimmed text.
 */
module Arguments {
  import opened Types
  import opened Text

  /** `JSArgument`. */
  datatype JSArgument = JSArgument(name: string, description: string, typ: string)

  /** Which `function.*Parameter` or `function.*Return` value is built, with its element type. */
  datatype SdkShape =
    | SdkNumber
    | SdkString
    | SdkBool
    | SdkList(elementType: Type)
    | SdkMap(elementType: Type)
    | SdkSet(elementType: Type)
    | SdkDynamic

  datatype SdkParameter = SdkParameter(shape: SdkShape, name: string, description: string, markdownDescription: string)

  datatype SdkReturn = SdkReturn(shape: SdkShape)

  /** The types `toAttrType` can build: primitives, Dynamic, and lists, maps and sets of those, at any depth. */
  predicate Expressible(t: Type) {
    match t
    case Bool => true
    case Number => true
    case String => true
    case Dynamic => true
    case List(e) => Expressible(e)
    case Map(e) => Expressible(e)
    case Set(e) => Expressible(e)
    case _ => false
  }

  predicate IsMapText(s: string) {
    HasPrefix(s, "Map<") && HasSuffix(s, ">")
  }

  predicate IsSetText(s: string) {
    HasPrefix(s, "Set<") && HasSuffix(s, ">")
  }

  /** The text between `Map<` or `Set<` and the closing `>`. */
  function Wrapped(s: string): (inner: string)
    requires IsMapText(s) || IsSetText(s)
    ensures |inner| < |s| && s == s[..4] + inner + [s[|s| - 1]]
  {
    assert s[3] == '<' && s[|s| - 1] == '>';
    s[4..|s| - 1]
  }

  /** `toAttrType(typeStr)`. */
  function ToAttrType(s: string): (t: Type)
    ensures Expressible(t)
    decreases |s|
  {
    if s == "number" then Number
    else if s == "string" then String
    else if s == "bool" then Bool
    else if s == "any" then Dynamic
    else if HasSuffix(s, "[]") then List(ToAttrType(s[..|s| - 2]))
    else if IsMapText(s) then Map(ToAttrType(Wrapped(s)))
    else if IsSetText(s) then Set(ToAttrType(Wrapped(s)))
    else Dynamic
  }

  /** The record kind shared by `ToSDKParameter` and `ToSDKReturn`, once the primitive test has failed. */
  function CollectionShape(typ: string): SdkShape {
    if HasSuffix(typ, "[]") then SdkList(ToAttrType(typ[..|typ| - 2]))
    else if IsMapText(typ) then SdkMap(ToAttrType(Wrapped(typ)))
    else if IsSetText(typ) then SdkSet(ToAttrType(Wrapped(typ)))
    else SdkDynamic
  }

  /** `JSArgument.ToSDKParameter()`. */
  function ToSDKParameter(a: JSArgument): (p: SdkParameter)
    ensures p.name == a.name && p.description == a.description && p.markdownDescription == a.description
  {
    var trimmed := TrimSpace(a.typ);
    var shape :=
      if trimmed == "number" then SdkNumber
      else if trimmed == "string" then SdkString
      else if trimmed == "bool" then SdkBool
      else CollectionShape(a.typ);
    SdkParameter(shape, a.name, a.description, a.description)
  }

  /** `JSArgument.ToSDKReturn()`. */
  function ToSDKReturn(a: JSArgument): SdkReturn {
    var trimmed := TrimSpace(a.typ);
    if trimmed == "number" then SdkReturn(SdkNumber)
    else if trimmed == "string" then SdkReturn(SdkString)
    else if trimmed == "bool" then SdkReturn(SdkBool)
    else SdkReturn(CollectionShape(a.typ))
  }

  /** The record an expressible type is given. */
  function SdkShapeOf(t: Type): SdkShape {
    match t
    case Number => SdkNumber
    case String => SdkString
    case Bool => SdkBool
    case List(e) => SdkList(e)
    case Map(e) => SdkMap(e)
    case Set(e) => SdkSet(e)
    case _ => SdkDynamic
  }

  /** A parameter and a return built from the same argument have the same kind and element type. */
  lemma ParameterAndReturnAgree(a: JSArgument)
    ensures ToSDKParameter(a).shape == ToSDKReturn(a).shape
  {
  }

  /** Past the primitive names, the record agrees with `toAttrType` on the same text. */
  lemma CollectionShapeAgrees(typ: string)
    requires typ != "number" && typ != "string" && typ != "bool"
    ensures CollectionShape(typ) == SdkShapeOf(ToAttrType(typ))
  {
    if typ == "any" {
      assert typ[|typ| - 1] == 'y' && typ[0] == 'a';
    }
  }

  /**
   * On a text without surrounding white space, the parameter and the return
   * have the kind and element type of the type `toAttrType` reads from it.
   */
  lemma SdkShapeFollowsAttrType(a: JSArgument)
    requires TrimSpace(a.typ) == a.typ
    ensures ToSDKParameter(a).shape == SdkShapeOf(ToAttrType(a.typ))
    ensures ToSDKReturn(a).shape == SdkShapeOf(ToAttrType(a.typ))
  {
    if a.typ != "number" && a.typ != "string" && a.typ != "bool" {
      CollectionShapeAgrees(a.typ);
    }
  }

  /** The type-string syntax `toAttrType` reads, as its author writes it. */
  function TypeText(t: Type): string
    requires Expressible(t)
  {
    match t
    case Number => "number"
    case String => "string"
    case Bool => "bool"
    case Dynamic => "any"
    case List(e) => TypeText(e) + "[]"
    case Map(e) => "Map<" + TypeText(e) + ">"
    case Set(e) => "Set<" + TypeText(e) + ">"
  }

  /**
   * `toAttrType` reads back every type it can build: the `[]` test comes
   * first, so `Map<number>[]` is a list of maps and `Map<number[]>` a map of
   * lists, as the text says.
   */
  lemma {:induction false} ToAttrTypeReadsTypeText(t: Type)
    requires Expressible(t)
    ensures ToAttrType(TypeText(t)) == t
  {
    match t
    case List(e) =>
      ToAttrTypeReadsTypeText(e);
      ReadsListText(e);
    case Map(e) =>
      ToAttrTypeReadsTypeText(e);
      ReadsMapText(e);
    case Set(e) =>
      ToAttrTypeReadsTypeText(e);
      ReadsSetText(e);
    case _ =>
  }

  /** A text ending in `]` or `>` is none of the four primitive names. */
  lemma NotAName(s: string)
    requires |s| > 0 && (s[|s| - 1] == ']' || s[|s| - 1] == '>')
    ensures s != "number" && s != "string" && s != "bool" && s != "any"
  {
  }

  /** How `toAttrType` classifies `x[]`. */
  lemma ListTextFacts(x: string)
    ensures HasSuffix(x + "[]", "[]") && (x + "[]")[..|x|] == x
    ensures var s := x + "[]"; s != "number" && s != "string" && s != "bool" && s != "any"
  {
    var s := x + "[]";
    assert s[|s| - 1] == ']';
    NotAName(s);
    assert s[|s| - 2..] == "[]";
  }

  /** How `toAttrType` classifies `Map<x>`. */
  lemma MapTextFacts(x: string)
    ensures var s := "Map<" + x + ">"; s != "number" && s != "string" && s != "bool" && s != "any"
    ensures var s := "Map<" + x + ">"; !HasSuffix(s, "[]") && IsMapText(s) && Wrapped(s) == x
  {
    var s := "Map<" + x + ">";
    assert s[|s| - 1] == '>';
    NotAName(s);
    assert s[..4] == "Map<" && s[|s| - 1..] == ">";
    assert s[4..|s| - 1] == x;
  }

  /** How `toAttrType` classifies `Set<x>`. */
  lemma SetTextFacts(x: string)
    ensures var s := "Set<" + x + ">"; s != "number" && s != "string" && s != "bool" && s != "any"
    ensures var s := "Set<" + x + ">"; !HasSuffix(s, "[]") && !IsMapText(s) && IsSetText(s) && Wrapped(s) == x
  {
    var s := "Set<" + x + ">";
    assert s[|s| - 1] == '>' && s[0] == 'S';
    NotAName(s);
    assert s[..4] == "Set<" && s[|s| - 1..] == ">";
    assert s[4..|s| - 1] == x;
  }

  lemma ReadsListText(e: Type)
    requires Expressible(e) && ToAttrType(TypeText(e)) == e
    ensures ToAttrType(TypeText(List(e))) == List(e)
  {
    ListTextFacts(TypeText(e));
  }

  lemma ReadsMapText(e: Type)
    requires Expressible(e) && ToAttrType(TypeText(e)) == e
    ensures ToAttrType(TypeText(Map(e))) == Map(e)
  {
    MapTextFacts(TypeText(e));
  }

  lemma ReadsSetText(e: Type)
    requires Expressible(e) && ToAttrType(TypeText(e)) == e
    ensures ToAttrType(TypeText(Set(e))) == Set(e)
  {
    SetTextFacts(TypeText(e));
  }

  /** `toAttrType` is total and never builds a tuple or an object. */
  lemma ToAttrTypeNeverFails(s: string)
    ensures !ToAttrType(s).Tuple? && !ToAttrType(s).Object?
  {
  }

  /** `boolean` is not one of this parser's names, and white space is not trimmed inside it. */
  lemma UnrecognisedNames()
    ensures ToAttrType("boolean") == Dynamic
    ensures ToAttrType(" number") == Dynamic
    ensures ToAttrType("Map<bool>") == Map(Bool)
  {
    assert "boolean"[|"boolean"| - 1] == 'n';
    assert " number"[|" number"| - 1] == 'r';
    assert "Map<bool>"[..4] == "Map<" && "Map<bool>"[4..8] == "bool";
  }
}
