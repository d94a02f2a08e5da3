/**
 * tftypes/tfarg/parameter.go: the provider-function parameter and return
 * that a Terraform type calls for.
 *
 * Both functions switch on `PlainTypeString`, so they look at the outermost
 * constructor only; the element or attribute types of a collection are
 * carried over unchanged. Tuples are refused, and every other type,
 * Dynamic included, becomes a dynamic parameter or return.
 */
module TfArg {
  import opened Wrappers
  import opened Types

  /** `ParameterOptions`; a nil pointer is `None`. */
  datatype ParameterOptions = ParameterOptions(description: string, markdownDescription: string)

  /** Which `function.*Parameter` or `function.*Return` record is built, with its type fields. */
  datatype Shape =
    | BoolShape
    | NumberShape
    | StringShape
    | ListShape(elementType: Type)
    | SetShape(elementType: Type)
    | ObjectShape(attributeTypes: map<string, Type>)
    | MapShape(elementType: Type)
    | DynamicShape

  datatype Parameter = Parameter(
    shape: Shape,
    name: string,
    description: string,
    markdownDescription: string,
    allowNullValue: bool,
    allowUnknownValues: bool)

  datatype Return = Return(shape: Shape)

  datatype ArgError =
    /** "tuples cannot be configured as function parameters" */
    | TupleParameter
    /** "tuples cannot be configured as function return" */
    | TupleReturn

  /** The reference classification, by constructor: the record each type deserves. */
  function ShapeOf(t: Type): Shape
    requires !t.Tuple?
  {
    match t
    case Bool => BoolShape
    case Number => NumberShape
    case String => StringShape
    case List(e) => ListShape(e)
    case Set(e) => SetShape(e)
    case Object(atys) => ObjectShape(atys)
    case Map(e) => MapShape(e)
    case Dynamic => DynamicShape
  }

  /** `AsTerraformParameter(typ, name, in)`. */
  function AsTerraformParameter(typ: Type, name: string, opts: Option<ParameterOptions>): (r: Result<Parameter, ArgError>)
    ensures r.Success? <==> !typ.Tuple?
    ensures r.Failure? ==> r.error == TupleParameter
    ensures r.Success? ==> r.value.shape == ShapeOf(typ) && r.value.name == name
    ensures r.Success? ==> r.value.allowNullValue && !r.value.allowUnknownValues
    ensures r.Success? && opts.Some? ==>
      r.value.description == opts.value.description && r.value.markdownDescription == opts.value.markdownDescription
    ensures r.Success? && opts.None? ==> r.value.description == "" && r.value.markdownDescription == ""
  {
    var o := if opts.None? then ParameterOptions("", "") else opts.value;
    var tag := PlainTypeString(typ);
    PlainTypeStringTags(typ);
    var shape :=
      if tag == "basetypes.BoolType" then BoolShape
      else if tag == "basetypes.NumberType" then NumberShape
      else if tag == "basetypes.StringType" then StringShape
      else if tag == "basetypes.ListType" then ListShape(typ.elem)
      else if tag == "basetypes.SetType" then SetShape(typ.elem)
      else if tag == "basetypes.ObjectType" then ObjectShape(typ.attrs)
      else if tag == "basetypes.MapType" then MapShape(typ.elem)
      else DynamicShape;
    if tag == "basetypes.TupleType" then Failure(TupleParameter)
    else Success(Parameter(shape, name, o.description, o.markdownDescription, true, false))
  }

  /** `AsTerraformReturn(typ)`. */
  function AsTerraformReturn(typ: Type): (r: Result<Return, ArgError>)
    ensures r.Success? <==> !typ.Tuple?
    ensures r.Failure? ==> r.error == TupleReturn
    ensures r.Success? ==> r.value.shape == ShapeOf(typ)
  {
    var tag := PlainTypeString(typ);
    PlainTypeStringTags(typ);
    if tag == "basetypes.BoolType" then Success(Return(BoolShape))
    else if tag == "basetypes.NumberType" then Success(Return(NumberShape))
    else if tag == "basetypes.StringType" then Success(Return(StringShape))
    else if tag == "basetypes.TupleType" then Failure(TupleReturn)
    else if tag == "basetypes.ListType" then Success(Return(ListShape(typ.elem)))
    else if tag == "basetypes.SetType" then Success(Return(SetShape(typ.elem)))
    else if tag == "basetypes.ObjectType" then Success(Return(ObjectShape(typ.attrs)))
    else if tag == "basetypes.MapType" then Success(Return(MapShape(typ.elem)))
    else Success(Return(DynamicShape))
  }

  /** A nil options pointer behaves as empty options. */
  lemma NilOptionsAreEmpty(typ: Type, name: string)
    ensures AsTerraformParameter(typ, name, None) == AsTerraformParameter(typ, name, Some(ParameterOptions("", "")))
  {
  }

  /** A type is accepted as a parameter exactly when it is accepted as a return, and with the same record kind. */
  lemma ParameterAndReturnAgree(typ: Type, name: string, opts: Option<ParameterOptions>)
    ensures AsTerraformParameter(typ, name, opts).Success? <==> AsTerraformReturn(typ).Success?
    ensures AsTerraformParameter(typ, name, opts).Success? ==>
      AsTerraformParameter(typ, name, opts).value.shape == AsTerraformReturn(typ).value.shape
  {
  }

  /** The record kind depends on the outermost constructor only: inner types are copied, never inspected. */
  lemma OnlyTheKindDecides(a: Type, b: Type)
    requires KindOf(a) == KindOf(b)
    ensures AsTerraformReturn(a).Success? <==> AsTerraformReturn(b).Success?
    ensures AsTerraformReturn(a).Success? ==> KindOfShape(AsTerraformReturn(a).value.shape) == KindOfShape(AsTerraformReturn(b).value.shape)
  {
  }

  /** The kind of type a record stands for. */
  function KindOfShape(s: Shape): Kind {
    match s
    case BoolShape => KBool
    case NumberShape => KNumber
    case StringShape => KString
    case ListShape(_) => KList
    case SetShape(_) => KSet
    case ObjectShape(_) => KObject
    case MapShape(_) => KMap
    case DynamicShape => KOther
  }
}
