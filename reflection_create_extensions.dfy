/** The CLR types that the SQL type mapper can return, and the friendly
    names the generator prints for them (ReflectionCreateExtensions). */
module ClrTypes {
  import opened Wrappers

  /** The non-generic CLR types the mapper returns. */
  datatype ClrBase =
    | Int64 | ByteArray | Boolean | Char | DateTime | DateTimeOffset | Decimal
    | Double | Int32 | String | Single | Int16 | TimeSpan | Byte | Guid

  /** A CLR type as the mapper returns it: the type itself, or Nullable<T> over it. */
  datatype ClrType = Plain(underlying: ClrBase) | NullableOf(underlying: ClrBase)

  /** byte[] and string are reference types; every other base is a struct. */
  predicate IsValueType(b: ClrBase) {
    !(b.ByteArray? || b.String?)
  }

  /** Nullable<T> exists only for a struct T. */
  predicate WellFormed(t: ClrType) {
    t.NullableOf? ==> IsValueType(t.underlying)
  }

  /** Type.Name of a non-generic type. */
  function BaseName(b: ClrBase): string {
    match b
    case Int64 => "Int64"
    case ByteArray => "Byte[]"
    case Boolean => "Boolean"
    case Char => "Char"
    case DateTime => "DateTime"
    case DateTimeOffset => "DateTimeOffset"
    case Decimal => "Decimal"
    case Double => "Double"
    case Int32 => "Int32"
    case String => "String"
    case Single => "Single"
    case Int16 => "Int16"
    case TimeSpan => "TimeSpan"
    case Byte => "Byte"
    case Guid => "Guid"
  }

  /** Type.Name of a closed Nullable<T> is that of its generic definition. */
  const NullableName := "Nullable`1"

  /** Type.Name. */
  function Name(t: ClrType): string {
    match t
    case Plain(b) => BaseName(b)
    case NullableOf(_) => NullableName
  }

  /** Type.IsGenericType: among these types only Nullable<T> is generic. */
  predicate IsGenericType(t: ClrType) {
    t.NullableOf?
  }

  /** Nullable.GetUnderlyingType: T for Nullable<T>, null otherwise. */
  function GetUnderlyingType(t: ClrType): (r: Option<ClrBase>)
    ensures r.Some? <==> t.NullableOf?
    ensures r.Some? ==> r.value == t.underlying
  {
    if t.NullableOf? then Some(t.underlying) else None
  }

  /** The open generic type definitions the returned types are built from:
      Nullable<> is the only one. */
  datatype GenericDefinition = NullableDefinition

  /** Type.GetGenericTypeDefinition, defined for generic types only. */
  function GetGenericTypeDefinition(t: ClrType): GenericDefinition
    requires IsGenericType(t)
  {
    NullableDefinition
  }

  /** HelpIsNullable: a non-generic type is never nullable; a generic one is
      nullable when its generic type definition is Nullable<>. */
  function HelpIsNullable(t: ClrType): (r: bool)
    ensures !IsGenericType(t) ==> !r
    ensures r <==> t.NullableOf?
    ensures r <==> GetUnderlyingType(t).Some?
    ensures r <==> Name(t) == NullableName
  {
    if !IsGenericType(t) then false else GetGenericTypeDefinition(t) == NullableDefinition
  }

  /** The six CLR names that are shortened to C# keywords. */
  const CommonTypeLabels: set<string> := {"Boolean", "Byte", "Int16", "Int32", "Int64", "String"}

  /** ConvertToCommonType: Boolean, Byte, Int16, Int32, Int64 and String become
      the C# keywords; every other name is returned unchanged. */
  function ConvertToCommonType(someType: string): (r: string)
    ensures someType !in CommonTypeLabels ==> r == someType
    ensures someType in CommonTypeLabels ==> r != someType && |r| > 0 && 'a' <= r[0] <= 'z'
    ensures r !in CommonTypeLabels
  {
    match someType
    case "Boolean" => "bool"
    case "Byte" => "byte"
    case "Int16" => "short"
    case "Int32" => "int"
    case "Int64" => "long"
    case "String" => "string"
    case _ => someType
  }

  /** None of ConvertToCommonType's results is one of its labels, so applying it again changes nothing. */
  lemma ConvertToCommonTypeIdempotent(someType: string)
    ensures ConvertToCommonType(ConvertToCommonType(someType)) == ConvertToCommonType(someType)
  {
  }

  /** HelpTypeToString: the converted name of the type, or of the underlying
      type followed by '?' for Nullable<T>. */
  function HelpTypeToString(someType: ClrType): (r: string)
    ensures |r| > 0
    ensures r[|r| - 1] == '?' <==> HelpIsNullable(someType)
    ensures HelpIsNullable(someType) ==> r[..|r| - 1] == ConvertToCommonType(BaseName(someType.underlying))
    ensures !HelpIsNullable(someType) ==> r == ConvertToCommonType(Name(someType))
  {
    var helpIsNullable := HelpIsNullable(someType);
    var result := if helpIsNullable then BaseName(GetUnderlyingType(someType).value) else Name(someType);
    var result := ConvertToCommonType(result);
    if helpIsNullable then result + "?" else result
  }

  /** The C# spelling of each base type, written out independently of the
      conversion chain: keywords for the six types that have one, the CLR
      name for the rest. */
  function CSharpName(b: ClrBase): string {
    match b
    case Int64 => "long"
    case ByteArray => "Byte[]"
    case Boolean => "bool"
    case Char => "Char"
    case DateTime => "DateTime"
    case DateTimeOffset => "DateTimeOffset"
    case Decimal => "Decimal"
    case Double => "Double"
    case Int32 => "int"
    case String => "string"
    case Single => "Single"
    case Int16 => "short"
    case TimeSpan => "TimeSpan"
    case Byte => "byte"
    case Guid => "Guid"
  }

  /** The six keyword types are shortened; the other nine keep their CLR name. */
  lemma ConvertToCommonTypeOfBaseName(b: ClrBase)
    ensures ConvertToCommonType(BaseName(b)) == CSharpName(b)
  {
    if b in {Int64, Boolean, Int32, String, Int16, Byte} {
    } else {
      assert BaseName(b) !in CommonTypeLabels;
    }
  }

  /** Every type the mapper can return is printed as its C# spelling, with '?'
      exactly when it is Nullable<T>. */
  lemma HelpTypeToStringIsCSharpName(t: ClrType)
    ensures HelpTypeToString(t) == CSharpName(t.underlying) + (if t.NullableOf? then "?" else "")
  {
    ConvertToCommonTypeOfBaseName(t.underlying);
  }

  /** No space and no line break: a single token on one line. */
  predicate IsToken(s: string) {
    forall i :: 0 <= i < |s| ==> s[i] != ' ' && s[i] != '\n'
  }

  lemma CSharpNameIsToken(b: ClrBase)
    ensures IsToken(CSharpName(b))
  {
    match b
    case Int64 =>
    case ByteArray =>
    case Boolean =>
    case Char =>
    case DateTime =>
    case DateTimeOffset =>
    case Decimal =>
    case Double =>
    case Int32 =>
    case String =>
    case Single =>
    case Int16 =>
    case TimeSpan =>
    case Byte =>
    case Guid =>
  }

  /** A printed type name never contains a space or a line break. */
  lemma HelpTypeToStringIsToken(t: ClrType)
    ensures IsToken(HelpTypeToString(t))
  {
    HelpTypeToStringIsCSharpName(t);
    CSharpNameIsToken(t.underlying);
  }
}
