/** One column of a SQL Server table as read from the catalog
    (DatabaseTableField): its mapping to a C# type, its display signature
    and its ToString. */
module SqlField {
  import opened Wrappers
  import opened DotNet
  import opened ClrTypes

  /** A column's metadata. dataType is None when the C# property is null. */
  datatype DatabaseTableField = DatabaseTableField(
    columnName: string,
    dataType: Option<string>,
    maxLength: int,
    precision: int,
    scale: int,
    isNullable: bool,
    isPrimaryKey: bool)

  const NoDataTypeMessage := "No data type specified!"

  function UnknownTypeMessage(dataType: string): string {
    "Do not know how to covert the " + dataType + " type to a C# type."
  }

  /** SQL type names that map to byte[] whatever the column's nullability. */
  const ByteArrayTypes: set<string> := {"binary", "image", "timestamp", "varbinary", "rowversion"}

  /** SQL type names that map to string whatever the column's nullability. */
  const StringTypes: set<string> := {"nchar", "ntext", "nvarchar", "text", "varchar"}

  /** SQL type names that map to a struct, Nullable<T> when the column is
      nullable, in four groups: integers, dates and times, exact decimals,
      and the rest. */
  const IntegerTypes: map<string, ClrBase> :=
    map["bigint" := Int64, "int" := Int32, "smallint" := Int16, "tinyint" := Byte]
  const TemporalTypes: map<string, ClrBase> :=
    map["date" := DateTime, "datetime" := DateTime, "datetime2" := DateTime, "smalldatetime" := DateTime,
        "datetimeoffset" := DateTimeOffset, "time" := TimeSpan]
  const DecimalTypes: map<string, ClrBase> :=
    map["decimal" := Decimal, "numeric" := Decimal, "smallmoney" := Decimal, "money" := Decimal]
  const OtherValueTypes: map<string, ClrBase> :=
    map["bit" := Boolean, "float" := Double, "real" := Single, "uniqueidentifier" := Guid]
  const ValueTypes: map<string, ClrBase> := IntegerTypes + TemporalTypes + DecimalTypes + OtherValueTypes

  /** Every (lower-case) SQL type name the mapper knows, in the order of its switch. */
  const SupportedTypes: set<string> := {
    "bigint", "binary", "image", "timestamp", "varbinary", "bit", "char",
    "date", "datetime", "datetime2", "smalldatetime", "datetimeoffset",
    "decimal", "numeric", "smallmoney", "float", "int", "money",
    "nchar", "ntext", "nvarchar", "text", "varchar", "real", "rowversion",
    "smallint", "time", "tinyint", "uniqueidentifier"}

  /** `IsNullable ? typeof(T?) : typeof(T)` */
  function Wrap(b: ClrBase, isNullable: bool): (t: ClrType)
    requires IsValueType(b)
    ensures t.underlying == b && (t.NullableOf? <==> isNullable)
    ensures WellFormed(t)
    ensures HelpIsNullable(t) <==> isNullable
  {
    if isNullable then NullableOf(b) else Plain(b)
  }

  /** The switch of DataTypeAsCSharpType over an already lower-cased name;
      None is its default case. */
  function SqlTypeToClr(name: string, isNullable: bool, maxLength: int): (r: Option<ClrType>)
    ensures r.Some? ==> WellFormed(r.value)
  {
    match name
    case "bigint" => Some(Wrap(Int64, isNullable))
    case "binary" | "image" | "timestamp" | "varbinary" => Some(Plain(ByteArray))
    case "bit" => Some(Wrap(Boolean, isNullable))
    case "char" => Some(if maxLength == 1 then Wrap(Char, isNullable) else Plain(String))
    case "date" | "datetime" | "datetime2" | "smalldatetime" => Some(Wrap(DateTime, isNullable))
    case "datetimeoffset" => Some(Wrap(DateTimeOffset, isNullable))
    case "decimal" | "numeric" | "smallmoney" => Some(Wrap(Decimal, isNullable))
    case "float" => Some(Wrap(Double, isNullable))
    case "int" => Some(Wrap(Int32, isNullable))
    case "money" => Some(Wrap(Decimal, isNullable))
    case "nchar" | "ntext" | "nvarchar" | "text" | "varchar" => Some(Plain(String))
    case "real" => Some(Wrap(Single, isNullable))
    case "rowversion" => Some(Plain(ByteArray))
    case "smallint" => Some(Wrap(Int16, isNullable))
    case "time" => Some(Wrap(TimeSpan, isNullable))
    case "tinyint" => Some(Wrap(Byte, isNullable))
    case "uniqueidentifier" => Some(Wrap(Guid, isNullable))
    case _ => None
  }

  /** The switch knows exactly the supported names: there is no silent default. */
  lemma SqlTypeToClrSupported(name: string, isNullable: bool, maxLength: int)
    ensures SqlTypeToClr(name, isNullable, maxLength).Some? <==> name in SupportedTypes
  {
  }

  /** DataTypeAsCSharpType(string): the C# type for a SQL type name, using
      the column's own IsNullable and MaxLength; a blank name and an unknown
      name each throw an ArgumentException. */
  function DataTypeAsCSharpType(field: DatabaseTableField, dataType: Option<string>): (r: Result<ClrType, Exception>)
    ensures IsNullOrWhiteSpace(dataType) ==> r == Failure(ArgumentException(NoDataTypeMessage))
    ensures !IsNullOrWhiteSpace(dataType) ==> (r.Success? <==> ToLower(dataType.value) in SupportedTypes)
    ensures !IsNullOrWhiteSpace(dataType) && r.Failure? ==> r.error == ArgumentException(UnknownTypeMessage(dataType.value))
    ensures r.Success? ==> WellFormed(r.value)
  {
    if IsNullOrWhiteSpace(dataType) then Failure(ArgumentException(NoDataTypeMessage))
    else
      SqlTypeToClrSupported(ToLower(dataType.value), field.isNullable, field.maxLength);
      match SqlTypeToClr(ToLower(dataType.value), field.isNullable, field.maxLength)
      case Some(t) => Success(t)
      case None => Failure(ArgumentException(UnknownTypeMessage(dataType.value)))
  }

  /** DataTypeAsCSharpType(): the mapping applied to the column's own DataType. */
  function CSharpType(field: DatabaseTableField): (r: Result<ClrType, Exception>)
    ensures r.Success? <==> !IsNullOrWhiteSpace(field.dataType) && ToLower(field.dataType.value) in SupportedTypes
  {
    DataTypeAsCSharpType(field, field.dataType)
  }

  /** Upper and lower case spell the same type: two names with one lower-case
      form both fail or both give the same type (the messages differ, since
      they quote the name as given). */
  lemma MappingIsCaseInsensitive(field: DatabaseTableField, a: string, b: string)
    requires ToLower(a) == ToLower(b)
    ensures DataTypeAsCSharpType(field, Some(a)).Success? == DataTypeAsCSharpType(field, Some(b)).Success?
    ensures DataTypeAsCSharpType(field, Some(a)).Success? ==> DataTypeAsCSharpType(field, Some(a)) == DataTypeAsCSharpType(field, Some(b))
  {
    BlankUnderLower(a, b);
  }

  /** Every supported name starts with a lower-case letter. */
  lemma SupportedTypeStartsWithLetter(name: string)
    requires name in SupportedTypes
    ensures |name| > 0 && 'a' <= name[0] <= 'z'
  {
  }

  /** The families cover the supported names... */
  lemma SupportedTypesInFamilies(name: string)
    requires name in SupportedTypes
    ensures name in ByteArrayTypes || name in StringTypes || name == "char" || name in ValueTypes
  {
  }

  /** ...and hold nothing else. */
  lemma FamiliesInSupportedTypes(name: string)
    requires name in ByteArrayTypes || name in StringTypes || name == "char" || name in ValueTypes
    ensures name in SupportedTypes
  {
  }

  /** A name whose lower-case form is supported is not blank. */
  lemma SupportedTypeIsNotBlank(dataType: string)
    requires ToLower(dataType) in SupportedTypes
    ensures !IsNullOrWhiteSpace(Some(dataType))
  {
    SupportedTypeStartsWithLetter(ToLower(dataType));
    assert ToLower(dataType)[0] == LowerChar(dataType[0]);
  }

  /** binary, image, timestamp, varbinary and rowversion are byte[], never
      wrapped, whatever the column's nullability. */
  lemma ByteArrayFamily(name: string, isNullable: bool, maxLength: int)
    requires name in ByteArrayTypes
    ensures SqlTypeToClr(name, isNullable, maxLength) == Some(Plain(ByteArray))
  {
  }

  /** nchar, ntext, nvarchar, text and varchar are string, never wrapped,
      whatever the column's nullability. */
  lemma StringFamily(name: string, isNullable: bool, maxLength: int)
    requires name in StringTypes
    ensures SqlTypeToClr(name, isNullable, maxLength) == Some(Plain(String))
  {
  }

  /** char(1) is Char, wrapped when the column is nullable; any other width is string. */
  lemma CharRule(isNullable: bool, maxLength: int)
    ensures maxLength == 1 ==> SqlTypeToClr("char", isNullable, maxLength) == Some(Wrap(Char, isNullable))
    ensures maxLength != 1 ==> SqlTypeToClr("char", isNullable, maxLength) == Some(Plain(String))
  {
  }

  /** bigint, int, smallint and tinyint are Int64, Int32, Int16 and Byte,
      Nullable<T> exactly when the column is nullable. */
  lemma IntegerFamily(name: string, isNullable: bool, maxLength: int)
    requires name in IntegerTypes
    ensures SqlTypeToClr(name, isNullable, maxLength) == Some(Wrap(IntegerTypes[name], isNullable))
  {
  }

  /** date, datetime, datetime2 and smalldatetime are DateTime, datetimeoffset
      is DateTimeOffset and time is TimeSpan, each wrapped when the column is nullable. */
  lemma TemporalFamily(name: string, isNullable: bool, maxLength: int)
    requires name in TemporalTypes
    ensures SqlTypeToClr(name, isNullable, maxLength) == Some(Wrap(TemporalTypes[name], isNullable))
  {
  }

  /** decimal, numeric, smallmoney and money are Decimal, wrapped when the column is nullable. */
  lemma DecimalFamily(name: string, isNullable: bool, maxLength: int)
    requires name in DecimalTypes
    ensures SqlTypeToClr(name, isNullable, maxLength) == Some(Wrap(DecimalTypes[name], isNullable))
  {
  }

  /** bit, float, real and uniqueidentifier are Boolean, Double, Single and Guid,
      wrapped when the column is nullable. */
  lemma OtherValueFamily(name: string, isNullable: bool, maxLength: int)
    requires name in OtherValueTypes
    ensures SqlTypeToClr(name, isNullable, maxLength) == Some(Wrap(OtherValueTypes[name], isNullable))
  {
  }

  /** The families as seen through DataTypeAsCSharpType: the column's type
      name, in any case, decides the family. */
  lemma DataTypeAsCSharpTypeFamilies(field: DatabaseTableField, dataType: string)
    requires ToLower(dataType) in SupportedTypes
    ensures SqlTypeToClr(ToLower(dataType), field.isNullable, field.maxLength).Some?
    ensures DataTypeAsCSharpType(field, Some(dataType))
      == Success(SqlTypeToClr(ToLower(dataType), field.isNullable, field.maxLength).value)
  {
    SupportedTypeIsNotBlank(dataType);
    SqlTypeToClrSupported(ToLower(dataType), field.isNullable, field.maxLength);
  }

  /** No upper-case ASCII letter: true of everything ToLower and SizeQualifier produce. */
  predicate NoUpper(s: string) {
    forall i :: 0 <= i < |s| ==> !IsAsciiUpper(s[i])
  }

  lemma NoUpperAppend(a: string, b: string)
    requires NoUpper(a) && NoUpper(b)
    ensures NoUpper(a + b)
  {
  }

  lemma IntToStringNoUpper(n: int)
    ensures NoUpper(IntToString(n))
  {
    var m: nat := if n < 0 then -n else n;
    assert NoUpper(NatToString(m));
    if n < 0 {
      NoUpperAppend("-", NatToString(m));
    }
  }

  /** "(" + inner + ")" */
  function Parenthesized(inner: string): (r: string)
    requires NoUpper(inner)
    ensures NoUpper(r)
  {
    NoUpperAppend("(", inner);
    NoUpperAppend("(" + inner, ")");
    "(" + inner + ")"
  }

  /** The size qualifier of DataTypeAsString for an already lower-cased name:
      the width in bytes for binary, char and varbinary, half the width for
      nchar, nvarchar and varchar, "max" for a negative width, precision and
      scale for decimal and numeric, and nothing for any other name. */
  function SizeQualifier(name: string, maxLength: int, precision: int, scale: int): (r: string)
    ensures NoUpper(r)
  {
    IntToStringNoUpper(maxLength);
    IntToStringNoUpper(maxLength / 2);
    IntToStringNoUpper(precision);
    IntToStringNoUpper(scale);
    match name
    case "binary" | "char" | "varbinary" =>
      Parenthesized(if maxLength >= 0 then IntToString(maxLength) else "max")
    case "nchar" | "nvarchar" | "varchar" =>
      Parenthesized(if maxLength >= 0 then IntToString(maxLength / 2) else "max")
    case "decimal" | "numeric" =>
      NoUpperAppend(IntToString(precision), ", ");
      NoUpperAppend(IntToString(precision) + ", ", IntToString(scale));
      Parenthesized(IntToString(precision) + ", " + IntToString(scale))
    case _ => ""
  }

  /** DataTypeAsString: the signature as SQL Server Management Studio shows it;
      a null DataType is dereferenced and throws. */
  function DataTypeAsString(field: DatabaseTableField): (r: Result<string, Exception>)
    ensures r.Success? <==> field.dataType.Some?
    ensures r.Failure? ==> r.error == NullReferenceException
  {
    if field.dataType.None? then Failure(NullReferenceException)
    else
      var result := ToLower(field.dataType.value);
      var result := result + SizeQualifier(result, field.maxLength, field.precision, field.scale);
      Success(result + if field.isNullable then " NULL" else " NOT NULL")
  }

  predicate EndsWith(s: string, suffix: string) {
    |suffix| <= |s| && s[|s| - |suffix|..] == suffix
  }

  /** The signature starts with the lower-cased name, and it ends with
      " NOT NULL" exactly when the column is not nullable; " NULL" ends
      both forms, so it is the " NOT" that tells them apart, and neither the
      lower-cased name nor the qualifier can supply one. */
  lemma DataTypeAsStringSuffix(field: DatabaseTableField)
    requires field.dataType.Some?
    ensures var s := DataTypeAsString(field).value;
      var name := ToLower(field.dataType.value);
      |name| <= |s| && s[..|name|] == name
    ensures EndsWith(DataTypeAsString(field).value, " NULL")
    ensures EndsWith(DataTypeAsString(field).value, " NOT NULL") <==> !field.isNullable
  {
    var name := ToLower(field.dataType.value);
    var q := SizeQualifier(name, field.maxLength, field.precision, field.scale);
    var prefix := name + q;
    NoUpperAppend(name, q);
    var s := DataTypeAsString(field).value;
    if field.isNullable {
      assert s == prefix + " NULL";
      if |s| >= 9 {
        assert s[|s| - 8] == prefix[|prefix| - 3];
        assert s[|s| - 9..][1] != " NOT NULL"[1];
      }
    } else {
      assert s == prefix + " NOT NULL";
      assert s[|s| - 5..] == " NOT NULL"[4..];
    }
    assert s[..|name|] == name;
  }

  /** binary, char, varbinary show the width in bytes, varchar-like types half of it,
      and a negative width is shown as (max). */
  lemma DataTypeAsStringQualifier(field: DatabaseTableField)
    requires field.dataType.Some?
    ensures var name := ToLower(field.dataType.value);
      var suffix := if field.isNullable then " NULL" else " NOT NULL";
      var n := field.maxLength;
      DataTypeAsString(field).value ==
        name
        + (if name in {"binary", "char", "varbinary"} then (if n < 0 then "(max)" else "(" + IntToString(n) + ")")
           else if name in {"nchar", "nvarchar", "varchar"} then (if n < 0 then "(max)" else "(" + IntToString(n / 2) + ")")
           else if name in {"decimal", "numeric"} then "(" + IntToString(field.precision) + ", " + IntToString(field.scale) + ")"
           else "")
        + suffix
  {
  }

  /** Glues the three parts of a signature once their values are known. */
  lemma SignatureOf(field: DatabaseTableField, name: string, qualifier: string)
    requires field.dataType.Some? && ToLower(field.dataType.value) == name
    requires SizeQualifier(name, field.maxLength, field.precision, field.scale) == qualifier
    ensures DataTypeAsString(field) == Success(name + qualifier + if field.isNullable then " NULL" else " NOT NULL")
  {
  }

  lemma NVarCharQualifier(precision: int, scale: int)
    ensures SizeQualifier("nvarchar", 100, precision, scale) == "(50)"
  {
    assert IntToString(100 / 2) == "50" by {
      assert NatToString(5) == "5";
    }
  }

  lemma MaxQualifier(precision: int, scale: int)
    ensures SizeQualifier("varbinary", -1, precision, scale) == "(max)"
  {
  }

  lemma VarCharQualifier(precision: int, scale: int)
    ensures SizeQualifier("varchar", 10, precision, scale) == "(5)"
  {
    assert IntToString(10 / 2) == "5";
  }

  lemma DecimalQualifier(maxLength: int)
    ensures SizeQualifier("decimal", maxLength, 18, 4) == "(18, 4)"
  {
    assert IntToString(18) == "18" by {
      assert NatToString(1) == "1";
    }
    assert IntToString(4) == "4";
  }

  lemma NoQualifier(maxLength: int, precision: int, scale: int)
    ensures SizeQualifier("geography", maxLength, precision, scale) == ""
  {
  }

  lemma NVarCharParts(field: DatabaseTableField)
    requires field.dataType == Some("nvarchar") && field.maxLength == 100 && field.isNullable
    ensures DataTypeAsString(field) == Success("nvarchar" + "(50)" + " NULL")
  {
    ToLowerUnchanged("nvarchar");
    NVarCharQualifier(field.precision, field.scale);
    SignatureOf(field, "nvarchar", "(50)");
  }

  /** A Unicode width is halved: nvarchar with 100 bytes shows 50 characters. */
  lemma NVarCharExample(field: DatabaseTableField)
    requires field.dataType == Some("nvarchar") && field.maxLength == 100 && field.isNullable
    ensures DataTypeAsString(field) == Success("nvarchar(50) NULL")
  {
    NVarCharParts(field);
    assert "nvarchar" + "(50)" + " NULL" == "nvarchar(50) NULL";
  }

  lemma VarBinaryMaxParts(field: DatabaseTableField)
    requires field.dataType == Some("varbinary") && field.maxLength == -1 && !field.isNullable
    ensures DataTypeAsString(field) == Success("varbinary" + "(max)" + " NOT NULL")
  {
    ToLowerUnchanged("varbinary");
    MaxQualifier(field.precision, field.scale);
    SignatureOf(field, "varbinary", "(max)");
  }

  /** A negative width is shown as (max). */
  lemma VarBinaryMaxExample(field: DatabaseTableField)
    requires field.dataType == Some("varbinary") && field.maxLength == -1 && !field.isNullable
    ensures DataTypeAsString(field) == Success("varbinary(max) NOT NULL")
  {
    VarBinaryMaxParts(field);
    assert "varbinary" + "(max)" + " NOT NULL" == "varbinary(max) NOT NULL";
  }

  lemma VarCharHalvedParts(field: DatabaseTableField)
    requires field.dataType == Some("varchar") && field.maxLength == 10 && !field.isNullable
    ensures DataTypeAsString(field) == Success("varchar" + "(5)" + " NOT NULL")
  {
    ToLowerUnchanged("varchar");
    VarCharQualifier(field.precision, field.scale);
    SignatureOf(field, "varchar", "(5)");
  }

  /** varchar is halved as well, although it stores one byte per character:
      a varchar(10) column, whose catalog width is 10, is shown as varchar(5). */
  lemma VarCharHalvedExample(field: DatabaseTableField)
    requires field.dataType == Some("varchar") && field.maxLength == 10 && !field.isNullable
    ensures DataTypeAsString(field) == Success("varchar(5) NOT NULL")
  {
    VarCharHalvedParts(field);
    assert "varchar" + "(5)" + " NOT NULL" == "varchar(5) NOT NULL";
  }

  lemma DecimalParts(field: DatabaseTableField)
    requires field.dataType == Some("decimal") && field.precision == 18 && field.scale == 4 && field.isNullable
    ensures DataTypeAsString(field) == Success("decimal" + "(18, 4)" + " NULL")
  {
    ToLowerUnchanged("decimal");
    DecimalQualifier(field.maxLength);
    SignatureOf(field, "decimal", "(18, 4)");
  }

  /** decimal and numeric show precision and scale; the width plays no part. */
  lemma DecimalExample(field: DatabaseTableField)
    requires field.dataType == Some("decimal") && field.precision == 18 && field.scale == 4 && field.isNullable
    ensures DataTypeAsString(field) == Success("decimal(18, 4) NULL")
  {
    DecimalParts(field);
    assert "decimal" + "(18, 4)" + " NULL" == "decimal(18, 4) NULL";
  }

  lemma UnsupportedTypeDisplayParts(field: DatabaseTableField)
    requires field.dataType == Some("geography") && field.isNullable
    ensures DataTypeAsString(field) == Success("geography" + "" + " NULL")
  {
    ToLowerUnchanged("geography");
    NoQualifier(field.maxLength, field.precision, field.scale);
    SignatureOf(field, "geography", "");
  }

  /** An unsupported type is still displayed, without a qualifier. */
  lemma UnsupportedTypeDisplayExample(field: DatabaseTableField)
    requires field.dataType == Some("geography") && field.isNullable
    ensures DataTypeAsString(field) == Success("geography NULL")
  {
    UnsupportedTypeDisplayParts(field);
    assert "geography" + "" + " NULL" == "geography NULL";
  }

  /** ToString: column, signature, C# type and key flag. A blank type name
      shows "Unknown" for both instead of calling either converter; otherwise
      an unknown type name makes ToString throw. */
  function FieldToString(field: DatabaseTableField): (r: Result<string, Exception>)
    ensures IsNullOrWhiteSpace(field.dataType) ==> r.Success?
    ensures !IsNullOrWhiteSpace(field.dataType) ==> (r.Success? <==> CSharpType(field).Success?)
    ensures r.Failure? ==> r == Failure(ArgumentException(UnknownTypeMessage(field.dataType.value)))
  {
    var blank := IsNullOrWhiteSpace(field.dataType);
    var dataType := if blank then Success("Unknown") else DataTypeAsString(field);
    var cSharp := if blank then Success("Unknown")
                  else match DataTypeAsCSharpType(field, field.dataType)
                       case Success(t) => Success(HelpTypeToString(t))
                       case Failure(e) => Failure(e);
    match (dataType, cSharp)
    case (Success(d), Success(c)) =>
      Success("ColumnName: " + field.columnName + "  DataType: " + d + " C#: " + c
              + "  IsPrimaryKey: " + BoolToString(field.isPrimaryKey))
    case (Failure(e), _) => Failure(e)
    case (_, Failure(e)) => Failure(e)
  }

  /** With a blank type name ToString prints "Unknown" in both type slots. */
  lemma FieldToStringBlank(field: DatabaseTableField)
    requires IsNullOrWhiteSpace(field.dataType)
    ensures FieldToString(field) == Success("ColumnName: " + field.columnName + "  DataType: " + "Unknown" + " C#: " + "Unknown"
                                             + "  IsPrimaryKey: " + BoolToString(field.isPrimaryKey))
  {
  }
}
