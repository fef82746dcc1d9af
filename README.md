# TableToCSharpClass in Dafny

TableToCSharpClass reads the column metadata of a SQL Server table and turns
it into the source text of a C# class with one auto-property per column.
This project models the part of the repository that does the conversion:

- `DatabaseTableField` (module `SqlField`, file `database_table_field.dfy`):
  the column record, the SQL-type-to-CLR-type switch `DataTypeAsCSharpType`,
  the Management Studio style signature `DataTypeAsString`, and `ToString`.
- `ReflectionCreateExtensions` (module `ClrTypes`, file
  `reflection_create_extensions.dfy`): the CLR types the switch can return,
  `HelpIsNullable`, `HelpTypeToString` and `ConvertToCommonType`.
- `DatabaseTableHelper.ConvertFieldsToClass` (module `ClassEmitter`, file
  `database_table_helper.dfy`): an imperative method over a `StringBuilder`
  with a loop over the fields. It is proved equal to the pure specification
  `ClassText`.
- The .NET pieces these rely on (module `DotNet`, file `dotnet.dfy`):
  - `string.IsNullOrWhiteSpace`;
  - `string.ToLower`, for ASCII only;
  - `Int32.ToString` and `Boolean.ToString`;
  - `Environment.NewLine`;
  - the exceptions thrown;
  - a `StringBuilder` class whose text is a field that the methods update.
- `Option`, `Result`, and `Collect` (module `Wrappers`, file `wrappers.dfy`).
  `Collect` gathers a sequence of results and stops at the first failure. It
  is the specification of a loop that an exception can leave early.

An exception in the C# code is a `Failure` here. A C# `null` string is `None`.
A type returned by the switch is a `ClrType`: either a base type or
`Nullable<T>` over a struct base type.

What is proved, briefly:

- The switch knows exactly 29 lower-case names.
- Lower-casing makes the switch case-insensitive.
- Each value-type family of names gets its type, wrapped in `Nullable<T>`
  exactly when the column is nullable; `byte[]` and `string` are never wrapped,
  and neither is `char` with a width other than 1, which maps to `string`.
- A blank name and an unknown name throw, each with its own message.
- `HelpTypeToString` prints the C# spelling of every returned type, with `?`
  exactly for `Nullable<T>`. The printed type name is a single token.
- The signature starts with the lower-cased name. It ends in ` NOT NULL`
  exactly when the column is not nullable. Its size qualifier has the stated
  format.
- The generated class is produced only when every field maps. Otherwise the
  exception of the first failing field escapes.
- The class consists of 6 header lines, one property line per field, and 2
  closing lines.
- Each property line can be parsed back into its type name and column name.
- When no name contains a line break, the text splits back into exactly those
  `|fields| + 8` lines.
- `Int32.ToString` can be read back.

The code halves the width of `varchar`, just as it halves `nchar` and
`nvarchar` (DatabaseTableField.cs line 117). This contradicts the field's own
documentation (lines 14-16): `MaxLength` of a `varchar(10)` column is 10, so the
column is shown as `varchar(5)`. The model keeps the behaviour as written, and
`SqlField.VarCharHalvedExample` states it.

## Model

| member | source | states |
|---|---|---|
| DotNet.ToLower | TableToCSharpClass/Tools/DatabaseTableField.cs:49 | the lower-cased name has the same length, and each character is the lower-case form of the original one |
| DotNet.ToLowerIdempotent | TableToCSharpClass/Tools/DatabaseTableField.cs:49 | lower-casing an already lower-cased name changes nothing |
| DotNet.ToLowerUnchanged | TableToCSharpClass/Tools/DatabaseTableField.cs:106 | a name without upper-case letters is its own lower-case form |
| DotNet.BlankUnderLower | TableToCSharpClass/Tools/DatabaseTableField.cs:46-49 | two names with the same lower-case form are both blank or both not blank |
| DotNet.NatToString | TableToCSharpClass/Tools/DatabaseTableField.cs:113 | the printed number is non-empty, made of decimal digits only, and has no leading zero |
| DotNet.IntToStringRoundTrip | TableToCSharpClass/Tools/DatabaseTableField.cs:122 | parsing the printed text of any int gives that int back |
| DotNet.JoinLines | TableToCSharpClass/Tools/DatabaseTableHelper.cs:45 | the text of one or more completed lines ends in a line break |
| DotNet.AppendLineStep | TableToCSharpClass/Tools/DatabaseTableHelper.cs:38 | completing one more line appends that line and NewLine to the text |
| DotNet.SplitJoinLines | TableToCSharpClass/Tools/DatabaseTableHelper.cs:25-45 | splitting the text of lines that contain no line break gives those lines back |
| DotNet.StringBuilder.constructor | TableToCSharpClass/Tools/DatabaseTableHelper.cs:25 | a new builder holds no lines and no pending text |
| DotNet.StringBuilder.Append | TableToCSharpClass/Tools/DatabaseTableHelper.cs:37 | the current line grows by the appended text, and the completed lines stay unchanged |
| DotNet.StringBuilder.AppendLine | TableToCSharpClass/Tools/DatabaseTableHelper.cs:26-43 | the completed lines grow by the current line followed by the argument, and the new current line is empty |
| DotNet.StringBuilder.ToString | TableToCSharpClass/Tools/DatabaseTableHelper.cs:45 | the text is the completed lines, each followed by NewLine, then the pending text |
| ClrTypes.HelpIsNullable | TableToCSharpClass/Common/ReflectionCreateExtensions.cs:22-27 | a non-generic type is never nullable; a type is nullable exactly when it is Nullable<T>, which is decided by comparing its generic type definition with Nullable<>; exactly then it has an underlying type and carries the name of Nullable<> |
| ClrTypes.ConvertToCommonType | TableToCSharpClass/Common/ReflectionCreateExtensions.cs:46-65 | the six CLR names become lower-case keywords that differ from them; every other name is returned unchanged; no result is one of the six names |
| ClrTypes.ConvertToCommonTypeIdempotent | TableToCSharpClass/Common/ReflectionCreateExtensions.cs:46-65 | converting twice is converting once |
| ClrTypes.HelpTypeToString | TableToCSharpClass/Common/ReflectionCreateExtensions.cs:32-41 | the result is non-empty and ends in '?' exactly when the type is nullable; for a nullable type, the converted name of the underlying type comes before the '?'; otherwise the result is the converted name of the type |
| ClrTypes.ConvertToCommonTypeOfBaseName | TableToCSharpClass/Common/ReflectionCreateExtensions.cs:46-65 | converting the CLR name of each base type gives its C# spelling from an independent table |
| ClrTypes.HelpTypeToStringIsCSharpName | TableToCSharpClass/Common/ReflectionCreateExtensions.cs:32-41 | every type the switch can return prints as its C# spelling, followed by '?' exactly for Nullable<T> |
| ClrTypes.CSharpNameIsToken | TableToCSharpClass/Common/ReflectionCreateExtensions.cs:46-65 | no C# spelling contains a space or a line break |
| ClrTypes.HelpTypeToStringIsToken | TableToCSharpClass/Common/ReflectionCreateExtensions.cs:32-41 | a printed type name is one token: it contains no space and no line break |
| SqlField.Wrap | TableToCSharpClass/Tools/DatabaseTableField.cs:52 | `IsNullable ? T? : T` keeps T, and is Nullable<T> exactly when the column is nullable, which HelpIsNullable then reports |
| SqlField.SqlTypeToClr | TableToCSharpClass/Tools/DatabaseTableField.cs:49-99 | the switch returns only well-formed types: Nullable<T> only over a struct |
| SqlField.SqlTypeToClrSupported | TableToCSharpClass/Tools/DatabaseTableField.cs:49-98 | the switch gives a type exactly for the 29 supported names, and the default case covers every other name |
| SqlField.DataTypeAsCSharpType | TableToCSharpClass/Tools/DatabaseTableField.cs:44-100 | a blank name throws "No data type specified!"; any other name succeeds exactly when its lower-case form is supported, and otherwise throws the message quoting the name as given; every result is well-formed |
| SqlField.CSharpType | TableToCSharpClass/Tools/DatabaseTableField.cs:38-41 | the mapping of the column's own DataType succeeds exactly when that name is not blank and is supported |
| SqlField.MappingIsCaseInsensitive | TableToCSharpClass/Tools/DatabaseTableField.cs:49 | two names with the same lower-case form both succeed or both fail, and when they succeed they give the same type |
| SqlField.SupportedTypeStartsWithLetter | TableToCSharpClass/Tools/DatabaseTableField.cs:51-96 | every case label starts with a lower-case letter |
| SqlField.SupportedTypeIsNotBlank | TableToCSharpClass/Tools/DatabaseTableField.cs:46-49 | a name whose lower-case form is supported never reaches the blank check's exception |
| SqlField.SupportedTypesInFamilies | TableToCSharpClass/Tools/DatabaseTableField.cs:51-96 | every case label belongs to one of the families: byte[], string, char, or struct |
| SqlField.FamiliesInSupportedTypes | TableToCSharpClass/Tools/DatabaseTableField.cs:51-96 | every name in a family is a case label |
| SqlField.ByteArrayFamily | TableToCSharpClass/Tools/DatabaseTableField.cs:53-88 | binary, image, timestamp, varbinary and rowversion are byte[], never wrapped |
| SqlField.StringFamily | TableToCSharpClass/Tools/DatabaseTableField.cs:79-84 | nchar, ntext, nvarchar, text and varchar are string, never wrapped |
| SqlField.CharRule | TableToCSharpClass/Tools/DatabaseTableField.cs:60-61 | char with width 1 is Char, wrapped when the column is nullable; char with any other width is string |
| SqlField.IntegerFamily | TableToCSharpClass/Tools/DatabaseTableField.cs:51-94 | bigint, int, smallint and tinyint are Int64, Int32, Int16 and Byte, wrapped exactly when the column is nullable |
| SqlField.TemporalFamily | TableToCSharpClass/Tools/DatabaseTableField.cs:62-92 | the four date names are DateTime, datetimeoffset is DateTimeOffset and time is TimeSpan, each wrapped exactly when the column is nullable |
| SqlField.DecimalFamily | TableToCSharpClass/Tools/DatabaseTableField.cs:69-78 | decimal, numeric, smallmoney and money are Decimal, wrapped exactly when the column is nullable |
| SqlField.OtherValueFamily | TableToCSharpClass/Tools/DatabaseTableField.cs:58-96 | bit, float, real and uniqueidentifier are Boolean, Double, Single and Guid, wrapped exactly when the column is nullable |
| SqlField.DataTypeAsCSharpTypeFamilies | TableToCSharpClass/Tools/DatabaseTableField.cs:44-100 | for a supported name, in any case, the mapping succeeds with the type that the switch gives for the lower-cased name |
| SqlField.SizeQualifier | TableToCSharpClass/Tools/DatabaseTableField.cs:108-124 | the qualifier never contains an upper-case letter |
| SqlField.DataTypeAsString | TableToCSharpClass/Tools/DatabaseTableField.cs:104-131 | the signature exists exactly when DataType is not null; a null DataType throws NullReferenceException |
| SqlField.DataTypeAsStringSuffix | TableToCSharpClass/Tools/DatabaseTableField.cs:106-128 | the signature starts with the lower-cased name and always ends in " NULL"; it ends in " NOT NULL" exactly when the column is not nullable |
| SqlField.DataTypeAsStringQualifier | TableToCSharpClass/Tools/DatabaseTableField.cs:106-128 | the signature is the lower-cased name, then the qualifier, then the nullability suffix. The qualifier is the width for binary/char/varbinary, half the width for nchar/nvarchar/varchar, (max) for a negative width, (precision, scale) for decimal/numeric, and empty otherwise |
| SqlField.NVarCharExample | TableToCSharpClass/Tools/DatabaseTableField.cs:115-118 | a nullable nvarchar column of 100 bytes shows as "nvarchar(50) NULL" |
| SqlField.VarBinaryMaxExample | TableToCSharpClass/Tools/DatabaseTableField.cs:110-113 | a non-nullable varbinary column of width -1 shows as "varbinary(max) NOT NULL" |
| SqlField.VarCharHalvedExample | TableToCSharpClass/Tools/DatabaseTableField.cs:115-118 | a non-nullable varchar column of width 10 shows as "varchar(5) NOT NULL", so varchar is halved as well |
| SqlField.DecimalExample | TableToCSharpClass/Tools/DatabaseTableField.cs:120-122 | a nullable decimal column with precision 18 and scale 4 shows as "decimal(18, 4) NULL", whatever its width |
| SqlField.UnsupportedTypeDisplayExample | TableToCSharpClass/Tools/DatabaseTableField.cs:106-128 | a type the switch does not know, such as geography, is still displayed: "geography NULL" |
| SqlField.FieldToString | TableToCSharpClass/Tools/DatabaseTableField.cs:28-35 | ToString never throws for a blank type name; otherwise it succeeds exactly when the type maps, and it fails only with the unknown-type ArgumentException |
| SqlField.FieldToStringBlank | TableToCSharpClass/Tools/DatabaseTableField.cs:30-34 | with a blank type name, both type slots show "Unknown" |
| ClassEmitter.FieldLine | TableToCSharpClass/Tools/DatabaseTableHelper.cs:36-37 | a field's line exists exactly when its type name is non-blank and supported; a blank name gives "No data type specified!", an unknown one the message quoting the name; a line reads back into the field's printed C# type and its column name verbatim |
| ClassEmitter.ConvertFieldsToClass | TableToCSharpClass/Tools/DatabaseTableHelper.cs:23-46 | the builder, header, loop and footer produce exactly ClassText: the class text, or the exception of the first field that does not map |
| ClassEmitter.PropertyLinesPerField | TableToCSharpClass/Tools/DatabaseTableHelper.cs:34-39 | the property lines exist exactly when every field maps; there is then one line per field, in order, and line i is field i's line |
| ClassEmitter.ClassTextAllOrNothing | TableToCSharpClass/Tools/DatabaseTableHelper.cs:34-36 | the class is produced exactly when every field's type name is non-blank and supported |
| ClassEmitter.ClassTextFirstFailure | TableToCSharpClass/Tools/DatabaseTableHelper.cs:34-36 | on failure there is a field k such that all fields before it map, field k does not, and the exception is field k's |
| ClassEmitter.ClassLinesLayout | TableToCSharpClass/Tools/DatabaseTableHelper.cs:26-43 | the class has \|fields\| + 8 lines: the six header lines, then the line of field i at position 6 + i, then the two closing lines |
| ClassEmitter.PropertyLinesNoLineBreaks | TableToCSharpClass/Tools/DatabaseTableHelper.cs:36-37 | property lines contain no line break when the column names contain none |
| ClassEmitter.ClassTextSplitsIntoLines | TableToCSharpClass/Tools/DatabaseTableHelper.cs:25-45 | when no name contains a line break, splitting the class text line by line gives back exactly its \|fields\| + 8 lines |
| ClassEmitter.ParsePropertyLineInverse | TableToCSharpClass/Tools/DatabaseTableHelper.cs:37 | a property line for a one-token type name can be read back into that type name and the column name, whatever the column name holds |

## Left out

- The WPF window (MainWindow.xaml.cs) is not part of this model, and neither are the folder and file helpers. They are UI: background tasks, logging, dialogs, and writing the generated file.
- `LoadFields`, `LoadTableNames`, `TruncateTable` and `TruncateTables` of DatabaseTableHelper are not modelled. They run SQL over a live connection. The field list is a parameter of `ConvertFieldsToClass` instead.
- `HelpCreateAndCastToInterface` is not modelled. It uses reflection and `Activator.CreateInstance`, and the conversion core does not use it.
- DotNet.ToLower: lower-cases ASCII letters only. The culture-sensitive `string.ToLower` of .NET is not modelled, so the Turkish dotted I and other non-ASCII case mappings are left out. Every case label of the switch is ASCII.
- `Environment.NewLine` is fixed to "\n". On Windows it is "\r\n".
- `DatabaseTableField.ColumnName` is a plain string. A null column name, which `AppendFormat` would print as empty text, is not modelled.
- DotNet.IntToString: the width, precision and scale are unbounded integers. The 32-bit range of `int` is not modelled; it does not affect any branch of the code.
- DotNet.StringBuilder.Append: takes the already formatted text. `AppendFormat`'s parsing of its format string is not modelled.
- `ConvertFieldsToClass` takes a sequence rather than a `List`. A null list, which would throw before any output, is not modelled.
- `Type` objects are modelled only for the 15 base types that the switch returns, plus `Nullable<T>` over them. Other CLR types never reach `HelpTypeToString` in this code.
