/** ConvertFieldsToClass of DatabaseTableHelper: the C# class text generated
    for a table's fields. */
module ClassEmitter {
  import opened Wrappers
  import opened DotNet
  import opened ClrTypes
  import opened SqlField

  /** The six lines written before the first property. */
  function Header(className: string, theNamespace: string): seq<string> {
    ["using System;", "", "namespace " + theNamespace, "{", "    public class " + className, "    {"]
  }

  /** The two lines written after the last property. */
  const Footer: seq<string> := ["    }", "}"]

  const PropertyPrefix: string := "        public "
  const PropertySuffix: string := " { get; set; }"

  /** AppendFormat("        public {0} {1} {{ get; set; }}", dataType, columnName) */
  function PropertyLine(dataType: string, columnName: string): string {
    PropertyPrefix + dataType + " " + columnName + PropertySuffix
  }

  /** The property line of one field, or the exception its type mapping
      throws: a line exists exactly when the type name is non-blank and
      supported; otherwise it is the exception of one of the two kinds; and
      a line reads back into the printed C# type and the column name it was
      written from. */
  function FieldLine(field: DatabaseTableField): (r: Result<string, Exception>)
    ensures r.Success? <==> !IsNullOrWhiteSpace(field.dataType) && ToLower(field.dataType.value) in SupportedTypes
    ensures r.Failure? && IsNullOrWhiteSpace(field.dataType) ==> r.error == ArgumentException(NoDataTypeMessage)
    ensures r.Failure? && !IsNullOrWhiteSpace(field.dataType) ==>
      r.error == ArgumentException(UnknownTypeMessage(field.dataType.value))
    ensures r.Success? ==>
      ParsePropertyLine(r.value) == Some((HelpTypeToString(CSharpType(field).value), field.columnName))
  {
    match CSharpType(field)
    case Success(t) =>
      HelpTypeToStringIsToken(t);
      ParsePropertyLineInverse(HelpTypeToString(t), field.columnName);
      Success(PropertyLine(HelpTypeToString(t), field.columnName))
    case Failure(e) => Failure(e)
  }

  /** The property line, or the exception, of each field in turn. */
  function FieldLines(fields: seq<DatabaseTableField>): (rs: seq<Result<string, Exception>>)
    ensures |rs| == |fields|
    ensures forall i :: 0 <= i < |fields| ==> rs[i] == FieldLine(fields[i])
  {
    seq(|fields|, i requires 0 <= i < |fields| => FieldLine(fields[i]))
  }

  /** The property lines of the fields in order; the first field whose type
      cannot be mapped stops the whole list. */
  function PropertyLines(fields: seq<DatabaseTableField>): Result<seq<string>, Exception> {
    Collect(FieldLines(fields))
  }

  /** The lines of the generated class, or the exception that escapes. */
  function ClassLines(fields: seq<DatabaseTableField>, className: string, theNamespace: string): Result<seq<string>, Exception> {
    match PropertyLines(fields)
    case Failure(e) => Failure(e)
    case Success(lines) => Success(Header(className, theNamespace) + lines + Footer)
  }

  /** The generated text: the class lines, each followed by NewLine. */
  function ClassText(fields: seq<DatabaseTableField>, className: string, theNamespace: string): Result<string, Exception> {
    match ClassLines(fields, className, theNamespace)
    case Failure(e) => Failure(e)
    case Success(lines) => Success(JoinLines(lines))
  }

  /** The six header AppendLine calls produce the header. */
  lemma HeaderAppended(className: string, theNamespace: string)
    ensures [] + ["using System;"] + [""] + ["namespace " + theNamespace] + ["{"]
      + ["    public class " + className] + ["    {"] == Header(className, theNamespace)
  {
  }

  /** The two footer AppendLine calls close the class and the namespace. */
  lemma FooterAppended(lines: seq<string>)
    ensures lines + ["    }"] + ["}"] == lines + Footer
  {
  }

  lemma AppendAssociates(a: seq<string>, b: seq<string>, c: seq<string>)
    ensures a + b + c == a + (b + c)
  {
  }

  /** ConvertFieldsToClass: header, one property per field, footer; the
      first unmappable field's exception escapes and no text is returned. */
  method ConvertFieldsToClass(fieldList: seq<DatabaseTableField>, className: string, theNamespace: string)
    returns (r: Result<string, Exception>)
    ensures r == ClassText(fieldList, className, theNamespace)
  {
    ghost var results := FieldLines(fieldList);
    var sb := new StringBuilder();
    sb.AppendLine("using System;");
    sb.AppendLine("");
    sb.AppendLine("namespace " + theNamespace);
    sb.AppendLine("{");

    // Class start
    sb.AppendLine("    public class " + className);
    sb.AppendLine("    {");
    HeaderAppended(className, theNamespace);
    assert results[..0] == [];
    var i := 0;
    while i < |fieldList|
      invariant 0 <= i <= |fieldList|
      invariant sb.Valid() && sb.pending == ""
      invariant Collect(results[..i]).Success?
      invariant sb.lines == Header(className, theNamespace) + Collect(results[..i]).value
    {
      var field := fieldList[i];
      var mapped := CSharpType(field);
      if mapped.Failure? {
        CollectStopsAtFailure(results, i);
        return Failure(mapped.error);
      }
      var dataType := HelpTypeToString(mapped.value);
      sb.Append(PropertyLine(dataType, field.columnName));
      sb.AppendLine("");
      CollectStep(results, i);
      AppendAssociates(Header(className, theNamespace), Collect(results[..i]).value, [results[i].value]);
      i := i + 1;
    }
    assert results[..i] == results;
    sb.AppendLine("    }");
    // Class end

    sb.AppendLine("}");
    FooterAppended(Header(className, theNamespace) + PropertyLines(fieldList).value);
    r := Success(sb.ToString());
  }

  /** PropertyLines succeeds exactly when every field maps, and then gives
      one line per field, in order. */
  lemma PropertyLinesPerField(fields: seq<DatabaseTableField>)
    ensures PropertyLines(fields).Success? <==> forall i :: 0 <= i < |fields| ==> CSharpType(fields[i]).Success?
    ensures PropertyLines(fields).Success? ==>
      |PropertyLines(fields).value| == |fields| &&
      forall i :: 0 <= i < |fields| ==> PropertyLines(fields).value[i] == FieldLine(fields[i]).value
  {
    CollectPerElement(FieldLines(fields));
  }

  /** All or nothing: the class is produced exactly when every field's type
      name is non-blank and supported. */
  lemma ClassTextAllOrNothing(fields: seq<DatabaseTableField>, className: string, theNamespace: string)
    ensures ClassText(fields, className, theNamespace).Success? <==>
      forall i :: 0 <= i < |fields| ==>
        !IsNullOrWhiteSpace(fields[i].dataType) && ToLower(fields[i].dataType.value) in SupportedTypes
  {
    PropertyLinesPerField(fields);
  }

  /** On failure, every field before some field k maps, and the exception
      returned is that of field k. */
  lemma ClassTextFirstFailure(fields: seq<DatabaseTableField>, className: string, theNamespace: string)
    requires ClassText(fields, className, theNamespace).Failure?
    ensures exists k :: (0 <= k < |fields|
      && (forall j :: 0 <= j < k ==> CSharpType(fields[j]).Success?)
      && CSharpType(fields[k]).Failure?
      && ClassText(fields, className, theNamespace) == Failure(CSharpType(fields[k]).error))
  {
    var rs := FieldLines(fields);
    assert Collect(rs).Failure?;
    CollectFailsAtFirstFailure(rs);
    var k :| 0 <= k < |rs| && (forall j :: 0 <= j < k ==> rs[j].Success?) && rs[k].Failure? && Collect(rs) == Failure(rs[k].error);
    assert rs[k] == FieldLine(fields[k]);
    assert CSharpType(fields[k]).Failure?;
    assert ClassText(fields, className, theNamespace) == Failure(CSharpType(fields[k]).error);
  }

  /** The layout of the class: the six header lines, then the property line
      of field i at line 6 + i, then the two closing lines: |fields| + 8 lines. */
  lemma ClassLinesLayout(fields: seq<DatabaseTableField>, className: string, theNamespace: string)
    requires ClassLines(fields, className, theNamespace).Success?
    ensures var lines := ClassLines(fields, className, theNamespace).value;
      |lines| == |fields| + 8
      && lines[..6] == Header(className, theNamespace)
      && lines[|fields| + 6..] == Footer
      && forall i :: 0 <= i < |fields| ==> FieldLine(fields[i]).Success? && lines[6 + i] == FieldLine(fields[i]).value
  {
    var header := Header(className, theNamespace);
    var props := PropertyLines(fields).value;
    var lines := ClassLines(fields, className, theNamespace).value;
    assert lines == header + props + Footer;
    ClassLinesLength(fields, className, theNamespace);
    assert |header| == 6;
    ConcatParts(header, props, Footer);
    forall i | 0 <= i < |fields|
      ensures FieldLine(fields[i]).Success? && lines[6 + i] == FieldLine(fields[i]).value
    {
      PropertyLineAt(fields, i);
    }
  }

  /** Field i's line is line i of the property lines. */
  lemma PropertyLineAt(fields: seq<DatabaseTableField>, i: int)
    requires PropertyLines(fields).Success? && 0 <= i < |fields|
    ensures |PropertyLines(fields).value| == |fields|
    ensures FieldLine(fields[i]).Success? && PropertyLines(fields).value[i] == FieldLine(fields[i]).value
  {
    var rs := FieldLines(fields);
    assert PropertyLines(fields) == Collect(rs);
    CollectAt(rs, i);
  }

  /** A property line breaks no line when its parts do not. */
  lemma PropertyLineNoLineBreak(dataType: string, columnName: string)
    requires IsToken(dataType) && NoLineBreak(columnName)
    ensures NoLineBreak(PropertyLine(dataType, columnName))
  {
    NoLineBreakConcat(PropertyPrefix, dataType);
    NoLineBreakConcat(PropertyPrefix + dataType, " ");
    NoLineBreakConcat(PropertyPrefix + dataType + " ", columnName);
    NoLineBreakConcat(PropertyPrefix + dataType + " " + columnName, PropertySuffix);
  }

  /** The header breaks no line when the names do not. */
  lemma HeaderNoLineBreaks(className: string, theNamespace: string)
    requires NoLineBreak(className) && NoLineBreak(theNamespace)
    ensures NoLineBreaks(Header(className, theNamespace))
  {
    NoLineBreakConcat("namespace ", theNamespace);
    NoLineBreakConcat("    public class ", className);
  }

  /** The property lines break no line when the column names do not. */
  lemma PropertyLinesNoLineBreaks(fields: seq<DatabaseTableField>)
    requires PropertyLines(fields).Success?
    requires forall i :: 0 <= i < |fields| ==> NoLineBreak(fields[i].columnName)
    ensures NoLineBreaks(PropertyLines(fields).value)
  {
    PropertyLinesPerField(fields);
    forall i | 0 <= i < |fields|
      ensures NoLineBreak(PropertyLines(fields).value[i])
    {
      FieldLineNoLineBreak(fields[i]);
    }
  }

  /** Read back line by line, the class text gives back its |fields| + 8
      lines, provided the class, namespace and column names hold no line break. */
  lemma ClassTextSplitsIntoLines(fields: seq<DatabaseTableField>, className: string, theNamespace: string)
    requires ClassText(fields, className, theNamespace).Success?
    requires NoLineBreak(className) && NoLineBreak(theNamespace)
    requires forall i :: 0 <= i < |fields| ==> NoLineBreak(fields[i].columnName)
    ensures SplitLines(ClassText(fields, className, theNamespace).value) == ClassLines(fields, className, theNamespace).value
    ensures |SplitLines(ClassText(fields, className, theNamespace).value)| == |fields| + 8
  {
    var lines := ClassLines(fields, className, theNamespace).value;
    assert ClassText(fields, className, theNamespace).value == JoinLines(lines);
    ClassLinesNoLineBreaks(fields, className, theNamespace);
    SplitJoinLines(lines);
  }

  /** The class lines hold no line break, and there are |fields| + 8 of them. */
  lemma ClassLinesNoLineBreaks(fields: seq<DatabaseTableField>, className: string, theNamespace: string)
    requires ClassLines(fields, className, theNamespace).Success?
    requires NoLineBreak(className) && NoLineBreak(theNamespace)
    requires forall i :: 0 <= i < |fields| ==> NoLineBreak(fields[i].columnName)
    ensures NoLineBreaks(ClassLines(fields, className, theNamespace).value)
    ensures |ClassLines(fields, className, theNamespace).value| == |fields| + 8
  {
    var header := Header(className, theNamespace);
    var props := PropertyLines(fields).value;
    assert ClassLines(fields, className, theNamespace).value == header + props + Footer;
    ClassLinesLength(fields, className, theNamespace);
    HeaderNoLineBreaks(className, theNamespace);
    PropertyLinesNoLineBreaks(fields);
    NoLineBreaksConcat3(header, props, Footer);
  }

  lemma ClassLinesLength(fields: seq<DatabaseTableField>, className: string, theNamespace: string)
    requires ClassLines(fields, className, theNamespace).Success?
    ensures |ClassLines(fields, className, theNamespace).value| == |fields| + 8
  {
    var rs := FieldLines(fields);
    CollectLength(rs);
    assert |Collect(rs).value| == |fields|;
    assert |Header(className, theNamespace)| == 6;
    assert ClassLines(fields, className, theNamespace).value == Header(className, theNamespace) + Collect(rs).value + Footer;
  }

  lemma FieldLineNoLineBreak(field: DatabaseTableField)
    requires FieldLine(field).Success? && NoLineBreak(field.columnName)
    ensures NoLineBreak(FieldLine(field).value)
  {
    HelpTypeToStringIsToken(CSharpType(field).value);
    PropertyLineNoLineBreak(HelpTypeToString(CSharpType(field).value), field.columnName);
  }

  /** The column name appears verbatim: a property line can be read back
      into the type name and the column name it was written from. */
  function ParsePropertyLine(line: string): Option<(string, string)> {
    if |line| >= |PropertyPrefix| + |PropertySuffix|
       && line[..|PropertyPrefix|] == PropertyPrefix
       && line[|line| - |PropertySuffix|..] == PropertySuffix
    then
      var middle := line[|PropertyPrefix|..|line| - |PropertySuffix|];
      var k := IndexOf(middle, ' ');
      if k < |middle| then Some((middle[..k], middle[k + 1..])) else None
    else None
  }

  /** Reading a property line back gives the type name and the column name
      it was written from, whatever characters the column name holds. */
  lemma ParsePropertyLineInverse(dataType: string, columnName: string)
    requires IsToken(dataType)
    ensures ParsePropertyLine(PropertyLine(dataType, columnName)) == Some((dataType, columnName))
  {
    var line := PropertyLine(dataType, columnName);
    var middle := dataType + " " + columnName;
    assert line == PropertyPrefix + middle + PropertySuffix;
    assert line[..|PropertyPrefix|] == PropertyPrefix;
    assert line[|line| - |PropertySuffix|..] == PropertySuffix;
    assert line[|PropertyPrefix|..|line| - |PropertySuffix|] == middle;
    IndexOfAfter(dataType, ' ', columnName);
    assert middle[..|dataType|] == dataType;
    assert middle[|dataType| + 1..] == columnName;
  }

}
