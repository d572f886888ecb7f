/**
 * A constant of a SQL expression tree and its rendering as SQL text: an
 * optional pair of parentheses around the value, which is put between double
 * quotes when it is a VarChar. The value is copied verbatim: quotes inside it
 * are not escaped.
 */
module SqlConstant {

  /** A column type; only VarChar is rendered differently, every other type of
      the schema is Other. */
  datatype SqlType = VarChar | Other(code: int)

  datatype Constant = Constant(sqlType: SqlType, value: string)
  {
    /** Where the value starts in the rendered text. */
    function ValueOffset(wrap: bool): nat
    {
      (if wrap then 1 else 0) + (if sqlType == VarChar then 1 else 0)
    }

    /** The constant as SQL text, in parentheses when `wrap` holds. */
    function ToSql(wrap: bool): (out: string)
      ensures |out| == |value| + (if wrap then 2 else 0) + (if sqlType == VarChar then 2 else 0)
      ensures out[ValueOffset(wrap)..ValueOffset(wrap) + |value|] == value
      ensures wrap ==> out[0] == '(' && out[|out| - 1] == ')'
      ensures sqlType == VarChar ==>
        out[ValueOffset(wrap) - 1] == '"' && out[ValueOffset(wrap) + |value|] == '"'
      ensures !wrap && sqlType == VarChar ==> out == "\"" + value + "\""
      ensures !wrap && sqlType != VarChar ==> out == value
    {
      var out := if wrap then "(" else "";
      var out := if sqlType == VarChar then out + "\"" + value + "\"" else out + value;
      if wrap then out + ")" else out
    }
  }

  /** NewConstant: the constant of the given type and value, both stored unchanged. */
  function NewConstant(sqlType: SqlType, value: string): (c: Constant)
    ensures c.sqlType == sqlType && c.value == value
  {
    Constant(sqlType, value)
  }

  /** Wrapping adds exactly one pair of parentheses around the unwrapped text. */
  lemma WrapIsParenthesised(c: Constant)
    ensures c.ToSql(true) == "(" + c.ToSql(false) + ")"
  {
  }

  /** Of two constants of the same type, rendered the same way, the text
      determines the value. */
  lemma ToSqlInjective(c: Constant, d: Constant, wrap: bool)
    requires c.sqlType == d.sqlType
    requires c.ToSql(wrap) == d.ToSql(wrap)
    ensures c.value == d.value
  {
  }

  /** Without escaping, the rendered text does not determine the type: a
      VarChar and an unquoted value that carries its own quotes render alike. */
  lemma QuotesAreNotEscaped()
    ensures Constant(VarChar, "a").ToSql(false) == Constant(Other(0), "\"a\"").ToSql(false)
  {
  }
}
