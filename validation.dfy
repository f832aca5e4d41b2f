/**
 * `validate_columns_exist`: the columns a plot needs that the data frame
 * lacks, and the ValueError listing them.
 */
module ColumnValidation {
  import opened Values
  import opened Figures

  /** `[col for col in required if col not in columns]`. */
  function Missing(columns: seq<string>, required: seq<string>): (m: seq<string>)
    ensures forall c :: c in m <==> c in required && c !in columns
    ensures |m| <= |required|
    decreases |required|
  {
    if required == [] then []
    else (if required[0] in columns then [] else [required[0]]) + Missing(columns, required[1..])
  }

  /**
   * The filter keeps request order: the missing columns of a concatenation
   * are those of the first part followed by those of the second.
   */
  lemma {:induction false} MissingAppend(columns: seq<string>, a: seq<string>, b: seq<string>)
    ensures Missing(columns, a + b) == Missing(columns, a) + Missing(columns, b)
    decreases |a|
  {
    if a != [] {
      assert (a + b)[1..] == a[1..] + b;
      MissingAppend(columns, a[1..], b);
    } else {
      assert a + b == b;
    }
  }

  /** Duplicates are preserved: a missing column occurs as often as it was requested. */
  lemma {:induction false} MissingCounts(columns: seq<string>, required: seq<string>, c: string)
    ensures c !in columns ==> multiset(Missing(columns, required))[c] == multiset(required)[c]
    ensures c in columns ==> multiset(Missing(columns, required))[c] == 0
    decreases |required|
  {
    if required != [] {
      MissingCounts(columns, required[1..], c);
      assert required == [required[0]] + required[1..];
    }
  }

  /** Nothing is missing exactly when every requested column is in the frame. */
  lemma MissingIsEmptyIff(columns: seq<string>, required: seq<string>)
    ensures Missing(columns, required) == [] <==> forall c :: c in required ==> c in columns
  {
    if Missing(columns, required) != [] {
      assert Missing(columns, required)[0] in Missing(columns, required);
    }
  }

  /** Python's `str(list)` of a list of strings: `['a', 'b']`. */
  function ListRepr(items: seq<string>): string {
    "[" + Items(items) + "]"
  }

  function Items(items: seq<string>): string {
    if items == [] then ""
    else if |items| == 1 then "'" + items[0] + "'"
    else "'" + items[0] + "', " + Items(items[1..])
  }

  datatype ColumnError = ValueError(message: string)

  const MissingPrefix := "The following required columns are missing from the data: "

  /**
   * `validate_columns_exist(df, required)`: raises exactly when some
   * requested column is absent, with the list of the missing ones.
   */
  function ValidateColumnsExist(df: Frame, required: seq<string>): (r: Result<(), ColumnError>)
    ensures r.Err? <==> exists c :: c in required && c !in df.columns
    ensures r.Err? ==> r.error.message == MissingPrefix + ListRepr(Missing(df.columns, required))
  {
    MissingIsEmptyIff(df.columns, required);
    var missing := Missing(df.columns, required);
    if missing != [] then Err(ValueError(MissingPrefix + ListRepr(missing))) else Ok(())
  }

  /** An empty list of required columns always passes. */
  lemma NothingRequired(df: Frame)
    ensures ValidateColumnsExist(df, []) == Ok(())
  {
  }

  /** Asking for more columns never turns a failure into a success. */
  lemma MoreColumnsStillFail(df: Frame, a: seq<string>, b: seq<string>)
    requires ValidateColumnsExist(df, a).Err?
    ensures ValidateColumnsExist(df, a + b).Err?
    ensures ValidateColumnsExist(df, b + a).Err?
  {
    var c :| c in a && c !in df.columns;
    assert c in a + b && c in b + a;
  }
}
