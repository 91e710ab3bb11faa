/**
 Rename tables: the independent description of which payload key each
 normalizer copies to which output key. Each normalizer builds its items with
 a dict literal; its contract says that literal is the projection of the
 payload through the normalizer's table.
 */
module Projection {
  import opened Python

  /** One row of a table: the payload key `input` is written to the output key `output`. */
  datatype FieldMap = FieldMap(input: string, output: string)

  /**
   The dict with one key per row, holding the row's payload field, or None
   when the payload lacks it; a later row overwrites an earlier one with the
   same output key, as in a dict literal.
   */
  function Project(fields: map<string, Json>, table: seq<FieldMap>): map<string, Json>
  {
    if table == [] then map[]
    else
      var m := table[|table| - 1];
      Project(fields, table[..|table| - 1])[m.output := Lookup(fields, m.input)]
  }

  /** Every row's payload key is present: the condition under which `d[input]` for every row raises nothing. */
  predicate HasInputs(fields: map<string, Json>, table: seq<FieldMap>)
  {
    forall m :: m in table ==> m.input in fields
  }

  /**
   Reading the rows' payload keys in table order with `d[input]` raises `e`:
   `e` is a KeyError for the first row whose key is missing.
   */
  ghost predicate FirstMissing(fields: map<string, Json>, table: seq<FieldMap>, e: Exception)
  {
    exists k :: 0 <= k < |table| && e == KeyError(table[k].input) && table[k].input !in fields
      && forall j :: 0 <= j < k ==> table[j].input in fields
  }

  /** The witness for `FirstMissing`: row `k` is the first whose key is missing. */
  lemma FirstMissingAt(fields: map<string, Json>, table: seq<FieldMap>, k: nat)
    requires k < |table| && table[k].input !in fields
    requires forall j :: 0 <= j < k ==> table[j].input in fields
    ensures FirstMissing(fields, table, KeyError(table[k].input))
  {
  }

  /** Projecting through one more row adds (or overwrites) that row's key. */
  lemma ProjectSnoc(fields: map<string, Json>, table: seq<FieldMap>, m: FieldMap)
    ensures Project(fields, table + [m]) == Project(fields, table)[m.output := Lookup(fields, m.input)]
  {
    assert (table + [m])[..|table|] == table;
  }
}
