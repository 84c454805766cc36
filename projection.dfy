/**
  `pd.DataFrame([data], columns=feature_names)` in bleeding-risk-predictor.py:
  the one-row frame whose columns are exactly the schema's names, in the
  schema's order. A schema name the record lacks gives a missing value (NaN);
  a record key the schema does not name is dropped.
 */
module Projection {
  import opened Wrappers

  /** A one-row frame: its column names and the single row of cells under them. */
  datatype Frame = Frame(columns: seq<string>, row: seq<Option<real>>)

  /** The cell pandas puts under one column: the record's value, or missing. */
  function Cell(rec: map<string, real>, name: string): (c: Option<real>)
    ensures c.Some? <==> name in rec
    ensures c.Some? ==> c.value == rec[name]
  {
    if name in rec then Some(rec[name]) else None
  }

  /** The frame built from one record, column by column along the schema. */
  function Project(schema: seq<string>, rec: map<string, real>): (f: Frame)
    ensures f.columns == schema
    ensures |f.row| == |schema|
    ensures forall i :: 0 <= i < |schema| ==> f.row[i] == Cell(rec, schema[i])
  {
    if schema == [] then Frame([], [])
    else
      var rest := Project(schema[1..], rec);
      Frame([schema[0]] + rest.columns, [Cell(rec, schema[0])] + rest.row)
  }

  /** Record keys outside the schema never reach the frame: records that agree on the schema's names give the same frame. */
  lemma ProjectIgnoresOtherKeys(schema: seq<string>, rec1: map<string, real>, rec2: map<string, real>)
    requires forall k :: k in schema ==> Cell(rec1, k) == Cell(rec2, k)
    ensures Project(schema, rec1) == Project(schema, rec2)
  {
  }

  /** Projection distributes over splitting the schema: each column is filled on its own. */
  lemma {:induction false} ProjectAppend(s1: seq<string>, s2: seq<string>, rec: map<string, real>)
    ensures Project(s1 + s2, rec).row == Project(s1, rec).row + Project(s2, rec).row
  {
    var whole, left, right := Project(s1 + s2, rec), Project(s1, rec), Project(s2, rec);
    forall i | 0 <= i < |s1| + |s2| ensures whole.row[i] == (left.row + right.row)[i] {
      if i < |s1| {
        assert (s1 + s2)[i] == s1[i];
      } else {
        assert (s1 + s2)[i] == s2[i - |s1|];
      }
    }
  }

  /** Reordering the schema reorders the row the same way: order comes from the schema, not the record. */
  lemma ProjectFollowsSchemaOrder(s1: seq<string>, s2: seq<string>, perm: seq<nat>, rec: map<string, real>)
    requires |perm| == |s2|
    requires forall j :: 0 <= j < |perm| ==> perm[j] < |s1| && s2[j] == s1[perm[j]]
    ensures forall j :: 0 <= j < |s2| ==>
              Project(s2, rec).row[j] == Project(s1, rec).row[perm[j]]
  {
  }

  /** When every schema name is a record key, no cell is missing. */
  lemma ProjectComplete(schema: seq<string>, rec: map<string, real>)
    requires forall k :: k in schema ==> k in rec
    ensures forall i :: 0 <= i < |schema| ==>
              Project(schema, rec).row[i] == Some(rec[schema[i]])
  {
  }
}
