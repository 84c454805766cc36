/**
  The whole of `user_input_features` in bleeding-risk-predictor.py: the form
  becomes the record, and the record becomes the one-row frame laid out by
  the schema that came with the model.
 */
module Assembly {
  import opened Wrappers
  import opened Form
  import opened Record
  import opened Projection

  /** The model-ready frame for one patient under the model's schema. */
  function Assemble(schema: seq<string>, r: RawInput): (f: Frame)
    ensures f.columns == schema && |f.row| == |schema|
  {
    Project(schema, BuildRecord(r))
  }

  /** A schema column that names a feature holds that feature's entry. */
  lemma AssembledCell(schema: seq<string>, r: RawInput, i: nat, f: Feature)
    requires i < |schema| && schema[i] == Name(f)
    ensures Assemble(schema, r).row[i] == Some(Entry(r, f))
  {
  }

  /** A schema column that names no feature is missing. */
  lemma AssembledMissing(schema: seq<string>, r: RawInput, i: nat)
    requires i < |schema| && forall f :: Name(f) != schema[i]
    ensures Assemble(schema, r).row[i] == None
  {
  }

  /** A schema made only of the 28 names gives a frame without missing cells. */
  lemma AssembledComplete(schema: seq<string>, r: RawInput)
    requires forall i :: 0 <= i < |schema| ==> exists f :: Name(f) == schema[i]
    ensures forall i :: 0 <= i < |schema| ==> Assemble(schema, r).row[i].Some?
  {
    forall i | 0 <= i < |schema| ensures Assemble(schema, r).row[i].Some? {
      var f :| Name(f) == schema[i];
      AssembledCell(schema, r, i, f);
    }
  }

  /** One column under the raised PTT: it changes exactly when it is the PTT or the coagulation column. */
  lemma RaisedPttColumn(schema: seq<string>, i: nat)
    requires i < |schema|
    ensures Assemble(schema, Defaults).row[i] != Assemble(schema, Defaults.(pttMax := 45)).row[i] <==>
            schema[i] == Name(PttMax) || schema[i] == Name(CoagulationDysfunction)
  {
    var raised := Defaults.(pttMax := 45);
    if f :| Name(f) == schema[i] {
      AssembledCell(schema, Defaults, i, f);
      AssembledCell(schema, raised, i, f);
      NameInjective(f, PttMax);
      NameInjective(f, CoagulationDysfunction);
      RaisedPttChangesTwoEntries();
      assert Entry(Defaults, f) != Entry(raised, f) <==> f == PttMax || f == CoagulationDysfunction;
    } else {
      AssembledMissing(schema, Defaults, i);
      AssembledMissing(schema, raised, i);
    }
  }

  /** Under any schema, raising the PTT from 35 to 45 changes exactly the "ptt_max" and "coagulation_dysfunction" columns. */
  lemma RaisedPttChangesTwoColumns(schema: seq<string>)
    ensures Name(PttMax) == "ptt_max" && Name(CoagulationDysfunction) == "coagulation_dysfunction"
    ensures forall i :: 0 <= i < |schema| ==>
              (Assemble(schema, Defaults).row[i] != Assemble(schema, Defaults.(pttMax := 45)).row[i] <==>
               schema[i] == Name(PttMax) || schema[i] == Name(CoagulationDysfunction))
  {
    forall i | 0 <= i < |schema|
      ensures Assemble(schema, Defaults).row[i] != Assemble(schema, Defaults.(pttMax := 45)).row[i] <==>
              schema[i] == Name(PttMax) || schema[i] == Name(CoagulationDysfunction)
    {
      RaisedPttColumn(schema, i);
    }
  }
}
