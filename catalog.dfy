/**
 * The dataset's columns as the form sees them: the grouping options offered
 * by the selector and the lookup of the column a histogram plots.
 */
module Catalog {
  import opened Optional

  /** A column: its name, its declared type and its values. */
  datatype Column = Column(name: string, dtype: string, data: seq<real>)

  /** First entry of the grouping options, standing for "no grouping". */
  const NoneOption: string := "<none>"

  predicate IsCategorical(c: Column)
  {
    c.dtype == "categorical"
  }

  /** Names of the categorical columns among `cols[i..]`, in order (filter, then map). */
  function CategoricalNamesFrom(cols: seq<Column>, i: nat): (r: seq<string>)
    requires i <= |cols|
    ensures |r| <= |cols| - i
    decreases |cols| - i
  {
    if i == |cols| then []
    else (if IsCategorical(cols[i]) then [cols[i].name] else []) + CategoricalNamesFrom(cols, i + 1)
  }

  /** Indices of the categorical columns among `cols[i..]`, ascending. */
  function CategoricalIndicesFrom(cols: seq<Column>, i: nat): (p: seq<nat>)
    requires i <= |cols|
    ensures forall k :: 0 <= k < |p| ==> i <= p[k] < |cols| && IsCategorical(cols[p[k]])
    ensures forall k, m :: 0 <= k < m < |p| ==> p[k] < p[m]
    ensures forall j :: i <= j < |cols| && IsCategorical(cols[j]) ==> j in p
    decreases |cols| - i
  {
    if i == |cols| then []
    else (if IsCategorical(cols[i]) then [i] else []) + CategoricalIndicesFrom(cols, i + 1)
  }

  /** The grouping selector's options: `"<none>"` followed by the categorical column names. */
  function CategoricalOptions(cols: seq<Column>): (r: seq<string>)
    ensures |r| >= 1 && r[0] == NoneOption
  {
    [NoneOption] + CategoricalNamesFrom(cols, 0)
  }

  /** Each name in the filtered list is the name of the categorical column at the matching index. */
  lemma {:induction false} NamesMatchIndices(cols: seq<Column>, i: nat)
    requires i <= |cols|
    ensures |CategoricalNamesFrom(cols, i)| == |CategoricalIndicesFrom(cols, i)|
    ensures forall k :: 0 <= k < |CategoricalNamesFrom(cols, i)| ==>
      CategoricalNamesFrom(cols, i)[k] == cols[CategoricalIndicesFrom(cols, i)[k]].name
    decreases |cols| - i
  {
    if i < |cols| {
      NamesMatchIndices(cols, i + 1);
      var names, rest := CategoricalNamesFrom(cols, i), CategoricalNamesFrom(cols, i + 1);
      var idx, restIdx := CategoricalIndicesFrom(cols, i), CategoricalIndicesFrom(cols, i + 1);
      if IsCategorical(cols[i]) {
        assert names == [cols[i].name] + rest && idx == [i] + restIdx;
        forall k | 0 <= k < |names|
          ensures names[k] == cols[idx[k]].name
        {
          if k > 0 {
            assert names[k] == rest[k - 1] && idx[k] == restIdx[k - 1];
          }
        }
      } else {
        assert names == rest && idx == restIdx;
      }
    }
  }

  /**
   * The options are `"<none>"` and then, position by position, the names of
   * exactly the categorical columns in dataset order: `idx` lists every
   * categorical index once, ascending, and nothing else.
   */
  lemma CategoricalOptionsSpec(cols: seq<Column>)
    ensures var r, idx := CategoricalOptions(cols), CategoricalIndicesFrom(cols, 0);
      && |r| == 1 + |idx|
      && (forall k :: 0 <= k < |idx| ==> r[k + 1] == cols[idx[k]].name && IsCategorical(cols[idx[k]]))
      && (forall k, m :: 0 <= k < m < |idx| ==> idx[k] < idx[m])
      && (forall j :: 0 <= j < |cols| && IsCategorical(cols[j]) <==> j in idx)
  {
    var r, names, idx := CategoricalOptions(cols), CategoricalNamesFrom(cols, 0), CategoricalIndicesFrom(cols, 0);
    NamesMatchIndices(cols, 0);
    assert r[1..] == names;
    forall k | 0 <= k < |idx|
      ensures r[k + 1] == cols[idx[k]].name
    {
      assert r[k + 1] == names[k];
    }
    forall j | j in idx
      ensures 0 <= j < |cols| && IsCategorical(cols[j])
    {
      var k :| 0 <= k < |idx| && idx[k] == j;
    }
  }

  /** `findIndex` of the first column named `name` among `cols[i..]`, or `None`. */
  function FindColumnFrom(cols: seq<Column>, name: string, i: nat): (r: Option<nat>)
    requires i <= |cols|
    ensures r.None? <==> forall j :: i <= j < |cols| ==> cols[j].name != name
    ensures r.Some? ==> (i <= r.value < |cols| && cols[r.value].name == name
                         && forall j :: i <= j < r.value ==> cols[j].name != name)
    decreases |cols| - i
  {
    if i == |cols| then None
    else if cols[i].name == name then Some(i)
    else FindColumnFrom(cols, name, i + 1)
  }

  /** Index of the first column named `name`, or `None` when no column has that name. */
  function FindColumn(cols: seq<Column>, name: string): (r: Option<nat>)
    ensures r.None? <==> forall j :: 0 <= j < |cols| ==> cols[j].name != name
    ensures r.Some? ==> (r.value < |cols| && cols[r.value].name == name
                         && forall j :: 0 <= j < r.value ==> cols[j].name != name)
  {
    FindColumnFrom(cols, name, 0)
  }
}
