/**
  Reverse lookup in a label table: an ordered list of (key, label) pairs,
  read in the insertion order of the dictionary it stands for. The handlers
  scan such a table and stop at the first entry whose label equals the
  user's text exactly (no trimming, no case folding).
 */
module Labels {
  import opened Wrappers

  type Table = seq<(string, string)>

  /** No two entries of the table carry the same label. */
  predicate DistinctLabels(table: Table) {
    forall i, j :: 0 <= i < j < |table| ==> table[i].1 != table[j].1
  }

  /** The key of the first entry whose label is exactly `text`, if any. */
  function FirstKey(table: Table, text: string): (r: Option<string>)
    ensures r.None? <==> forall i :: 0 <= i < |table| ==> table[i].1 != text
    ensures r.Some? ==> exists i :: 0 <= i < |table| && table[i] == (r.value, text) &&
                                    forall j :: 0 <= j < i ==> table[j].1 != text
  {
    if table == [] then None
    else if table[0].1 == text then Some(table[0].0)
    else
      var r := FirstKey(table[1..], text);
      if r.Some? then
        ghost var i :| 0 <= i < |table| - 1 && table[1..][i] == (r.value, text) &&
                       forall j :: 0 <= j < i ==> table[1..][j].1 != text;
        assert table[i + 1] == (r.value, text);
        r
      else r
  }

  /** The scanning loop of the handlers: walk the entries in order and stop at the first match. */
  method FindKey(table: Table, text: string) returns (key: Option<string>)
    ensures key == FirstKey(table, text)
  {
    key := None;
    var i := 0;
    while i < |table|
      invariant 0 <= i <= |table|
      invariant key == None
      invariant FirstKey(table, text) == FirstKey(table[i..], text)
    {
      if table[i].1 == text {
        key := Some(table[i].0);
        break;
      }
      assert table[i..][1..] == table[i + 1..];
      i := i + 1;
    }
  }

  /** With distinct labels, the first match is the only match: the lookup yields `k` exactly when `(k, text)` is an entry. */
  lemma FirstKeyIsEntry(table: Table, text: string, k: string)
    requires DistinctLabels(table)
    ensures FirstKey(table, text) == Some(k) <==> (k, text) in table
  {
    if (k, text) in table {
      var m :| 0 <= m < |table| && table[m] == (k, text);
      var r := FirstKey(table, text);
      var i :| 0 <= i < |table| && table[i] == (r.value, text) &&
               forall j :: 0 <= j < i ==> table[j].1 != text;
      assert i == m;
    }
  }

  /** A reply keyboard offering the labels of the table, one button per row, in table order. */
  function KeyboardRows(table: Table): (rows: seq<seq<string>>)
    ensures |rows| == |table|
    ensures forall i :: 0 <= i < |table| ==> rows[i] == [table[i].1]
  {
    seq(|table|, i requires 0 <= i < |table| => [table[i].1])
  }
}
