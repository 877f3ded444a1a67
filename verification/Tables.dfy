/** Small shared vocabulary: optional values, and totals over a table of rows keyed by id. */
module Tables {
  datatype Option<+T> = None | Some(value: T)

  /** The sum of `weight` over every row of a table. */
  ghost function Total<K(!new), V>(rows: map<K, V>, weight: V -> nat): nat
    decreases |rows|
  {
    if |rows| == 0 then 0
    else
      var k := AnyKey(rows);
      weight(rows[k]) + Total(rows - {k}, weight)
  }

  ghost function AnyKey<K(!new), V>(rows: map<K, V>): (k: K)
    requires |rows| > 0
    ensures k in rows
  {
    var k :| k in rows; k
  }

  lemma {:induction false} TotalSplit<K(!new), V>(rows: map<K, V>, weight: V -> nat, k: K)
    requires k in rows
    ensures Total(rows, weight) == weight(rows[k]) + Total(rows - {k}, weight)
    decreases |rows|
  {
    var picked := AnyKey(rows);
    if picked != k {
      var without := rows - {picked};
      TotalSplit(without, weight, k);
      TotalSplit(rows - {k}, weight, picked);
      assert without - {k} == (rows - {k}) - {picked};
    }
  }

  /** Writing one row moves the total by exactly that row's change of weight. */
  lemma {:induction false} TotalWrite<K(!new), V>(rows: map<K, V>, weight: V -> nat, k: K, row: V)
    ensures Total(rows[k := row], weight) + (if k in rows then weight(rows[k]) else 0) ==
            Total(rows, weight) + weight(row)
  {
    hide Total;
    TotalSplit(rows[k := row], weight, k);
    if k in rows {
      TotalSplit(rows, weight, k);
      assert rows[k := row] - {k} == rows - {k};
    } else {
      assert rows[k := row] - {k} == rows;
    }
  }

  /** A table whose rows each weigh no more than the row under the same key elsewhere totals no more. */
  lemma {:induction false} TotalAtMost<K(!new), V, W>(few: map<K, V>, light: V -> nat, many: map<K, W>, heavy: W -> nat)
    requires forall k :: k in few && light(few[k]) > 0 ==> k in many && light(few[k]) <= heavy(many[k])
    ensures Total(few, light) <= Total(many, heavy)
    decreases |few|
  {
    if |few| != 0 {
      var k := AnyKey(few);
      TotalSplit(few, light, k);
      if k in many {
        TotalSplit(many, heavy, k);
        TotalAtMost(few - {k}, light, many - {k}, heavy);
      } else {
        TotalAtMost(few - {k}, light, many, heavy);
      }
    }
  }
}
