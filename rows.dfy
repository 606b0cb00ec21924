/**
 * Building one row from a parsed row frame: the `reduce` over the column
 * names that assigns `acc[key] = values[i]` for every index `i`.
 */
module Rows {
  import opened JsValues

  /** One decoded row: column name to value. */
  type Row = map<string, Value>

  /** Every column name converts to a property key without throwing. */
  predicate KeysConvertible(names: seq<Value>) {
    forall k | 0 <= k < |names| :: KeyConvertible(names[k])
  }

  /** The property keys the reducer assigns to, one per column name. */
  function ColumnKeys(names: seq<Value>): (keys: seq<string>)
    requires KeysConvertible(names)
    ensures |keys| == |names|
    ensures forall k | 0 <= k < |names| :: names[k].Str? ==> keys[k] == names[k].s
  {
    seq(|names|, k requires 0 <= k < |names| => KeyOf(names[k]))
  }

  /**
   * The row the reducer has built after its first `|keys|` steps, starting
   * from `{}`. With no column there is no step, so no index is read.
   */
  function RowOf(keys: seq<string>, values: Value): (row: Row)
    requires keys == [] || Readable(values)
    ensures forall key | key in row :: key in keys
    decreases |keys|
  {
    if keys == [] then map[]
    else RowOf(keys[..|keys| - 1], values)[keys[|keys| - 1] := At(values, |keys| - 1)]
  }

  /** The reducer, as the accumulator loop it runs. */
  method BuildRow(keys: seq<string>, values: Value) returns (row: Row)
    requires keys == [] || Readable(values)
    ensures row == RowOf(keys, values)
  {
    row := map[];
    for i := 0 to |keys|
      invariant row == RowOf(keys[..i], values)
    {
      assert keys[..i + 1][..i] == keys[..i];
      row := row[keys[i] := At(values, i)];
    }
    assert keys[..|keys|] == keys;
  }

  /** A row has exactly the column names as its keys. */
  lemma {:induction false} RowOfKeys(keys: seq<string>, values: Value)
    requires keys == [] || Readable(values)
    ensures RowOf(keys, values).Keys == set k | 0 <= k < |keys| :: keys[k]
    decreases |keys|
  {
    if keys != [] {
      var init := keys[..|keys| - 1];
      RowOfKeys(init, values);
      assert forall k | 0 <= k < |init| :: init[k] == keys[k];
      assert (set k | 0 <= k < |keys| :: keys[k])
          == (set k | 0 <= k < |init| :: init[k]) + {keys[|keys| - 1]};
    }
  }

  /**
   * A column holds the value at its index; when a name repeats, the value
   * at its last index wins.
   */
  lemma {:induction false} RowOfValue(keys: seq<string>, values: Value, i: nat)
    requires Readable(values)
    requires i < |keys|
    requires forall j | i < j < |keys| :: keys[j] != keys[i]
    ensures keys[i] in RowOf(keys, values)
    ensures RowOf(keys, values)[keys[i]] == At(values, i)
    decreases |keys|
  {
    if i < |keys| - 1 {
      var init := keys[..|keys| - 1];
      RowOfValue(init, values, i);
    }
  }

  /**
   * For an array row frame: the column at index `i` holds the element at
   * `i`, or `undefined` when the frame is shorter than the column list.
   */
  lemma {:induction false} RowOfArray(keys: seq<string>, items: seq<Value>, i: nat)
    requires i < |keys|
    requires forall j | i < j < |keys| :: keys[j] != keys[i]
    ensures keys[i] in RowOf(keys, Arr(items))
    ensures RowOf(keys, Arr(items))[keys[i]] == if i < |items| then items[i] else Undefined
  {
    RowOfValue(keys, Arr(items), i);
  }

  /** Elements past the last column are never read. */
  lemma {:induction false} RowOfIgnoresExtra(keys: seq<string>, items: seq<Value>)
    requires |keys| <= |items|
    ensures RowOf(keys, Arr(items)) == RowOf(keys, Arr(items[..|keys|]))
    decreases |keys|
  {
    if keys != [] {
      var init := keys[..|keys| - 1];
      RowOfIgnoresExtra(init, items);
      assert items[..|keys|][..|init|] == items[..|init|];
      RowOfIgnoresExtra(init, items[..|keys|]);
    }
  }
}
