/** The positional-parameter builder the `update` methods share: a list of
    assignments `column = @k` (or `column = NULL`) and the list of values the
    driver binds to `@0`, `@1`, ... */
module SqlParams {
  import opened Common

  /** One entry of `updateFields`. */
  datatype Assignment = Bound(column: string, index: nat) | SetNull(column: string)

  /** What an assignment sets its column to once bound: a value, or NULL. */
  type Binding = (string, Option<SqlValue>)

  /** The number of placeholders in `fs`. */
  function CountBound(fs: seq<Assignment>): (n: nat)
    ensures n <= |fs|
  {
    if fs == [] then 0
    else CountBound(fs[..|fs| - 1]) + (if fs[|fs| - 1].Bound? then 1 else 0)
  }

  /** The numbering the builders produce: each placeholder is numbered by the
      count of placeholders before it. */
  predicate WellNumbered(fs: seq<Assignment>)
  {
    forall i :: 0 <= i < |fs| && fs[i].Bound? ==> fs[i].index == CountBound(fs[..i])
  }

  /** The builder's state `(updateFields, params, paramIndex)` as every step
      leaves it: the placeholders are numbered densely, one per pushed value,
      and `paramIndex` is the number of values pushed. */
  predicate Built(fs: seq<Assignment>, params: seq<SqlValue>, paramIndex: nat)
  {
    WellNumbered(fs) && CountBound(fs) == |params| && paramIndex == |params|
  }

  /** Every placeholder names an existing parameter. */
  predicate InRange(fs: seq<Assignment>, params: seq<SqlValue>)
  {
    forall i :: 0 <= i < |fs| && fs[i].Bound? ==> fs[i].index < |params|
  }

  /** Each column paired with the value its placeholder picks out of `params`. */
  function Resolve(fs: seq<Assignment>, params: seq<SqlValue>): (b: seq<Binding>)
    requires InRange(fs, params)
    ensures |b| == |fs|
    ensures forall i :: 0 <= i < |fs| ==> b[i].0 == fs[i].column
  {
    seq(|fs|, i requires 0 <= i < |fs| =>
      match fs[i]
      case Bound(c, k) => (c, Some(params[k]))
      case SetNull(c) => (c, None))
  }

  lemma {:induction false} CountBoundAppend(fs: seq<Assignment>, a: Assignment)
    ensures CountBound(fs + [a]) == CountBound(fs) + (if a.Bound? then 1 else 0)
  {
    assert (fs + [a])[..|fs|] == fs;
  }

  /** A prefix has no more placeholders than the whole, and a placeholder
      at position `i` makes the count grow past the prefix before it. */
  lemma {:induction false} CountBoundPrefix(fs: seq<Assignment>, i: nat)
    requires i < |fs|
    ensures CountBound(fs[..i]) + (if fs[i].Bound? then 1 else 0) <= CountBound(fs)
    decreases |fs|
  {
    if i < |fs| - 1 {
      var init := fs[..|fs| - 1];
      assert init[..i] == fs[..i] && init[i] == fs[i];
      CountBoundPrefix(init, i);
    } else {
      assert fs[..|fs| - 1] == fs[..i];
    }
  }

  /** Every builder state leaves every placeholder pointing at a pushed value. */
  lemma {:induction false} BuiltInRange(fs: seq<Assignment>, params: seq<SqlValue>, paramIndex: nat)
    requires Built(fs, params, paramIndex)
    ensures InRange(fs, params)
  {
    forall i | 0 <= i < |fs| && fs[i].Bound?
      ensures fs[i].index < |params|
    {
      CountBoundPrefix(fs, i);
    }
  }

  /** Some placeholder of `fs` names parameter `k`. */
  predicate Names(fs: seq<Assignment>, k: nat)
  {
    exists i :: 0 <= i < |fs| && fs[i].Bound? && fs[i].index == k
  }

  /** In a builder state the placeholders and the parameters match one to one:
      no two placeholders name the same parameter, and every parameter is
      named by some placeholder. */
  lemma {:induction false} PlaceholdersOneToOne(fs: seq<Assignment>, params: seq<SqlValue>, paramIndex: nat)
    requires Built(fs, params, paramIndex)
    ensures forall i, j :: 0 <= i < j < |fs| && fs[i].Bound? && fs[j].Bound? ==> fs[i].index < fs[j].index
    ensures forall k :: 0 <= k < |params| ==> Names(fs, k)
    decreases |fs|
  {
    forall i, j | 0 <= i < j < |fs| && fs[i].Bound? && fs[j].Bound?
      ensures fs[i].index < fs[j].index
    {
      var pre := fs[..j];
      assert pre[..i] == fs[..i] && pre[i] == fs[i];
      CountBoundPrefix(pre, i);
    }
    if fs != [] {
      var init := fs[..|fs| - 1];
      var last := fs[|fs| - 1];
      assert fs == init + [last];
      CountBoundAppend(init, last);
      var initParams := params[..CountBound(init)];
      assert WellNumbered(init) by {
        forall i | 0 <= i < |init| && init[i].Bound?
          ensures init[i].index == CountBound(init[..i])
        {
          assert init[..i] == fs[..i];
        }
      }
      PlaceholdersOneToOne(init, initParams, |initParams|);
      forall k | 0 <= k < |params|
        ensures Names(fs, k)
      {
        if k < |initParams| {
          assert Names(init, k);
          var i :| 0 <= i < |init| && init[i].Bound? && init[i].index == k;
          assert fs[i] == init[i];
        } else {
          assert last.Bound? && last.index == CountBound(fs[..|fs| - 1]);
          assert fs[|fs| - 1].index == k;
        }
      }
    }
  }

  /** `updateFields.push(column = @paramIndex); params.push(value); paramIndex++` */
  method PushValue(fs: seq<Assignment>, params: seq<SqlValue>, paramIndex: nat, column: string, value: SqlValue)
    returns (fs': seq<Assignment>, params': seq<SqlValue>, paramIndex': nat)
    requires Built(fs, params, paramIndex)
    ensures Built(fs', params', paramIndex') && InRange(fs', params')
    ensures paramIndex' == paramIndex + 1 && params' == params + [value]
    ensures fs' == fs + [Bound(column, paramIndex)]
    ensures InRange(fs, params) && Resolve(fs', params') == Resolve(fs, params) + [(column, Some(value))]
  {
    BuiltInRange(fs, params, paramIndex);
    fs' := fs + [Bound(column, paramIndex)];
    params' := params + [value];
    paramIndex' := paramIndex + 1;
    CountBoundAppend(fs, Bound(column, paramIndex));
    assert WellNumbered(fs') by {
      forall i | 0 <= i < |fs'| && fs'[i].Bound?
        ensures fs'[i].index == CountBound(fs'[..i])
      {
        if i < |fs| {
          assert fs'[..i] == fs[..i];
        } else {
          assert fs'[..i] == fs;
        }
      }
    }
    BuiltInRange(fs', params', paramIndex');
  }

  /** `updateFields.push(column = NULL)`: no value is pushed. */
  method PushNull(fs: seq<Assignment>, params: seq<SqlValue>, paramIndex: nat, column: string)
    returns (fs': seq<Assignment>)
    requires Built(fs, params, paramIndex)
    ensures Built(fs', params, paramIndex) && InRange(fs', params)
    ensures fs' == fs + [SetNull(column)]
    ensures InRange(fs, params) && Resolve(fs', params) == Resolve(fs, params) + [(column, None)]
  {
    BuiltInRange(fs, params, paramIndex);
    fs' := fs + [SetNull(column)];
    CountBoundAppend(fs, SetNull(column));
    assert WellNumbered(fs') by {
      forall i | 0 <= i < |fs'| && fs'[i].Bound?
        ensures fs'[i].index == CountBound(fs'[..i])
      {
        assert i < |fs| && fs'[..i] == fs[..i];
      }
    }
    BuiltInRange(fs', params, paramIndex);
  }

  /** Parameters pushed after the builder (the id, the user) leave what each
      assignment resolves to unchanged. */
  lemma {:induction false} ResolveExtend(fs: seq<Assignment>, params: seq<SqlValue>, extra: seq<SqlValue>)
    requires InRange(fs, params)
    ensures InRange(fs, params + extra)
    ensures Resolve(fs, params + extra) == Resolve(fs, params)
  {
    assert InRange(fs, params + extra);
    var a := Resolve(fs, params + extra);
    var b := Resolve(fs, params);
    forall i | 0 <= i < |fs|
      ensures a[i] == b[i]
    {
      if fs[i].Bound? {
        assert (params + extra)[fs[i].index] == params[fs[i].index];
      }
    }
  }

  /** `[(column, value)]` when the request gives the field, nothing otherwise. */
  function Given(column: string, value: Option<SqlValue>): (b: seq<Binding>)
    ensures |b| <= 1
  {
    if value.Some? then [(column, value)] else []
  }

  /** `if (dto.field !== undefined) { updateFields.push(column = @paramIndex);
      params.push(value); paramIndex++ }` */
  method PushIfGiven(fs: seq<Assignment>, params: seq<SqlValue>, paramIndex: nat, column: string, value: Option<SqlValue>)
    returns (fs': seq<Assignment>, params': seq<SqlValue>, paramIndex': nat)
    requires Built(fs, params, paramIndex)
    ensures Built(fs', params', paramIndex') && InRange(fs', params')
    ensures |fs'| == |fs| + |Given(column, value)|
    ensures InRange(fs, params) && Resolve(fs', params') == Resolve(fs, params) + Given(column, value)
  {
    BuiltInRange(fs, params, paramIndex);
    if value.Some? {
      fs', params', paramIndex' := PushValue(fs, params, paramIndex, column, value.value);
    } else {
      fs', params', paramIndex' := fs, params, paramIndex;
    }
  }

  function IntValue(v: Option<int>): Option<SqlValue>
  {
    if v.Some? then Some(Int(v.value)) else None
  }

  function DecValue(v: Option<real>): Option<SqlValue>
  {
    if v.Some? then Some(Dec(v.value)) else None
  }

  function TextValue(v: Option<string>): Option<SqlValue>
  {
    if v.Some? then Some(Text(v.value)) else None
  }

  /** `v ? 1 : 0` on a given flag. */
  function BitValue(v: Option<bool>): Option<SqlValue>
  {
    if v.Some? then Some(Int(if v.value then 1 else 0)) else None
  }

  // ---------------------------------------------------------------------
  // What the statements do to a table, whatever its row type

  /** `UPDATE <table> SET <bs> WHERE id = @k`: the rows with that id take the
      assignments (`applySet` runs the list on one row), every other row
      stays as it was. */
  function UpdateWhereId<T>(rows: seq<T>, key: T -> int, id: int, bs: seq<Binding>, applySet: (T, seq<Binding>) -> T): (r: seq<T>)
    ensures |r| == |rows|
    ensures forall i :: 0 <= i < |r| ==> r[i] == if key(rows[i]) == id then applySet(rows[i], bs) else rows[i]
  {
    seq(|rows|, i requires 0 <= i < |rows| =>
      if key(rows[i]) == id then applySet(rows[i], bs) else rows[i])
  }

  /** `DELETE FROM <table> WHERE id = @0`: the table without the rows with
      that id. */
  function DeleteWhereId<T(==,!new)>(rows: seq<T>, key: T -> int, id: int): (r: seq<T>)
    ensures forall x :: x in r <==> x in rows && key(x) != id
    ensures |r| <= |rows|
  {
    if rows == [] then []
    else (if key(rows[0]) == id then [] else [rows[0]]) + DeleteWhereId(rows[1..], key, id)
  }
}
