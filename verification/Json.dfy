/**
  Decoded JSON values, as the providers' responses carry them, and the
  conversion `np.array(vectors)` makes of a list of numeric lists.
 */
module Json {
  import opened Wrappers
  import opened Vectors

  datatype Json =
    | Null
    | Bool(b: bool)
    | Num(n: real)
    | Str(s: string)
    | Arr(items: seq<Json>)
    | Obj(fields: map<string, Json>)

  /** Python's truth value of the decoded value (`if not x:`). */
  predicate Truthy(j: Json) {
    match j
    case Null => false
    case Bool(b) => b
    case Num(n) => n != 0.0
    case Str(s) => s != ""
    case Arr(items) => items != []
    case Obj(fields) => fields != map[]
  }

  /** A list of numbers. */
  predicate IsVector(j: Json) {
    j.Arr? && forall k :: 0 <= k < |j.items| ==> j.items[k].Num?
  }

  function FromVector(v: Vector): (j: Json)
    ensures IsVector(j) && |j.items| == |v|
    ensures forall k :: 0 <= k < |v| ==> j.items[k] == Num(v[k])
  {
    Arr(seq(|v|, k requires 0 <= k < |v| => Num(v[k])))
  }

  /** A list of vectors, as every provider's result is expected to be. */
  function FromBatch(b: seq<Vector>): (j: Json)
    ensures j.Arr? && |j.items| == |b|
    ensures forall i :: 0 <= i < |b| ==> j.items[i] == FromVector(b[i])
  {
    Arr(seq(|b|, i requires 0 <= i < |b| => FromVector(b[i])))
  }

  /** The vectors a list of numeric lists stands for; `None` for any other value. */
  function AsBatch(j: Json): (r: Option<seq<Vector>>)
    ensures r.Some? <==> j.Arr? && forall i :: 0 <= i < |j.items| ==> IsVector(j.items[i])
  {
    if j.Arr? && forall i :: 0 <= i < |j.items| ==> IsVector(j.items[i]) then
      Some(seq(|j.items|, i requires 0 <= i < |j.items| =>
        var row := j.items[i].items;
        seq(|row|, k requires 0 <= k < |row| => row[k].n)))
    else None
  }

  /** Encoding a batch and reading it back gives the batch. */
  lemma AsBatchFromBatch(b: seq<Vector>)
    ensures AsBatch(FromBatch(b)) == Some(b)
  {
    var j := FromBatch(b);
    assert forall i :: 0 <= i < |j.items| ==> IsVector(j.items[i]);
    var r := AsBatch(j).value;
    assert |r| == |b|;
    forall i | 0 <= i < |b| ensures r[i] == b[i] {
      var row := j.items[i].items;
      assert |row| == |b[i]|;
      assert r[i] == seq(|row|, k requires 0 <= k < |row| => row[k].n);
      forall k | 0 <= k < |row| ensures r[i][k] == b[i][k] {
        assert row[k] == Num(b[i][k]);
      }
    }
    assert r == b;
  }

  /** A value that reads as a batch is exactly that batch's encoding. */
  lemma FromBatchAsBatch(j: Json)
    requires AsBatch(j).Some?
    ensures FromBatch(AsBatch(j).value) == j
  {
    var b := AsBatch(j).value;
    var e := FromBatch(b);
    assert |e.items| == |j.items|;
    forall i | 0 <= i < |j.items| ensures e.items[i] == j.items[i] {
      var row := j.items[i].items;
      assert |e.items[i].items| == |row|;
      forall k | 0 <= k < |row| ensures e.items[i].items[k] == row[k] {
        assert row[k].Num?;
      }
    }
  }
}
