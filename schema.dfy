/**
  The example schema: three constant query fields and the `interval`
  subscription, a generator that starts at 0 and adds `n` on every tick.
*/
module Schema {
  import opened Wrappers

  newtype i32 = x: int | -0x8000_0000 <= x < 0x8000_0000
  newtype u8 = x: int | 0 <= x < 0x100

  predicate InI32(x: int)
  {
    -0x8000_0000 <= x < 0x8000_0000
  }

  /** The fields of the query root type. */
  datatype QueryField = FirstName | SecondName | Age

  /** A resolved scalar: a string, or the unsigned byte `age` returns. */
  datatype Scalar = StringValue(s: string) | U8Value(b: u8)

  /** The GraphQL name of a field: the resolver's name in camel case. */
  function FieldName(f: QueryField): (name: string)
    ensures name == "firstName" <==> f == FirstName
    ensures name == "secondName" <==> f == SecondName
    ensures name == "age" <==> f == Age
  {
    match f
    case FirstName => "firstName"
    case SecondName => "secondName"
    case Age => "age"
  }

  /** The field a selection name refers to, if any. */
  function LookupField(name: string): (f: Option<QueryField>)
    ensures f.Some? <==> name in {"firstName", "secondName", "age"}
    ensures f.Some? ==> FieldName(f.value) == name
  {
    if name == "firstName" then Some(FirstName)
    else if name == "secondName" then Some(SecondName)
    else if name == "age" then Some(Age)
    else None
  }

  /** The fixed value each query resolver returns. */
  function Resolve(f: QueryField): (v: Scalar)
    ensures v.U8Value? <==> f == Age
  {
    match f
    case FirstName => StringValue("Matvei")
    case SecondName => StringValue("Golubev")
    case Age => U8Value(28)
  }

  lemma ResolverConstants()
    ensures Resolve(FirstName) == StringValue("Matvei")
    ensures Resolve(SecondName) == StringValue("Golubev")
    ensures Resolve(Age) == U8Value(28)
  {
  }

  /** Selecting a field by its GraphQL name yields that resolver's constant. */
  lemma SelectionResolvesConstant()
    ensures LookupField("firstName").Some? && Resolve(LookupField("firstName").value) == StringValue("Matvei")
    ensures LookupField("secondName").Some? && Resolve(LookupField("secondName").value) == StringValue("Golubev")
    ensures LookupField("age").Some? && Resolve(LookupField("age").value) == U8Value(28)
  {
  }

  /** Field names resolve back to their field, and only the three names resolve. */
  lemma LookupFieldRoundTrip(f: QueryField, name: string)
    ensures LookupField(FieldName(f)) == Some(f)
    ensures LookupField(name).Some? ==> FieldName(LookupField(name).value) == name
  {
  }

  /** The argument `n` of `interval`, which is 1 when the client omits it. */
  function IntervalStep(n: Option<i32>): (step: i32)
    ensures n.None? ==> step == 1
    ensures n.Some? ==> step == n.value
  {
    n.GetOr(1)
  }

  /** The first `k` values `interval` yields: the i-th (1-based) is `i * n`. */
  function IntervalValues(n: int, k: nat): (vs: seq<int>)
    ensures |vs| == k
  {
    seq(k, i => (i + 1) * n)
  }

  /** The state of one running `interval` stream: its step and the last value yielded. */
  class Interval {
    const n: i32
    var value: i32
    ghost var ticks: nat

    ghost predicate Valid()
      reads this
    {
      value as int == ticks * n as int
    }

    constructor (n: Option<i32>)
      ensures Valid()
      ensures this.n == IntervalStep(n)
      ensures value == 0 && ticks == 0
    {
      this.n := IntervalStep(n);
      value := 0;
      ticks := 0;
    }

    /**
      One turn of the generator's endless loop: add `n` and yield the new
      value. The addition is on 32 bits, so it must not overflow.
    */
    method Next() returns (v: i32)
      requires Valid()
      requires InI32(value as int + n as int)
      modifies this
      ensures Valid()
      ensures value as int == old(value) as int + n as int
      ensures ticks == old(ticks) + 1
      ensures v == value && v as int == ticks * n as int
    {
      value := value + n;
      ticks := ticks + 1;
      v := value;
    }
  }

  lemma {:induction false} MulBetween(j: nat, k: nat, n: int)
    requires j <= k
    ensures n >= 0 ==> 0 <= j * n <= k * n
    ensures n < 0 ==> k * n <= j * n <= 0
  {
    if j < k {
      MulBetween(j, k - 1, n);
      assert k * n == (k - 1) * n + n;
    }
  }

  /**
    Runs a fresh `interval` stream for `k` pulls. The stream never ends by
    itself: as long as `k * n` fits in 32 bits, every pull yields a value,
    and the i-th is `i * n`.
  */
  method Pull(n: Option<i32>, k: nat) returns (vs: seq<i32>)
    requires InI32(k * IntervalStep(n) as int)
    ensures |vs| == k
    ensures forall i :: 0 <= i < k ==> vs[i] as int == IntervalValues(IntervalStep(n) as int, k)[i]
  {
    var stream := new Interval(n);
    vs := [];
    while |vs| < k
      invariant stream.Valid() && stream.n == IntervalStep(n)
      invariant stream.ticks == |vs| <= k
      invariant forall i :: 0 <= i < |vs| ==> vs[i] as int == (i + 1) * stream.n as int
    {
      MulBetween(stream.ticks + 1, k, stream.n as int);
      assert (stream.ticks + 1) * stream.n as int == stream.value as int + stream.n as int;
      var v := stream.Next();
      vs := vs + [v];
    }
  }

  /** The scenario of a default `interval`: the first three values are 1, 2, 3. */
  lemma DefaultIntervalStartsOneTwoThree()
    ensures IntervalValues(IntervalStep(None) as int, 3) == [1, 2, 3]
  {
  }

  /** With a positive step the values strictly increase. */
  lemma IntervalIncreasing(n: int, k: nat, i: nat, j: nat)
    requires n > 0 && i < j < k
    ensures IntervalValues(n, k)[i] < IntervalValues(n, k)[j]
  {
    MulBetween(i + 1, j, n);
    assert (j + 1) * n == j * n + n;
  }

  /** With a negative step the values strictly decrease. */
  lemma IntervalDecreasing(n: int, k: nat, i: nat, j: nat)
    requires n < 0 && i < j < k
    ensures IntervalValues(n, k)[i] > IntervalValues(n, k)[j]
  {
    MulBetween(i + 1, j, n);
    assert (j + 1) * n == j * n + n;
  }

  /** With step 0 every value is 0. */
  lemma IntervalZero(k: nat, i: nat)
    requires i < k
    ensures IntervalValues(0, k)[i] == 0
  {
  }
}
