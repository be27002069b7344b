/** The NumPy operations on one-dimensional arrays that the margin analyser
    is built from: element-wise binary operations with broadcasting,
    np.full_like, and the reductions np.min and np.argmin. Array elements are
    exact reals; the exceptions NumPy and Python raise on these paths are
    the Err cases of Result. */
module NdArray {

  /** The exceptions the analyser can run into. */
  datatype Error =
    | ShapeMismatch(left: nat, right: nat)     // operands of lengths left and right do not broadcast
    | EmptyReduction                            // np.min or np.argmin of an empty array
    | IndexOutOfRange(index: nat, length: nat)  // a list indexed past its end

  datatype Result<T> = Ok(value: T) | Err(error: Error) {
    predicate IsFailure() { Err? }

    function PropagateFailure<U>(): Result<U>
      requires Err?
    {
      Err(error)
    }

    function Extract(): T
      requires Ok?
    {
      value
    }
  }

  /** Two one-dimensional shapes broadcast when they are equal or one of them is 1. */
  predicate Broadcastable(m: nat, n: nat) {
    m == n || m == 1 || n == 1
  }

  /** The length of the result of broadcasting lengths m and n. */
  function BroadcastLength(m: nat, n: nat): (len: nat)
    requires Broadcastable(m, n)
    ensures m == n ==> len == m
    ensures m == 1 ==> len == n
    ensures n == 1 ==> len == m
  {
    if m == 1 then n else m
  }

  /** Index i of a broadcast result reads an element of a: either a has that
      index, or a has one element, which is stretched to every index. */
  predicate Covers(a: seq<real>, i: nat) {
    |a| == 1 || i < |a|
  }

  /** The element of a that a broadcast operation reads at result index i. */
  function Stretch(a: seq<real>, i: nat): real
    requires Covers(a, i)
  {
    if |a| == 1 then a[0] else a[i]
  }

  /** The two element-wise operations the analyser uses: `a - b` and `np.minimum(a, b)`. */
  datatype BinaryOp = Subtract | Minimum

  function Apply(op: BinaryOp, p: real, q: real): (r: real)
    ensures op.Subtract? ==> r + q == p
    ensures op.Minimum? ==> r <= p && r <= q && (r == p || r == q)
  {
    match op
    case Subtract => p - q
    case Minimum => if p <= q then p else q
  }

  /** An element-wise binary operation on two arrays, broadcasting a
      length-1 operand; operands that do not broadcast raise. */
  function Ufunc(op: BinaryOp, a: seq<real>, b: seq<real>): (r: Result<seq<real>>)
    ensures r.Ok? <==> Broadcastable(|a|, |b|)
    ensures r.Err? ==> r.error == ShapeMismatch(|a|, |b|)
    ensures r.Ok? ==> |r.value| == BroadcastLength(|a|, |b|)
    ensures r.Ok? ==> forall i :: 0 <= i < |r.value| ==>
                        Covers(a, i) && Covers(b, i) && r.value[i] == Apply(op, Stretch(a, i), Stretch(b, i))
  {
    if Broadcastable(|a|, |b|) then
      var n := BroadcastLength(|a|, |b|);
      Ok(seq(n, i requires 0 <= i < n => Apply(op, Stretch(a, i), Stretch(b, i))))
    else
      Err(ShapeMismatch(|a|, |b|))
  }

  /** np.full_like: an array of n copies of c. */
  function Full(n: nat, c: real): (r: seq<real>)
    ensures |r| == n
    ensures forall i :: 0 <= i < n ==> r[i] == c
  {
    seq(n, _ => c)
  }

  /** On arrays of the same length, broadcasting does nothing: the result is
      the operation applied index by index. */
  lemma UfuncAligned(op: BinaryOp, a: seq<real>, b: seq<real>)
    requires |a| == |b|
    ensures Ufunc(op, a, b).Ok?
    ensures |Ufunc(op, a, b).value| == |a|
    ensures forall i :: 0 <= i < |a| ==> Ufunc(op, a, b).value[i] == Apply(op, a[i], b[i])
  {
  }

  /** A one-element operand is broadcast: it gives the same result as an
      operand that repeats that element along the other operand, on either side. */
  lemma UfuncStretchesSingleton(op: BinaryOp, a: seq<real>, c: real)
    ensures Ufunc(op, a, [c]) == Ufunc(op, a, Full(|a|, c))
    ensures Ufunc(op, [c], a) == Ufunc(op, Full(|a|, c), a)
  {
    var right, rightFull := Ufunc(op, a, [c]), Ufunc(op, a, Full(|a|, c));
    assert |right.value| == |rightFull.value|;
    forall i | 0 <= i < |right.value| ensures right.value[i] == rightFull.value[i] {
    }
    assert right.value == rightFull.value;
    var left, leftFull := Ufunc(op, [c], a), Ufunc(op, Full(|a|, c), a);
    assert |left.value| == |leftFull.value|;
    forall i | 0 <= i < |left.value| ensures left.value[i] == leftFull.value[i] {
    }
    assert left.value == leftFull.value;
  }

  /** k is where np.argmin stops: an index of a smallest element, and the
      first one, so that every earlier element is strictly larger. */
  predicate IsFirstMinIndex(a: seq<real>, k: nat) {
    && k < |a|
    && (forall i :: 0 <= i < |a| ==> a[k] <= a[i])
    && (forall i :: 0 <= i < k ==> a[k] < a[i])
  }

  /** The smallest element of a non-empty array. */
  function MinOf(a: seq<real>): (m: real)
    requires |a| > 0
    ensures m in a
    ensures forall i :: 0 <= i < |a| ==> m <= a[i]
  {
    if |a| == 1 then a[0]
    else
      var rest := MinOf(a[1..]);
      if a[0] <= rest then a[0] else rest
  }

  /** The index of the first smallest element of a non-empty array. */
  function ArgMinOf(a: seq<real>): (k: nat)
    requires |a| > 0
    ensures IsFirstMinIndex(a, k)
  {
    if |a| == 1 then 0
    else
      var k := ArgMinOf(a[1..]) + 1;
      if a[0] <= a[k] then 0 else k
  }

  /** IsFirstMinIndex singles out one index: ArgMinOf's. Together with
      ArgMinOf's contract this says ties go to the lowest index. */
  lemma ArgMinCharacterization(a: seq<real>, k: nat)
    requires |a| > 0
    ensures IsFirstMinIndex(a, k) <==> k == ArgMinOf(a)
  {
  }

  /** The element np.argmin points at is the one np.min returns. */
  lemma MinAtArgMin(a: seq<real>)
    requires |a| > 0
    ensures a[ArgMinOf(a)] == MinOf(a)
  {
  }

  /** np.min: the smallest element, raising on an empty array. */
  function Min(a: seq<real>): (r: Result<real>)
    ensures r.Err? <==> |a| == 0
    ensures r.Err? ==> r.error == EmptyReduction
    ensures r.Ok? ==> r.value in a && forall i :: 0 <= i < |a| ==> r.value <= a[i]
  {
    if |a| == 0 then Err(EmptyReduction) else Ok(MinOf(a))
  }

  /** np.argmin: the first index of a smallest element, raising on an empty array. */
  function ArgMin(a: seq<real>): (r: Result<nat>)
    ensures r.Err? <==> |a| == 0
    ensures r.Err? ==> r.error == EmptyReduction
    ensures r.Ok? ==> IsFirstMinIndex(a, r.value)
  {
    if |a| == 0 then Err(EmptyReduction) else Ok(ArgMinOf(a))
  }
}
