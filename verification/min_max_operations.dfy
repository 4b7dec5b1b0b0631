/** Scans over word16 / word32 sample buffers: the largest magnitude, the
    largest and smallest value, and the first index at which they occur.

    A C buffer is a nullable array together with the length the caller
    passes.  A NULL buffer or a length <= 0 makes each scan return its
    sentinel without reading the buffer; otherwise the caller promises
    that the buffer holds at least `length` samples.  No scan writes to
    the buffer (none of the methods has a modifies clause). */
module MinMaxOperations {

  newtype int16 = x: int | -0x8000 <= x < 0x8000
  newtype int32 = x: int | -0x8000_0000 <= x < 0x8000_0000

  const WORD16_MAX: int16 := 0x7fff
  const WORD16_MIN: int16 := -0x8000
  const WORD32_MAX: int32 := 0x7fff_ffff
  const WORD32_MIN: int32 := -0x8000_0000

  /** Mathematical absolute value (no wrap-around at the most negative sample). */
  function Abs(x: int): nat
  {
    if x < 0 then -x else x
  }

  function Min(a: int, b: int): int
  {
    if a < b then a else b
  }

  /** The buffer is NULL or the length is not positive: the scan returns its sentinel. */
  predicate NoInput<T>(vector: array?<T>, length: int)
  {
    vector == null || length <= 0
  }

  /** What C callers must guarantee: a non-NULL buffer holds `length` samples. */
  predicate Readable<T>(vector: array?<T>, length: int)
  {
    vector != null && length > 0 ==> length <= vector.Length
  }

  // ---------------------------------------------------------------------
  // Largest magnitude, saturated to the positive range of the result type
  // ---------------------------------------------------------------------

  method MaxAbsValueW16(vector: array?<int16>, length: int) returns (r: int16)
    requires Readable(vector, length)
    ensures NoInput(vector, length) ==> r == -1
    ensures !NoInput(vector, length) ==>
      && 0 <= r <= WORD16_MAX
      && (exists i :: 0 <= i < length && r as int == Min(Abs(vector[i] as int), WORD16_MAX as int))
      && (forall i :: 0 <= i < length ==> Min(Abs(vector[i] as int), WORD16_MAX as int) <= r as int)
  {
    if vector == null || length <= 0 {
      return -1;
    }
    var i, maximum := 0, 0;
    ghost var w := 0;  // a sample whose magnitude is the running maximum
    while i < length
      invariant 0 <= i <= length
      invariant 0 <= maximum
      invariant forall j :: 0 <= j < i ==> Abs(vector[j] as int) <= maximum
      invariant i == 0 ==> w == 0 && maximum == 0
      invariant 0 < i ==> 0 <= w < i && Abs(vector[w] as int) == maximum
    {
      var absolute := Abs(vector[i] as int);
      if absolute > maximum {
        maximum := absolute;
        w := i;
      }
      i := i + 1;
    }
    // abs(-32768) does not fit a word16: saturate it.
    if maximum > WORD16_MAX as int {
      maximum := WORD16_MAX as int;
    }
    r := maximum as int16;
  }

  method MaxAbsValueW32(vector: array?<int32>, length: int) returns (r: int32)
    requires Readable(vector, length)
    ensures NoInput(vector, length) ==> r == -1
    ensures !NoInput(vector, length) ==>
      && 0 <= r <= WORD32_MAX
      && (exists i :: 0 <= i < length && r as int == Min(Abs(vector[i] as int), WORD32_MAX as int))
      && (forall i :: 0 <= i < length ==> Min(Abs(vector[i] as int), WORD32_MAX as int) <= r as int)
  {
    if vector == null || length <= 0 {
      return -1;
    }
    var i := 0;
    var maximum: nat := 0;
    ghost var w := 0;  // a sample whose magnitude is the running maximum
    while i < length
      invariant 0 <= i <= length
      invariant forall j :: 0 <= j < i ==> Abs(vector[j] as int) <= maximum
      invariant i == 0 ==> w == 0 && maximum == 0
      invariant 0 < i ==> 0 <= w < i && Abs(vector[w] as int) == maximum
    {
      var absolute := Abs(vector[i] as int);
      if absolute > maximum {
        maximum := absolute;
        w := i;
      }
      i := i + 1;
    }
    maximum := Min(maximum, WORD32_MAX as int);
    r := maximum as int32;
  }

  // ---------------------------------------------------------------------
  // Largest and smallest value
  // ---------------------------------------------------------------------

  method MaxValueW16(vector: array?<int16>, length: int) returns (maximum: int16)
    requires Readable(vector, length)
    ensures NoInput(vector, length) ==> maximum == WORD16_MIN
    ensures !NoInput(vector, length) ==>
      && (exists i :: 0 <= i < length && vector[i] == maximum)
      && (forall i :: 0 <= i < length ==> vector[i] <= maximum)
  {
    maximum := WORD16_MIN;
    if vector == null || length <= 0 {
      return;
    }
    var i := 0;
    while i < length
      invariant 0 <= i <= length
      invariant forall j :: 0 <= j < i ==> vector[j] <= maximum
      invariant maximum == WORD16_MIN || exists j :: 0 <= j < i && vector[j] == maximum
    {
      if vector[i] > maximum {
        maximum := vector[i];
      }
      i := i + 1;
    }
    assert vector[0] <= maximum;
  }

  method MaxValueW32(vector: array?<int32>, length: int) returns (maximum: int32)
    requires Readable(vector, length)
    ensures NoInput(vector, length) ==> maximum == WORD32_MIN
    ensures !NoInput(vector, length) ==>
      && (exists i :: 0 <= i < length && vector[i] == maximum)
      && (forall i :: 0 <= i < length ==> vector[i] <= maximum)
  {
    maximum := WORD32_MIN;
    if vector == null || length <= 0 {
      return;
    }
    var i := 0;
    while i < length
      invariant 0 <= i <= length
      invariant forall j :: 0 <= j < i ==> vector[j] <= maximum
      invariant maximum == WORD32_MIN || exists j :: 0 <= j < i && vector[j] == maximum
    {
      if vector[i] > maximum {
        maximum := vector[i];
      }
      i := i + 1;
    }
    assert vector[0] <= maximum;
  }

  method MinValueW16(vector: array?<int16>, length: int) returns (minimum: int16)
    requires Readable(vector, length)
    ensures NoInput(vector, length) ==> minimum == WORD16_MAX
    ensures !NoInput(vector, length) ==>
      && (exists i :: 0 <= i < length && vector[i] == minimum)
      && (forall i :: 0 <= i < length ==> minimum <= vector[i])
  {
    minimum := WORD16_MAX;
    if vector == null || length <= 0 {
      return;
    }
    var i := 0;
    while i < length
      invariant 0 <= i <= length
      invariant forall j :: 0 <= j < i ==> minimum <= vector[j]
      invariant minimum == WORD16_MAX || exists j :: 0 <= j < i && vector[j] == minimum
    {
      if vector[i] < minimum {
        minimum := vector[i];
      }
      i := i + 1;
    }
    assert minimum <= vector[0];
  }

  method MinValueW32(vector: array?<int32>, length: int) returns (minimum: int32)
    requires Readable(vector, length)
    ensures NoInput(vector, length) ==> minimum == WORD32_MAX
    ensures !NoInput(vector, length) ==>
      && (exists i :: 0 <= i < length && vector[i] == minimum)
      && (forall i :: 0 <= i < length ==> minimum <= vector[i])
  {
    minimum := WORD32_MAX;
    if vector == null || length <= 0 {
      return;
    }
    var i := 0;
    while i < length
      invariant 0 <= i <= length
      invariant forall j :: 0 <= j < i ==> minimum <= vector[j]
      invariant minimum == WORD32_MAX || exists j :: 0 <= j < i && vector[j] == minimum
    {
      if vector[i] < minimum {
        minimum := vector[i];
      }
      i := i + 1;
    }
    assert minimum <= vector[0];
  }

  // ---------------------------------------------------------------------
  // First index of the extreme value
  // ---------------------------------------------------------------------

  /** The magnitude is compared without saturation, so -32768 beats 32767. */
  method MaxAbsIndexW16(vector: array?<int16>, length: int) returns (index: int)
    requires Readable(vector, length)
    ensures NoInput(vector, length) ==> index == -1
    ensures !NoInput(vector, length) ==>
      && 0 <= index < length
      && (forall j :: 0 <= j < length ==> Abs(vector[j] as int) <= Abs(vector[index] as int))
      && (forall j :: 0 <= j < index ==> Abs(vector[j] as int) < Abs(vector[index] as int))
  {
    if vector == null || length <= 0 {
      return -1;
    }
    var i, maximum := 0, 0;
    index := 0;
    while i < length
      invariant 0 <= i <= length
      invariant 0 <= index < length
      invariant i == 0 ==> index == 0 && maximum == 0
      invariant 0 < i ==> index < i && maximum == Abs(vector[index] as int)
      invariant forall j :: 0 <= j < i ==> Abs(vector[j] as int) <= maximum
      invariant forall j :: 0 <= j < index ==> Abs(vector[j] as int) < maximum
    {
      var absolute := Abs(vector[i] as int);
      if absolute > maximum {
        maximum := absolute;
        index := i;
      }
      i := i + 1;
    }
  }

  method MaxIndexW16(vector: array?<int16>, length: int) returns (index: int)
    requires Readable(vector, length)
    ensures NoInput(vector, length) ==> index == -1
    ensures !NoInput(vector, length) ==>
      && 0 <= index < length
      && (forall j :: 0 <= j < length ==> vector[j] <= vector[index])
      && (forall j :: 0 <= j < index ==> vector[j] < vector[index])
  {
    if vector == null || length <= 0 {
      return -1;
    }
    var i := 0;
    var maximum := WORD16_MIN;
    index := 0;
    while i < length
      invariant 0 <= i <= length
      invariant 0 <= index < length
      invariant i == 0 ==> index == 0 && maximum == WORD16_MIN
      invariant 0 < i ==> index < i && maximum == vector[index]
      invariant forall j :: 0 <= j < i ==> vector[j] <= maximum
      invariant forall j :: 0 <= j < index ==> vector[j] < maximum
    {
      if vector[i] > maximum {
        maximum := vector[i];
        index := i;
      }
      i := i + 1;
    }
  }

  method MaxIndexW32(vector: array?<int32>, length: int) returns (index: int)
    requires Readable(vector, length)
    ensures NoInput(vector, length) ==> index == -1
    ensures !NoInput(vector, length) ==>
      && 0 <= index < length
      && (forall j :: 0 <= j < length ==> vector[j] <= vector[index])
      && (forall j :: 0 <= j < index ==> vector[j] < vector[index])
  {
    if vector == null || length <= 0 {
      return -1;
    }
    var i := 0;
    var maximum := WORD32_MIN;
    index := 0;
    while i < length
      invariant 0 <= i <= length
      invariant 0 <= index < length
      invariant i == 0 ==> index == 0 && maximum == WORD32_MIN
      invariant 0 < i ==> index < i && maximum == vector[index]
      invariant forall j :: 0 <= j < i ==> vector[j] <= maximum
      invariant forall j :: 0 <= j < index ==> vector[j] < maximum
    {
      if vector[i] > maximum {
        maximum := vector[i];
        index := i;
      }
      i := i + 1;
    }
  }

  method MinIndexW16(vector: array?<int16>, length: int) returns (index: int)
    requires Readable(vector, length)
    ensures NoInput(vector, length) ==> index == -1
    ensures !NoInput(vector, length) ==>
      && 0 <= index < length
      && (forall j :: 0 <= j < length ==> vector[index] <= vector[j])
      && (forall j :: 0 <= j < index ==> vector[index] < vector[j])
  {
    if vector == null || length <= 0 {
      return -1;
    }
    var i := 0;
    var minimum := WORD16_MAX;
    index := 0;
    while i < length
      invariant 0 <= i <= length
      invariant 0 <= index < length
      invariant i == 0 ==> index == 0 && minimum == WORD16_MAX
      invariant 0 < i ==> index < i && minimum == vector[index]
      invariant forall j :: 0 <= j < i ==> minimum <= vector[j]
      invariant forall j :: 0 <= j < index ==> minimum < vector[j]
    {
      if vector[i] < minimum {
        minimum := vector[i];
        index := i;
      }
      i := i + 1;
    }
  }

  method MinIndexW32(vector: array?<int32>, length: int) returns (index: int)
    requires Readable(vector, length)
    ensures NoInput(vector, length) ==> index == -1
    ensures !NoInput(vector, length) ==>
      && 0 <= index < length
      && (forall j :: 0 <= j < length ==> vector[index] <= vector[j])
      && (forall j :: 0 <= j < index ==> vector[index] < vector[j])
  {
    if vector == null || length <= 0 {
      return -1;
    }
    var i := 0;
    var minimum := WORD32_MAX;
    index := 0;
    while i < length
      invariant 0 <= i <= length
      invariant 0 <= index < length
      invariant i == 0 ==> index == 0 && minimum == WORD32_MAX
      invariant 0 < i ==> index < i && minimum == vector[index]
      invariant forall j :: 0 <= j < i ==> minimum <= vector[j]
      invariant forall j :: 0 <= j < index ==> minimum < vector[j]
    {
      if vector[i] < minimum {
        minimum := vector[i];
        index := i;
      }
      i := i + 1;
    }
  }

  // ---------------------------------------------------------------------
  // The two saturation edge cases, on concrete buffers
  // ---------------------------------------------------------------------

  /** The magnitude of -32768 is reported as 32767. */
  method SaturatedMaxAbsValue() returns (r: int16)
    ensures r == WORD16_MAX
  {
    var vector := new int16[2] [-0x8000, 5];
    r := MaxAbsValueW16(vector, 2);
    assert Abs(vector[0] as int) == 0x8000;
  }

  /** The index scan does not saturate: -32768 outranks an earlier 32767. */
  method UnsaturatedMaxAbsIndex() returns (index: int)
    ensures index == 1
  {
    var vector := new int16[2] [0x7fff, -0x8000];
    index := MaxAbsIndexW16(vector, 2);
    assert Abs(vector[1] as int) > Abs(vector[0] as int);
  }
}
