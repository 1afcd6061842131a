/** Small datatypes shared by every component of the model. */
module Common {
  datatype Option<+T> = None | Some(value: T)

  /** `Failed` stands for any exception the program throws; messages are not modelled. */
  datatype Result<+T> = Failed | Ok(value: T)
  {
    predicate IsFailure() { Failed? }

    function PropagateFailure<U>(): Result<U>
      requires Failed?
    {
      Failed
    }

    function Extract(): T
      requires Ok?
    {
      value
    }
  }

  /** One byte of a buffer, a C++ `char` or a Java `byte` read as unsigned. */
  type Byte = b: int | 0 <= b < 256
  type Bytes = seq<Byte>

  type U32 = n: int | 0 <= n < 0x1_0000_0000
  type U64 = n: int | 0 <= n < 0x1_0000_0000_0000_0000
  type I64 = n: int | -0x8000_0000_0000_0000 <= n < 0x8000_0000_0000_0000

  function Min(a: int, b: int): int { if a <= b then a else b }

  /** A 36-byte token of a local tunnel: a non-zero port, the letters dd, and 32 hexadecimal digits. */
  predicate ValidToken(token: Bytes) {
    && |token| == 36 && (token[0] != 0 || token[1] != 0) && token[2] == 100 && token[3] == 100
    && forall i :: 4 <= i < 36 ==> 48 <= token[i] <= 57 || 97 <= token[i] <= 102
  }
}
