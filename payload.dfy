/** The response payload types of the Dubbo wire format: six int32 codes that
    say whether a response body carries an exception, a value or nothing,
    with or without a trailing attachment map. */
module PayloadKind {

  newtype int32 = x: int | -0x8000_0000 <= x < 0x8000_0000

  datatype ResponsePayload =
    | WithException
    | Value
    | NullValue
    | WithExceptionWithAttachments
    | ValueWithAttachments
    | NullValueWithAttachments

  /** The RESPONSE_* constant of each kind; every code is in 0..5. */
  function Code(k: ResponsePayload): (r: int32)
    ensures 0 <= r <= 5
  {
    match k
    case WithException => 0
    case Value => 1
    case NullValue => 2
    case WithExceptionWithAttachments => 3
    case ValueWithAttachments => 4
    case NullValueWithAttachments => 5
  }

  predicate HasAttachments(k: ResponsePayload) {
    k.WithExceptionWithAttachments? || k.ValueWithAttachments? || k.NullValueWithAttachments?
  }

  /** The attachment-carrying counterpart of a kind without attachments. */
  function WithAttachments(k: ResponsePayload): ResponsePayload
    requires !HasAttachments(k)
  {
    match k
    case WithException => WithExceptionWithAttachments
    case Value => ValueWithAttachments
    case NullValue => NullValueWithAttachments
  }

  /** The result of reading a code off the wire. */
  datatype Classification = Known(kind: ResponsePayload) | Unknown(code: int32)

  /** Inverse of Code, a modelling aid: the known kind with that code, or the
      code itself when no kind has it. */
  function FromCode(c: int32): (r: Classification)
    ensures r.Known? <==> 0 <= c <= 5
    ensures r.Known? ==> Code(r.kind) == c
    ensures r.Unknown? ==> r.code == c
  {
    if c == 0 then Known(WithException)
    else if c == 1 then Known(Value)
    else if c == 2 then Known(NullValue)
    else if c == 3 then Known(WithExceptionWithAttachments)
    else if c == 4 then Known(ValueWithAttachments)
    else if c == 5 then Known(NullValueWithAttachments)
    else Unknown(c)
  }

  /** The constants in their listed order are 0, 1, 2, 3, 4, 5. */
  lemma CodesInOrder()
    ensures Code(WithException) == 0 && Code(Value) == 1 && Code(NullValue) == 2
    ensures Code(WithExceptionWithAttachments) == 3 && Code(ValueWithAttachments) == 4
    ensures Code(NullValueWithAttachments) == 5
  {
  }

  /** No two kinds share a code. */
  lemma CodeInjective(a: ResponsePayload, b: ResponsePayload)
    requires Code(a) == Code(b)
    ensures a == b
  {
  }

  /** Reading back a kind's code gives the kind. */
  lemma FromCodeOfCode(k: ResponsePayload)
    ensures FromCode(Code(k)) == Known(k)
  {
  }

  /** Every code in 0..5 is the code of the kind it classifies as. */
  lemma CodeOfFromCode(c: int32)
    requires 0 <= c <= 5
    ensures FromCode(c).Known? && Code(FromCode(c).kind) == c
  {
  }

  /** Each attachment constant is its base constant plus 3, and the kinds
      with attachments are exactly those with a code of 3 or more. */
  lemma AttachmentsOffset(k: ResponsePayload)
    requires !HasAttachments(k)
    ensures HasAttachments(WithAttachments(k))
    ensures Code(WithAttachments(k)) == Code(k) + 3
  {
  }

  lemma AttachmentsIffHighCode(k: ResponsePayload)
    ensures HasAttachments(k) <==> Code(k) >= 3
  {
  }

  /** Codes just outside the table are reported back as unknown. */
  lemma OutOfRangeUnknown()
    ensures FromCode(6) == Unknown(6) && FromCode(-1) == Unknown(-1)
  {
  }
}
