/**
 * The vocabulary of decoded samples: the opcode tag (`SampleOpcode`, whose
 * member `opcode` is all a `SampleBase` holds) and the decoded payload
 * (`Object value`), which the read path only ever renders as text or hands
 * to the numeric coercion.
 */
module Samples {
  import opened Strings

  /** The opcode tags the read path distinguishes. */
  datatype Opcode = NULL | INT_ZERO | DOUBLE_ZERO | BYTE | SHORT | INT | LONG | FLOAT | DOUBLE | STRING

  /** `SampleOpcode.name()`: the constant's identifier. */
  function Name(op: Opcode): (s: string)
    ensures |s| >= 1 && IsUpperAscii(s[0]) && IsUpperAscii(s[|s| - 1])
    ensures forall i :: 0 <= i < |s| ==> IsUpperAscii(s[i]) || s[i] == '_'
  {
    match op
    case NULL => "NULL"
    case INT_ZERO => "INT_ZERO"
    case DOUBLE_ZERO => "DOUBLE_ZERO"
    case BYTE => "BYTE"
    case SHORT => "SHORT"
    case INT => "INT"
    case LONG => "LONG"
    case FLOAT => "FLOAT"
    case DOUBLE => "DOUBLE"
    case STRING => "STRING"
  }

  /** Distinct opcodes have distinct names. */
  lemma NameInjective(a: Opcode, b: Opcode)
    requires Name(a) == Name(b)
    ensures a == b
  {
  }

  /**
   * A decoded payload as the read path sees it: a null reference, or an
   * object whose `toString()` is `text`.
   */
  datatype Value = Null | Object(text: string)

  /** `String.valueOf(value)`: "null" for a null reference. */
  function ValueOf(v: Value): string
  {
    match v
    case Null => "null"
    case Object(t) => t
  }
}
