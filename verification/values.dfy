/**
 * Metadata values: a document's metadata maps lower-case keys to a string, an
 * integer or a boolean, and every value is shown with Go's `%v` verb.
 */
module Values {
  import opened Common
  import opened GoStrings

  datatype Value = Str(s: string) | Int(i: int) | Bool(b: bool)

  /** A document's metadata record; a later write to a key replaces the earlier one. */
  type Metadata = map<string, Value>

  /** `fmt.Sprintf("%v", v)`. */
  function Stringify(v: Value): string {
    match v
    case Str(s) => s
    case Int(i) => Itoa(i)
    case Bool(b) => if b then "true" else "false"
  }

  /**
   * The coercion applied to every metadata value: strconv.ParseBool first, then
   * strconv.Atoi, and the text itself otherwise.
   */
  function Coerce(text: string): (v: Value)
    ensures v.Bool? <==> ParseBool(text).Some?
    ensures v.Int? <==> ParseBool(text).None? && Atoi(text).Some?
    ensures v.Str? ==> v.s == text
  {
    match ParseBool(text)
    case Some(b) => Bool(b)
    case None =>
      match Atoi(text)
      case Some(i) => Int(i)
      case None => Str(text)
  }

  /** Because booleans are tried first, "1" and "0" read back as booleans, not integers. */
  lemma CoerceBoolFirst()
    ensures Coerce("1") == Bool(true) && Coerce("0") == Bool(false)
    ensures Coerce(Stringify(Int(1))) == Bool(true)
  {
    assert Stringify(Int(1)) == "1";
  }

  /**
   * Coercion inverts `%v` for booleans, for every integer other than 0 and 1,
   * and for every string that reads as neither a boolean nor an integer.
   */
  lemma CoerceStringify(v: Value)
    requires v.Int? ==> v.i != 0 && v.i != 1
    requires v.Str? ==> ParseBool(v.s).None? && Atoi(v.s).None?
    ensures Coerce(Stringify(v)) == v
  {
    if v.Int? {
      AtoiItoa(v.i);
      if v.i < 0 {
        assert Itoa(v.i)[0] == '-';
      } else {
        NatToStringNotBool(v.i);
      }
    }
  }

  lemma NatToStringNotBool(n: nat)
    requires n != 0 && n != 1
    ensures ParseBool(NatToString(n)).None?
  {
    var r := NatToString(n);
    if |r| == 1 {
      assert DecimalValue(r) == DigitValue(r[0]) by {
        assert r[..0] == [];
      }
    }
  }
}
