/**
  The PHP values a worksheet cell can receive, PHP truthiness, and the
  `$a[$k]` / `Arr::get` read used by classes/worksheet.php.
 */
module PhpValue {
  import opened PhpArray

  /** A PHP scalar, or NULL. Floats and nested arrays are not modelled. */
  datatype Value = Null | Bool(b: bool) | Int(i: int) | Str(s: string)

  /** PHP's truthiness, as used by a bare `if ($flag)`. */
  predicate Truthy(v: Value)
  {
    match v
    case Null => false
    case Bool(b) => b
    case Int(n) => n != 0
    case Str(s) => s != "" && s != "0"
  }

  /** `PHPExcel_Cell_DataType::TYPE_STRING`. */
  const TypeString: Value := Str("s")

  /** Reading `$a[$k]`, and also Kohana's `Arr::get($a, $k)`: the stored value,
      or NULL when the key is absent. (`Arr::get` tests with `isset`, so a stored
      NULL also yields its NULL default: the two reads agree.) */
  function Get(a: PArray<Value>, k: Key): Value
  {
    match Find(a, k)
    case Some(v) => v
    case None => Null
  }

  /** Reading a key of a well-formed array yields the value of the entry that
      holds it, and NULL when no entry holds it. */
  lemma GetSpec(a: PArray<Value>, k: Key)
    requires WellFormed(a)
    ensures forall i :: 0 <= i < |a| && a[i].key == k ==> Get(a, k) == a[i].value
    ensures (forall i :: 0 <= i < |a| ==> a[i].key != k) ==> Get(a, k) == Null
  {
    FindNone(a, k);
    forall i | 0 <= i < |a| && a[i].key == k
      ensures Get(a, k) == a[i].value
    {
      FindAt(a, i);
    }
  }
}
