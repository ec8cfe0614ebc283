/** The PHP values that request parameters and filter maps are made of, and the few
    language operations the filter layer applies to them: `empty()`, `isset`, `??`,
    the `(array)` cast and string interpolation. */
module PhpValues {

  datatype Option<+T> = None | Some(value: T)

  /** An array key. PHP stores keys as int or string, and a key written as a decimal
      string ("0") is already stored as an int; keys here are taken as stored. */
  datatype Key = IntKey(n: int) | StrKey(s: string)

  /** A PHP value. Floats and objects do not occur in the filter layer's inputs. */
  datatype Value =
    | Null
    | Bool(b: bool)
    | Int(i: int)
    | Str(s: string)
    | Arr(entries: seq<Entry>)

  /** One key => value pair of an ordered PHP array. */
  datatype Entry = Entry(key: Key, val: Value)

  /** The entry stored under key `k`, if any (a PHP array holds each key at most once;
      for a sequence that repeats a key, the first one is taken). */
  function Find(a: seq<Entry>, k: Key): (r: Option<Value>)
    ensures r.None? <==> forall i :: 0 <= i < |a| ==> a[i].key != k
    ensures r.Some? ==> exists i :: 0 <= i < |a| && a[i] == Entry(k, r.value)
  {
    if a == [] then None
    else if a[0].key == k then Some(a[0].val)
    else
      var r := Find(a[1..], k);
      assert r.Some? ==> a[1..][0] in a[1..] && (exists i :: 0 <= i < |a[1..]| && a[1..][i] == Entry(k, r.value));
      r
  }

  /** Appending an entry under another key does not change a lookup. */
  lemma {:induction false} FindPastEnd(a: seq<Entry>, e: Entry, k: Key)
    requires e.key != k
    ensures Find(a + [e], k) == Find(a, k)
    decreases |a|
  {
    if a != [] {
      assert (a + [e])[1..] == a[1..] + [e];
      FindPastEnd(a[1..], e, k);
    }
  }

  /** `$a[$k]`: the stored value, or null (with a notice) when the key is missing. */
  function Index(a: seq<Entry>, k: Key): (v: Value)
  {
    match Find(a, k)
    case None => Null
    case Some(v) => v
  }

  /** `isset($a[$k])`: the key exists and its value is not null. */
  predicate IsSet(a: seq<Entry>, k: Key)
  {
    Index(a, k) != Null
  }

  /** `$a[$k] ?? $default`. */
  function Coalesce(a: seq<Entry>, k: Key, default: Value): (v: Value)
  {
    if IsSet(a, k) then Index(a, k) else default
  }

  /** `empty($v)`: null, false, 0, "", "0" and the empty array. */
  predicate IsEmpty(v: Value)
  {
    match v
    case Null => true
    case Bool(b) => !b
    case Int(i) => i == 0
    case Str(s) => s == "" || s == "0"
    case Arr(es) => es == []
  }

  /** The values of an array, in order, keys dropped. */
  function Values(a: seq<Entry>): (r: seq<Value>)
    ensures |r| == |a| && forall i :: 0 <= i < |a| ==> r[i] == a[i].val
  {
    seq(|a|, i requires 0 <= i < |a| => a[i].val)
  }

  /** `(array)$v`: an array is kept as it is, null becomes the empty array, and any
      other scalar becomes the one-element list `[0 => $v]`. */
  function CastToArray(v: Value): (r: seq<Entry>)
    ensures v.Arr? ==> r == v.entries
    ensures v.Null? ==> r == []
    ensures !v.Arr? && !v.Null? ==> Values(r) == [v]
  {
    match v
    case Null => []
    case Arr(es) => es
    case _ => [Entry(IntKey(0), v)]
  }

  function DigitChar(d: int): (c: char)
    requires 0 <= d < 10
    ensures '0' <= c <= '9' && c as int - '0' as int == d
  {
    ('0' as int + d) as char
  }

  /** The decimal digits of `n`, without leading zeros. */
  function Decimal(n: nat): (s: string)
    ensures 1 <= |s|
    ensures n >= 10 ==> |s| >= 2
    decreases n
  {
    if n < 10 then [DigitChar(n)] else Decimal(n / 10) + [DigitChar(n % 10)]
  }

  /** The text `"{$v}"` interpolates into a string: false and null give "", true gives
      "1", an int its decimal form, an array the word "Array" (with a warning). */
  function ToPhpString(v: Value): (s: string)
  {
    match v
    case Null => ""
    case Bool(b) => if b then "1" else ""
    case Int(i) => if i < 0 then "-" + Decimal(-i) else Decimal(i)
    case Str(s) => s
    case Arr(_) => "Array"
  }
}
