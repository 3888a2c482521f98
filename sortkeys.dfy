/** The ordering Python's `sorted` uses for the key `(value is None, value)`:
    strings compare by code point, lexicographically, a proper prefix first;
    numbers compare numerically; a tuple whose first component is `False`
    (a present value) comes before one whose first component is `True`. */
module SortKeys {
  import opened Wrappers

  /** A value a job field can be sorted on: a timestamp or duration, or a text. */
  datatype Key = Int(i: int) | Str(s: string)

  /** Python's `a <= b` on `str`. */
  predicate StrLe(a: string, b: string)
    decreases |a|
  {
    if |a| == 0 then true
    else if |b| == 0 then false
    else if a[0] != b[0] then a[0] < b[0]
    else StrLe(a[1..], b[1..])
  }

  lemma {:induction false} StrLeReflexive(a: string)
    ensures StrLe(a, a)
  {
    if |a| > 0 { StrLeReflexive(a[1..]); }
  }

  lemma {:induction false} StrLeTotal(a: string, b: string)
    ensures StrLe(a, b) || StrLe(b, a)
  {
    if |a| > 0 && |b| > 0 && a[0] == b[0] { StrLeTotal(a[1..], b[1..]); }
  }

  lemma {:induction false} StrLeTransitive(a: string, b: string, c: string)
    requires StrLe(a, b) && StrLe(b, c)
    ensures StrLe(a, c)
  {
    if |a| > 0 && |b| > 0 && |c| > 0 && a[0] == b[0] && b[0] == c[0] {
      StrLeTransitive(a[1..], b[1..], c[1..]);
    }
  }

  lemma {:induction false} StrLeAntisymmetric(a: string, b: string)
    requires StrLe(a, b) && StrLe(b, a)
    ensures a == b
  {
    if |a| > 0 && |b| > 0 {
      StrLeAntisymmetric(a[1..], b[1..]);
      assert a == [a[0]] + a[1..] && b == [b[0]] + b[1..];
    }
  }

  /** A field holds keys of one kind only; across kinds numbers are put first
      so that the relation is total. */
  predicate KeyLe(a: Key, b: Key)
  {
    match (a, b)
    case (Int(x), Int(y)) => x <= y
    case (Str(x), Str(y)) => StrLe(x, y)
    case (Int(_), Str(_)) => true
    case (Str(_), Int(_)) => false
  }

  /** Python's `<=` on the tuples `(a is None, a)` and `(b is None, b)`. */
  predicate NullLastLe(a: Option<Key>, b: Option<Key>)
  {
    match (a, b)
    case (Some(x), Some(y)) => KeyLe(x, y)
    case (Some(_), None) => true
    case (None, Some(_)) => false
    case (None, None) => true
  }

  lemma NullLastLeReflexive(a: Option<Key>)
    ensures NullLastLe(a, a)
  {
    if a.Some? && a.value.Str? { StrLeReflexive(a.value.s); }
  }

  lemma NullLastLeTotal(a: Option<Key>, b: Option<Key>)
    ensures NullLastLe(a, b) || NullLastLe(b, a)
  {
    if a.Some? && b.Some? && a.value.Str? && b.value.Str? { StrLeTotal(a.value.s, b.value.s); }
  }

  lemma NullLastLeTransitive(a: Option<Key>, b: Option<Key>, c: Option<Key>)
    requires NullLastLe(a, b) && NullLastLe(b, c)
    ensures NullLastLe(a, c)
  {
    if a.Some? && b.Some? && c.Some? && a.value.Str? && b.value.Str? && c.value.Str? {
      StrLeTransitive(a.value.s, b.value.s, c.value.s);
    }
  }

  lemma NullLastLeAntisymmetric(a: Option<Key>, b: Option<Key>)
    requires NullLastLe(a, b) && NullLastLe(b, a)
    ensures a == b
  {
    if a.Some? && b.Some? && a.value.Str? && b.value.Str? { StrLeAntisymmetric(a.value.s, b.value.s); }
  }
}
