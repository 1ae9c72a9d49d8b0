/** The Python values an extraction record is made of, and the ordered
    dictionaries that hold them. */
module Values {
  import opened Wrappers

  /** A record value: a string, an amount of money (a `float` in the source,
      kept here as exact cents), a Python `int`, or `None`. */
  datatype Field = Str(s: string) | Money(cents: int) | Int(i: int) | Null

  /** `None` when absent, the string otherwise. */
  function OrNull(s: Option<string>): (f: Field)
    ensures s.None? <==> f == Null
    ensures s.Some? ==> f == Str(s.value)
  {
    match s
    case None => Null
    case Some(v) => Str(v)
  }

  /** A Python `dict` keeps its keys in insertion order; with distinct keys it
      is a sequence of key/value pairs. */
  type Dict<V> = seq<(string, V)>

  function Keys<V>(d: Dict<V>): (ks: seq<string>)
    ensures |ks| == |d|
    ensures forall i | 0 <= i < |d| :: ks[i] == d[i].0
  {
    seq(|d|, i requires 0 <= i < |d| => d[i].0)
  }

  predicate Distinct(ks: seq<string>) {
    forall i, j | 0 <= i < j < |ks| :: ks[i] != ks[j]
  }

  /** `d[k]` when `k` is a key, `None` otherwise. */
  function Get<V>(d: Dict<V>, k: string): (r: Option<V>)
    ensures r.Some? <==> k in Keys(d)
    ensures Distinct(Keys(d)) ==> forall i | 0 <= i < |d| && d[i].0 == k :: r == Some(d[i].1)
    decreases |d|
  {
    if d == [] then None
    else if d[0].0 == k then Some(d[0].1)
    else
      var rest := d[1..];
      assert Keys(d) == [d[0].0] + Keys(rest);
      assert forall i | 1 <= i < |d| :: d[i] == rest[i - 1];
      Get(rest, k)
  }

  /** `dict(zip(ks, vs))` for distinct keys: pairs up to the shorter length. */
  function Zip<V>(ks: seq<string>, vs: seq<V>): (d: Dict<V>)
    ensures |d| == if |ks| <= |vs| then |ks| else |vs|
    ensures forall i | 0 <= i < |d| :: d[i] == (ks[i], vs[i])
  {
    var n := if |ks| <= |vs| then |ks| else |vs|;
    seq(n, i requires 0 <= i < n => (ks[i], vs[i]))
  }

  /** Python truthiness of what an extractor returns: `None` and `{}` are false. */
  predicate Truthy(data: Option<Dict<Field>>) {
    data.Some? && |data.value| > 0
  }
}
