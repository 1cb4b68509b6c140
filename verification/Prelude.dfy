/** Types shared by every module of the model. */
module Prelude {

  type Byte = b: int | 0 <= b < 256

  datatype Option<+T> = None | Some(value: T)

  /** The entry of `m` at `k`, or `default` when there is none. */
  function GetOr<K, V>(m: map<K, V>, k: K, default: V): V {
    if k in m then m[k] else default
  }

  /** There is always an unused number. */
  lemma Unused<V>(m: map<nat, V>) returns (n: nat)
    ensures forall k :: k in m ==> k < n
    decreases |m|
  {
    if m == map[] {
      n := 0;
    } else {
      var k :| k in m;
      var rest := Unused(m - {k});
      n := if k < rest then rest else k + 1;
      assert forall j :: j in m ==> j == k || j in m - {k};
    }
  }
}
