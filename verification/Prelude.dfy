/** Shared vocabulary: optional values, identifiers and fresh identifiers. */
module Prelude {

  datatype Option<+T> = None | Some(value: T)

  /** A `uuid` column or a `randomUUID()` result. Only equality and freshness are ever used. */
  type Uuid = nat

  datatype Role = Admin | Member | Viewer

  /** Some identifier lies outside any finite set, so a fresh one can always be drawn. */
  lemma FreshUuid(used: set<Uuid>) returns (n: Uuid)
    ensures n !in used
    ensures forall m | m in used :: m < n
  {
    if used == {} {
      n := 0;
    } else {
      var x :| x in used;
      var rest := used - {x};
      var k := FreshUuid(rest);
      n := if k <= x then x + 1 else k;
      assert used == rest + {x};
    }
  }
}
