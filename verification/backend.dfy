/**
 * The backend abstraction: the configured database type selects the
 * positional-parameter token that the statement builders interpolate.
 */
module Backend {
  import opened Outcomes
  import opened SqlText

  /** The message of the `ValueError` raised for any other database type. */
  const UnsupportedDatabaseType := "Unsupported database type"

  /** The database types the program knows: the embedded file engine and the client-server one. */
  predicate Supported(databaseType: string) {
    databaseType == "sqlite" || databaseType == "postgresql"
  }

  /**
   * A placeholder token: it starts with a marker and holds exactly one
   * marker character in all, so each copy in a statement opens one slot.
   */
  predicate IsToken(p: string) {
    |p| > 0 && IsMarker(p[0]) && Count(p, '?') + Count(p, '%') == 1
  }

  /** `get_param_placeholder`: the token for the configured database type, or the error it raises. */
  function Placeholder(databaseType: string): (r: Result<string>)
    ensures r == Ok("?") <==> databaseType == "sqlite"
    ensures r == Ok("%s") <==> databaseType == "postgresql"
    ensures r.Err? <==> !Supported(databaseType)
    ensures r.Err? ==> r.message == UnsupportedDatabaseType
    ensures r.Ok? ==> IsToken(r.value)
  {
    if databaseType == "sqlite" then Ok("?")
    else if databaseType == "postgresql" then Ok("%s")
    else Err(UnsupportedDatabaseType)
  }

  /**
   * The number of parameter slots the driver finds in `sql` when statements
   * are built with token `p`: every occurrence of the token's marker.
   */
  function Slots(sql: string, p: string): nat
    requires |p| > 0
  {
    Count(sql, p[0])
  }

  /** Slots add up over concatenation. */
  lemma SlotsAppend(a: string, b: string, p: string)
    requires |p| > 0
    ensures Slots(a + b, p) == Slots(a, p) + Slots(b, p)
  {
    CountAppend(a, b, p[0]);
  }

  /** Fixed SQL words open no slot; the token itself opens exactly one. */
  lemma {:induction false} SlotsOfWordsAndToken(s: string, p: string)
    requires IsToken(p)
    ensures Unmarked(s) ==> Slots(s, p) == 0
    ensures Slots(p, p) == 1
  {
    UnmarkedIffNoMarker(s);
    assert Count(p, p[0]) >= 1;
  }

  /**
   * An f-string whose fixed parts are SQL words and whose fields are all the
   * token (`p.join(parts)`) opens one slot per field: one fewer than the parts.
   */
  lemma {:induction false} JoinSlots(parts: seq<string>, p: string)
    requires IsToken(p) && |parts| >= 1
    requires forall k | 0 <= k < |parts| :: Unmarked(parts[k])
    ensures Slots(Join(p, parts), p) == |parts| - 1
  {
    SlotsOfWordsAndToken(parts[0], p);
    if |parts| > 1 {
      JoinSlots(parts[1..], p);
      SlotsAppend(parts[0], p, p);
      SlotsAppend(parts[0] + p, Join(p, parts[1..]), p);
    }
  }
}
