/** When a grant is active: in SQL (platform/dolt_store.py) and in Python (platform/grant_lifecycle.py). */
module GrantLifecycle {
  import opened Wrappers

  /** A row of `grants`. `initial` is the count that the row was inserted with. Times are seconds. */
  datatype Grant = Grant(
    id: nat, session: string, scope: string, resource: string, issuer: string, proofId: string,
    initial: int, remaining: int, expiresAt: Option<nat>, createdAt: nat)

  /** `call_count_remaining > 0 AND (expires_at IS NULL OR expires_at > NOW())` */
  predicate SqlActive(g: Grant, now: nat) {
    g.remaining > 0 && (g.expiresAt.None? || g.expiresAt.value > now)
  }

  /** A column value as the Python driver may deliver it. */
  datatype Cell = NullCell | IntCell(n: int) | TimeCell(t: nat) | TextCell(s: string)

  /** The two columns that the Python predicate looks at. */
  datatype RawGrant = RawGrant(count: Cell, expires: Cell)

  /** `int(text)` and `datetime.fromisoformat(text)`; `None` is the exception. */
  datatype Parsers = Parsers(int_: string -> Option<int>, time: string -> Option<nat>)

  /** `grant_row_is_active` */
  predicate GrantRowIsActive(row: RawGrant, now: nat, parse: Parsers) {
    && (match row.count
        case NullCell => true
        case IntCell(n) => n > 0
        case TextCell(s) => parse.int_(s).Some? && parse.int_(s).value > 0
        case TimeCell(_) => false)
    && (match row.expires
        case NullCell => true
        case TextCell(s) => s == "" || (parse.time(s).Some? && parse.time(s).value > now)
        case TimeCell(t) => t > now
        case IntCell(_) => false)
  }

  /** The same row in SQL: a comparison with `NULL` selects nothing. */
  predicate SqlRowActive(row: RawGrant, now: nat) {
    row.count.IntCell? && row.count.n > 0 && (row.expires.NullCell? || (row.expires.TimeCell? && row.expires.t > now))
  }

  function Raw(g: Grant): RawGrant {
    RawGrant(IntCell(g.remaining), if g.expiresAt.Some? then TimeCell(g.expiresAt.value) else NullCell)
  }

  /** On rows of the schema, where the count is never null, the two predicates are one. */
  lemma TwinsAgree(g: Grant, now: nat, parse: Parsers)
    ensures GrantRowIsActive(Raw(g), now, parse) <==> SqlActive(g, now)
    ensures SqlRowActive(Raw(g), now) <==> SqlActive(g, now)
  {
  }

  /** If the count column could be null, they would differ on exactly the unexpired rows without a count. */
  lemma TwinsDifferIff(row: RawGrant, now: nat, parse: Parsers)
    requires row.count.NullCell? || row.count.IntCell?
    requires row.expires.NullCell? || row.expires.TimeCell?
    ensures GrantRowIsActive(row, now, parse) != SqlRowActive(row, now)
       <==> row.count.NullCell? && (row.expires.NullCell? || row.expires.t > now)
  {
  }

  /** The rows that a query with the active predicate returns. */
  function ActiveGrants(grants: seq<Grant>, now: nat): (r: seq<Grant>)
    ensures forall g :: g in r <==> g in grants && SqlActive(g, now)
  {
    if grants == [] then []
    else
      var rest := ActiveGrants(grants[1..], now);
      assert forall g :: g in grants <==> g == grants[0] || g in grants[1..];
      if SqlActive(grants[0], now) then [grants[0]] + rest else rest
  }
}
