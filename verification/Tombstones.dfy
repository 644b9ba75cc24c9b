/** The order and the validity rules of exported deletion tombstones. */
module Tombstones {
  import opened Catalog

  const MaxGeneration := 0x7fff_ffff_ffff_ffff
  const MaxEntries := 10_000

  /** Code-point order on strings. */
  predicate Less(x: string, y: string) {
    y != "" && (x == "" || x[0] < y[0] || (x[0] == y[0] && Less(x[1..], y[1..])))
  }

  /** The catalog's order on attempt identities: tenant, then cluster, then attempt. */
  predicate Before(x: Attempt, y: Attempt) {
    || Less(x.tenant, y.tenant)
    || (x.tenant == y.tenant && Less(x.cluster, y.cluster))
    || (x.tenant == y.tenant && x.cluster == y.cluster && Less(x.name, y.name))
  }

  predicate IdentifierChar(c: char) {
    'A' <= c <= 'Z' || 'a' <= c <= 'z' || '0' <= c <= '9' || c in "_.:-"
  }

  predicate Identifier(s: string) {
    1 <= |s| <= 128 && forall i :: 0 <= i < |s| ==> IdentifierChar(s[i])
  }

  predicate Portable(t: Tombstone) {
    && Identifier(t.attempt.tenant) && Identifier(t.attempt.cluster) && Identifier(t.attempt.name)
    && 1 <= t.generation <= MaxGeneration
    && t.requestedAt <= t.completedAt
  }

  /** Unique and canonically ordered, as an import demands. */
  predicate Canonical(entries: seq<Tombstone>) {
    forall i, j :: 0 <= i < j < |entries| ==> Before(entries[i].attempt, entries[j].attempt)
  }

  predicate Acceptable(b: Bundle) {
    && |b.entries| <= MaxEntries
    && (forall i :: 0 <= i < |b.entries| ==> Portable(b.entries[i]))
    && Canonical(b.entries)
  }
}
