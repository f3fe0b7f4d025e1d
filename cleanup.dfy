/**
 * `cleanupOrphanedFirebaseUsers` (Back-end/scripts/cleanupOrphanFirebaseUsers.js):
 * pages through every Firebase account and deletes the ones with no row in
 * the users table. The Firebase account directory is a class: `listing` is
 * the order in which accounts are listed, `live` the accounts that exist.
 * A page token is the position where the next page starts. `failAt` is the
 * position of the account at which the first Firebase or database call
 * throws, if any; the script logs that error and returns.
 */
module Cleanup {
  import opened Wrappers
  import opened UserStore

  const PageSize: nat := 1000

  class AuthDirectory {
    const listing: seq<string>
    var live: set<string>

    constructor (listing: seq<string>)
      ensures this.listing == listing && live == set u | u in listing
    {
      this.listing := listing;
      live := set u | u in listing;
    }

    /**
     * `listUsers(max, token)`: up to `max` accounts from the token's position,
     * and a token for the next page when more accounts follow.
     */
    method ListUsers(max: nat, token: Option<nat>) returns (page: seq<string>, next: Option<nat>)
      requires max > 0
      ensures var k := token.GetOr(0);
        && page == listing[Min(k, |listing|)..Min(k + max, |listing|)]
        && next == if k + max < |listing| then Some(k + max) else None
    {
      var k := token.GetOr(0);
      page := listing[Min(k, |listing|)..Min(k + max, |listing|)];
      next := if k + max < |listing| then Some(k + max) else None;
    }

    /** `deleteUser(uid)`. */
    method DeleteUser(uid: string)
      modifies this`live
      ensures live == old(live) - {uid}
    {
      live := live - {uid};
    }
  }

  function Min(a: nat, b: nat): nat
  {
    if a <= b then a else b
  }

  /** The listed accounts in `s` with no database row. */
  function OrphansIn(s: seq<string>, dbUids: set<string>): set<string>
  {
    set u | u in s && u !in dbUids
  }

  /** How many accounts the run gets through: all of them, or those before the failing one. */
  function Stop(failAt: Option<nat>, n: nat): (r: nat)
    ensures r <= n
    ensures failAt.None? ==> r == n
  {
    if failAt.Some? && failAt.value < n then failAt.value else n
  }

  /** The accounts that exist after a run. */
  function Survivors(live: set<string>, listing: seq<string>, dbUids: set<string>, failAt: Option<nat>): set<string>
  {
    live - OrphansIn(listing[..Stop(failAt, |listing|)], dbUids)
  }

  /** The number of listing calls for `n` accounts: one, and one more per further full page. */
  function PageCount(n: nat): (r: nat)
    ensures r >= 1
    ensures (r - 1) * PageSize < n || r == 1
    ensures n <= r * PageSize
  {
    if n <= PageSize then 1 else 1 + PageCount(n - PageSize)
  }

  /** The token passed to the `j`-th listing call. */
  function TokenAt(j: nat): Option<nat>
  {
    if j == 0 then None else Some(PageSize * j)
  }

  lemma OrphansStep(listing: seq<string>, a: nat, dbUids: set<string>)
    requires a < |listing|
    ensures OrphansIn(listing[..a + 1], dbUids) ==
      OrphansIn(listing[..a], dbUids) + (if listing[a] in dbUids then {} else {listing[a]})
  {
    assert listing[..a + 1] == listing[..a] + [listing[a]];
  }

  lemma PageCountStep(n: nat, pages: nat)
    requires pages >= 1 && ((pages - 1) * PageSize < n || pages == 1) && n <= pages * PageSize
    ensures PageCount(n) == pages
    decreases pages
  {
    if n > PageSize {
      PageCountStep(n - PageSize, pages - 1);
    }
  }

  /**
   * The inner loop over one page listed from position `start`: checks each
   * account's row and deletes the account when there is none, until the page
   * ends or the failing account is reached (`failed`).
   */
  method ReconcilePage(dir: AuthDirectory, db: UserTable, page: seq<string>, start: nat, failAt: Option<nat>,
                       ghost live0: set<string>)
    returns (failed: bool)
    requires db.Valid()
    requires start <= |dir.listing| && page == dir.listing[start..Min(start + PageSize, |dir.listing|)]
    requires failAt.Some? ==> failAt.value >= start
    requires dir.live == live0 - OrphansIn(dir.listing[..start], db.rows.Keys)
    modifies dir`live
    ensures failed <==> failAt.Some? && failAt.value < start + |page|
    ensures failed ==> dir.live == live0 - OrphansIn(dir.listing[..failAt.value], db.rows.Keys)
    ensures !failed ==> dir.live == live0 - OrphansIn(dir.listing[..start + |page|], db.rows.Keys)
  {
    var i := 0;
    while i < |page|
      invariant 0 <= i <= |page|
      invariant dir.live == live0 - OrphansIn(dir.listing[..start + i], db.rows.Keys)
      invariant failAt.Some? ==> failAt.value >= start + i
    {
      if failAt == Some(start + i) {
        return true;
      }
      var row := db.FindOne(page[i]);
      OrphansStep(dir.listing, start + i, db.rows.Keys);
      if row.None? {
        dir.DeleteUser(page[i]);
      }
      i := i + 1;
    }
    failed := false;
  }

  /** The script: list a page, reconcile it, follow the token until there is none. */
  method CleanupOrphanedFirebaseUsers(dir: AuthDirectory, db: UserTable, failAt: Option<nat>)
    returns (tokens: seq<Option<nat>>)
    requires db.Valid()
    modifies dir`live
    ensures dir.live == Survivors(old(dir.live), dir.listing, db.rows.Keys, failAt)
    ensures |tokens| >= 1 && forall j :: 0 <= j < |tokens| ==> tokens[j] == TokenAt(j)
    ensures failAt.None? ==> |tokens| == PageCount(|dir.listing|)
  {
    var n := |dir.listing|;
    var token: Option<nat> := None;
    var start: nat := 0;
    var done := false;
    tokens := [];
    while !done
      invariant start == PageSize * |tokens|
      invariant !done ==> token == TokenAt(|tokens|) && (start == 0 || start < n)
      invariant done ==> |tokens| >= 1 && n <= start && (start - PageSize < n || |tokens| == 1)
      invariant forall j :: 0 <= j < |tokens| ==> tokens[j] == TokenAt(j)
      invariant dir.live == old(dir.live) - OrphansIn(dir.listing[..Min(start, n)], db.rows.Keys)
      invariant failAt.Some? ==> failAt.value >= Min(start, n)
      decreases !done, n + PageSize - start
    {
      tokens := tokens + [token];
      var page, next := dir.ListUsers(PageSize, token);
      var failed := ReconcilePage(dir, db, page, start, failAt, old(dir.live));
      if failed {
        return;
      }
      start := start + PageSize;
      token := next;
      done := next.None?;
    }
    if failAt.None? {
      PageCountStep(n, |tokens|);
    }
  }

  /** An account with a database row is never deleted. */
  lemma AccountsWithRowsSurvive(live: set<string>, listing: seq<string>, dbUids: set<string>, failAt: Option<nat>, u: string)
    requires u in dbUids
    ensures u in Survivors(live, listing, dbUids, failAt) <==> u in live
  {
  }

  /** Without a failure, every listed account without a row is gone afterwards. */
  lemma ListedOrphansDeleted(live: set<string>, listing: seq<string>, dbUids: set<string>, u: string)
    requires u in listing && u !in dbUids
    ensures u !in Survivors(live, listing, dbUids, None)
  {
  }

  /**
   * A failure at position `f` keeps every account listed from `f` on that
   * appears nowhere before it, while deletions made before `f` stand.
   */
  lemma FailureKeepsTheRest(live: set<string>, listing: seq<string>, dbUids: set<string>, f: nat, u: string)
    requires f < |listing|
    requires u in live && u in listing[f..] && u !in listing[..f]
    ensures u in Survivors(live, listing, dbUids, Some(f))
    ensures Survivors(live, listing, dbUids, Some(f)) == live - OrphansIn(listing[..f], dbUids)
  {
  }

  /** Running the cleanup a second time deletes nothing more. */
  lemma CleanupIdempotent(live: set<string>, listing: seq<string>, dbUids: set<string>)
    ensures var live1 := Survivors(live, listing, dbUids, None);
      Survivors(live1, listing, dbUids, None) == live1
  {
  }
}
