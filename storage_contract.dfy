/**
 * What every storage backend promises (`app/storage/base.py`), stated over
 * the set of match identifiers a backend holds.  A backend's operations are
 * proved to meet these predicates.
 */
module StorageContract {
  import opened Wrappers

  /**
   * `save_match`: True only when the match was new and is now held; False
   * for a duplicate or an error, which leave the held identifiers alone.
   */
  ghost predicate SaveMatchContract(before: set<string>, after: set<string>, id: string, saved: bool) {
    && (saved ==> id !in before && after == before + {id})
    && (!saved ==> after == before)
    && (id in before ==> !saved)
  }

  /** `save_matches`: the count is the number of matches newly held. */
  ghost predicate SaveMatchesContract(before: set<string>, after: set<string>, saved: nat) {
    before <= after && |after| == |before| + saved
  }

  /** `match_exists`. */
  ghost predicate MatchExistsContract(held: set<string>, id: string, exists_: bool) {
    exists_ == (id in held)
  }

  /** `get_match_count`. */
  ghost predicate MatchCountContract(held: set<string>, count: int) {
    count == |held|
  }

  /** `get_scraped_match_ids`: every held identifier, once each. */
  ghost predicate ScrapedIdsContract(held: set<string>, ids: seq<string>) {
    && (forall i, j :: 0 <= i < j < |ids| ==> ids[i] != ids[j])
    && (forall x :: x in ids <==> x in held)
  }

  /** `get_last_scraped_date`: None when nothing was scraped. */
  ghost predicate LastScrapedContract<S, T>(stamps: seq<S>, last: Option<T>) {
    stamps == [] ==> last.None?
  }
}
