/** The repositories' conditional-fetch tokens and their clearing by
    MainApplication.forceSyncAll. */
module Repositories {
  /** A repository as stored; `lastModified` and `entityTag` are the tokens of a
      conditional fetch, "" when absent. */
  datatype Repository = Repository(
    id: int,
    address: string,
    name: string,
    enabled: bool,
    fingerprint: string,
    lastModified: string,
    entityTag: string)

  predicate HasCacheTokens(r: Repository) {
    r.lastModified != "" || r.entityTag != ""
  }

  /** The repository with both tokens set to the empty string and every other
      field kept. */
  function WithoutTokens(r: Repository): Repository {
    r.(lastModified := "", entityTag := "")
  }

  /** The repositories after the clearing pass. */
  function ClearTokens(rs: seq<Repository>): seq<Repository> {
    if rs == [] then [] else ClearTokens(rs[..|rs| - 1]) + [WithoutTokens(rs[|rs| - 1])]
  }

  /** The repositories the clearing pass writes back, in order: only those that
      had a token. */
  function TokenRewrites(rs: seq<Repository>): seq<Repository> {
    if rs == [] then []
    else TokenRewrites(rs[..|rs| - 1]) + (if HasCacheTokens(rs[|rs| - 1]) then [WithoutTokens(rs[|rs| - 1])] else [])
  }

  /** After clearing, every repository has empty tokens and all its other fields
      unchanged; none is added, dropped or reordered. */
  lemma {:induction false} ClearTokensAt(rs: seq<Repository>)
    ensures |ClearTokens(rs)| == |rs|
    ensures forall i :: 0 <= i < |rs| ==>
      && ClearTokens(rs)[i].lastModified == "" && ClearTokens(rs)[i].entityTag == ""
      && ClearTokens(rs)[i] == rs[i].(lastModified := "", entityTag := "")
  {
    if rs != [] {
      ClearTokensAt(rs[..|rs| - 1]);
    }
  }

  /** A repository without tokens is left as it is. */
  lemma {:induction false} ClearTokensKeepsTokenless(rs: seq<Repository>, i: int)
    requires 0 <= i < |rs| && !HasCacheTokens(rs[i])
    ensures |ClearTokens(rs)| == |rs| && ClearTokens(rs)[i] == rs[i]
  {
    ClearTokensAt(rs);
  }

  /** The positions of the repositories that have a token. */
  function TokenBearing(rs: seq<Repository>): set<int> {
    set i | 0 <= i < |rs| && HasCacheTokens(rs[i])
  }

  /** Exactly the repositories that had a token are written back, each with
      both tokens cleared: one write per token-bearing repository, so none for
      a repository whose tokens were already empty. */
  lemma {:induction false} TokenRewritesAreTheTokenBearing(rs: seq<Repository>)
    ensures |TokenRewrites(rs)| <= |rs|
    ensures forall w :: w in TokenRewrites(rs) ==> !HasCacheTokens(w)
    ensures forall i :: 0 <= i < |rs| && HasCacheTokens(rs[i]) ==> WithoutTokens(rs[i]) in TokenRewrites(rs)
    ensures TokenRewrites(rs) == [] <==> forall i :: 0 <= i < |rs| ==> !HasCacheTokens(rs[i])
    ensures |TokenRewrites(rs)| == |TokenBearing(rs)|
  {
    if rs != [] {
      var init := rs[..|rs| - 1];
      TokenRewritesAreTheTokenBearing(init);
      assert forall i :: 0 <= i < |init| ==> init[i] == rs[i];
    }
    TokenRewritesCount(rs);
  }

  /** Appending one repository adds its position to the token-bearing ones
      exactly when it has a token. */
  lemma TokenBearingSnoc(rs: seq<Repository>)
    requires rs != []
    ensures var last := |rs| - 1;
      TokenBearing(rs) == TokenBearing(rs[..last]) + (if HasCacheTokens(rs[last]) then {last} else {})
      && last !in TokenBearing(rs[..last])
  {
  }

  /** One write per token-bearing repository. */
  lemma {:induction false} TokenRewritesCount(rs: seq<Repository>)
    ensures |TokenRewrites(rs)| == |TokenBearing(rs)|
  {
    if rs == [] {
      assert TokenBearing(rs) == {};
    } else {
      TokenRewritesCount(rs[..|rs| - 1]);
      TokenBearingSnoc(rs);
    }
  }

  /** A second forced sync right after the first writes nothing back. */
  lemma SecondClearingRewritesNothing(rs: seq<Repository>)
    ensures TokenRewrites(ClearTokens(rs)) == []
  {
  }
}
