/** The grant list a client supplies for a run. */
module Grants {
  import opened Basics

  /** What remains of a client's list: known keys, each once, in order of first appearance. */
  function KnownGrants(raw: seq<string>, grantable: set<string>): seq<string> {
    if |raw| == 0 then []
    else
      var front := KnownGrants(raw[..|raw| - 1], grantable);
      var key := Strip(raw[|raw| - 1]);
      if key != "" && key in grantable && key !in front then front + [key] else front
  }

  ghost predicate Distinct(keys: seq<string>) {
    forall j, k :: 0 <= j < k < |keys| ==> keys[j] != keys[k]
  }

  /** `None` stays `None`, which is not the same as granting nothing. */
  method NormalizeGrants(raw: Option<seq<string>>, grantable: set<string>) returns (out: Option<seq<string>>)
    ensures raw.None? <==> out.None?
    ensures raw.Some? ==> out.value == KnownGrants(raw.value, grantable)
    ensures out.Some? ==> Distinct(out.value) && forall key :: key in out.value ==> key in grantable && key != ""
  {
    if raw.None? {
      return None;
    }
    var seen: set<string> := {};
    var kept: seq<string> := [];
    var i := 0;
    while i < |raw.value|
      invariant 0 <= i <= |raw.value|
      invariant kept == KnownGrants(raw.value[..i], grantable)
      invariant forall key :: key in seen <==> key in kept
      invariant Distinct(kept) && forall key :: key in kept ==> key in grantable && key != ""
    {
      assert raw.value[..i + 1][..i] == raw.value[..i];
      var key := Strip(raw.value[i]);
      if key != "" && key in grantable && key !in seen {
        seen := seen + {key};
        kept := kept + [key];
      }
      i := i + 1;
    }
    assert raw.value[..i] == raw.value;
    out := Some(kept);
  }

  /** Keys are kept in the order of their first appearance: what is named later only adds at the end. */
  lemma {:induction false} KnownGrantsGrow(raw: seq<string>, grantable: set<string>, k: nat)
    requires k <= |raw|
    ensures KnownGrants(raw[..k], grantable) <= KnownGrants(raw, grantable)
    decreases |raw|
  {
    if k < |raw| {
      KnownGrantsGrow(raw[..|raw| - 1], grantable, k);
      assert raw[..|raw| - 1][..k] == raw[..k];
    } else {
      assert raw[..k] == raw;
    }
  }

  /** Normalising keeps exactly the grantable keys the client named, white space aside. */
  lemma {:induction false} KnownGrantsMembers(raw: seq<string>, grantable: set<string>, key: string)
    ensures key in KnownGrants(raw, grantable) <==>
            key != "" && key in grantable && exists k :: 0 <= k < |raw| && Strip(raw[k]) == key
    decreases |raw|
  {
    if |raw| > 0 {
      var front := raw[..|raw| - 1];
      KnownGrantsMembers(front, grantable, key);
      if Strip(raw[|raw| - 1]) == key {
        KnownGrantsMembers(front, grantable, Strip(raw[|raw| - 1]));
      }
      if k :| 0 <= k < |raw| - 1 && Strip(raw[k]) == key {
        assert Strip(front[k]) == key;
      }
    }
  }

  lemma {:induction false} KnownGrantsStable(raw: seq<string>, grantable: set<string>)
    requires Distinct(raw)
    requires forall k :: 0 <= k < |raw| ==> raw[k] != "" && raw[k] in grantable && Strip(raw[k]) == raw[k]
    ensures KnownGrants(raw, grantable) == raw
    decreases |raw|
  {
    if |raw| > 0 {
      KnownGrantsStable(raw[..|raw| - 1], grantable);
      assert raw == raw[..|raw| - 1] + [raw[|raw| - 1]];
    }
  }

  lemma {:induction false} KnownGrantsWellFormed(raw: seq<string>, grantable: set<string>)
    ensures var keys := KnownGrants(raw, grantable);
            && Distinct(keys)
            && (forall k :: 0 <= k < |keys| ==> keys[k] != "" && keys[k] in grantable && Strip(keys[k]) == keys[k])
    decreases |raw|
  {
    if |raw| > 0 {
      KnownGrantsWellFormed(raw[..|raw| - 1], grantable);
      StripIsStable(raw[|raw| - 1]);
    }
  }

  /** Normalising a normalised list changes nothing. */
  lemma NormalizingTwice(raw: seq<string>, grantable: set<string>)
    ensures KnownGrants(KnownGrants(raw, grantable), grantable) == KnownGrants(raw, grantable)
  {
    KnownGrantsWellFormed(raw, grantable);
    KnownGrantsStable(KnownGrants(raw, grantable), grantable);
  }
}
