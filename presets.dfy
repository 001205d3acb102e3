/** Preset selection (`_get_settings`): the user's settings files when given, otherwise the
    bundled presets for the moving modality and flavor, sorted. */
module Presets {
  import opened Wrappers
  import opened Text
  import opened Resolution

  /** The fixed part of `{moving.lower()}-mni_registration_{flavor}_*.json` before the `*`. */
  function PresetPrefix(moving: MovingModality, flavor: Flavor): string {
    Lower(ModalityName(moving)) + "-mni_registration_" + FlavorName(flavor) + "_"
  }

  const PresetExtension := ".json"

  /** Whether a directory entry matches the glob `<prefix>*.json`. */
  predicate MatchesPreset(name: string, prefix: string) {
    && |name| >= |prefix| + |PresetExtension|
    && name[..|prefix|] == prefix
    && name[|name| - |PresetExtension|..] == PresetExtension
  }

  /** The paths of the matching entries of the data directory, in listing order. */
  function MatchingPaths(dataDir: string, entries: seq<string>, prefix: string): seq<string> {
    if entries == [] then []
    else (if MatchesPreset(entries[0], prefix) then [JoinPath(dataDir, entries[0])] else [])
         + MatchingPaths(dataDir, entries[1..], prefix)
  }

  /** `_get_settings`. The data directory is given by its path and the names it lists. */
  function GetSettings(settings: Option<seq<string>>, moving: MovingModality, flavor: Flavor,
                       dataDir: string, entries: seq<string>): (r: seq<string>)
    // user settings are returned as given, in their order, whatever the directory holds
    ensures settings.Some? ==> r == settings.value
    // otherwise: sorted, and exactly the matching entries, each as often as listed
    ensures settings.None? ==> Sorted(r)
    ensures settings.None? ==>
              multiset(r) == multiset(MatchingPaths(dataDir, entries, PresetPrefix(moving, flavor)))
  {
    match settings
    case Some(s) => s
    case None => SortStrings(MatchingPaths(dataDir, entries, PresetPrefix(moving, flavor)))
  }

  /** A path is among the default presets exactly when it names a listed entry that matches the
      pattern. */
  lemma {:induction false} MatchingPathsMembers(dataDir: string, entries: seq<string>, prefix: string, p: string)
    ensures p in MatchingPaths(dataDir, entries, prefix) <==>
              exists k :: 0 <= k < |entries| && MatchesPreset(entries[k], prefix) && p == JoinPath(dataDir, entries[k])
  {
    if entries != [] {
      MatchingPathsMembers(dataDir, entries[1..], prefix, p);
      if p in MatchingPaths(dataDir, entries[1..], prefix) {
        var k :| 0 <= k < |entries[1..]| && MatchesPreset(entries[1..][k], prefix) && p == JoinPath(dataDir, entries[1..][k]);
        assert entries[k + 1] == entries[1..][k];
      }
      if exists k :: 0 <= k < |entries| && MatchesPreset(entries[k], prefix) && p == JoinPath(dataDir, entries[k]) {
        var k :| 0 <= k < |entries| && MatchesPreset(entries[k], prefix) && p == JoinPath(dataDir, entries[k]);
        if k > 0 {
          assert entries[1..][k - 1] == entries[k];
        }
      }
    }
  }

  lemma {:induction false} MatchingPathsAppend(dataDir: string, a: seq<string>, b: seq<string>, prefix: string)
    ensures MatchingPaths(dataDir, a + b, prefix) == MatchingPaths(dataDir, a, prefix) + MatchingPaths(dataDir, b, prefix)
  {
    if a != [] {
      assert (a + b)[1..] == a[1..] + b;
      MatchingPathsAppend(dataDir, a[1..], b, prefix);
    } else {
      assert a + b == b;
    }
  }

  /** Removing the k-th entry of one of two equal multisets and the head of the other leaves
      equal multisets. */
  lemma RemoveMatchingEntry(e1: seq<string>, e2: seq<string>, k: nat)
    requires multiset(e1) == multiset(e2) && e1 != [] && k < |e2| && e2[k] == e1[0]
    ensures multiset(e1[1..]) == multiset(e2[..k] + e2[k + 1..])
  {
    assert e1 == [e1[0]] + e1[1..];
    assert e2 == e2[..k] + [e2[k]] + e2[k + 1..];
    forall x ensures multiset(e1[1..])[x] == multiset(e2[..k] + e2[k + 1..])[x] {
      assert multiset(e1)[x] == multiset{e1[0]}[x] + multiset(e1[1..])[x];
      assert multiset(e2)[x] == multiset(e2[..k])[x] + multiset{e1[0]}[x] + multiset(e2[k + 1..])[x];
    }
  }

  /** The matches of a listing are those of its k-th entry and those of the rest. */
  lemma MatchingPathsSplitAt(dataDir: string, e: seq<string>, k: nat, prefix: string)
    requires k < |e|
    ensures multiset(MatchingPaths(dataDir, e, prefix))
            == multiset(MatchingPaths(dataDir, [e[k]], prefix)) + multiset(MatchingPaths(dataDir, e[..k] + e[k + 1..], prefix))
  {
    assert e == e[..k] + [e[k]] + e[k + 1..];
    MatchingPathsAppend(dataDir, e[..k] + [e[k]], e[k + 1..], prefix);
    MatchingPathsAppend(dataDir, e[..k], [e[k]], prefix);
    MatchingPathsAppend(dataDir, e[..k], e[k + 1..], prefix);
  }

  /** Listing the same entries in another order selects the same matches. */
  lemma {:induction false} MatchingPathsPermutation(dataDir: string, e1: seq<string>, e2: seq<string>, prefix: string)
    requires multiset(e1) == multiset(e2)
    ensures multiset(MatchingPaths(dataDir, e1, prefix)) == multiset(MatchingPaths(dataDir, e2, prefix))
    decreases |e1|
  {
    if e1 == [] {
      assert |e2| == |multiset(e2)| == 0;
    } else {
      assert e1[0] in multiset(e2) by { assert e1[0] in multiset(e1); }
      var k :| 0 <= k < |e2| && e2[k] == e1[0];
      RemoveMatchingEntry(e1, e2, k);
      MatchingPathsPermutation(dataDir, e1[1..], e2[..k] + e2[k + 1..], prefix);
      MatchingPathsSplitAt(dataDir, e1, 0, prefix);
      assert e1[..0] + e1[1..] == e1[1..];
      MatchingPathsSplitAt(dataDir, e2, k, prefix);
    }
  }

  /** The default presets do not depend on the order in which the directory lists its files. */
  lemma DefaultSettingsIgnoreListingOrder(moving: MovingModality, flavor: Flavor, dataDir: string, e1: seq<string>, e2: seq<string>)
    requires multiset(e1) == multiset(e2)
    ensures GetSettings(None, moving, flavor, dataDir, e1) == GetSettings(None, moving, flavor, dataDir, e2)
  {
    MatchingPathsPermutation(dataDir, e1, e2, PresetPrefix(moving, flavor));
    SortedUnique(GetSettings(None, moving, flavor, dataDir, e1), GetSettings(None, moving, flavor, dataDir, e2));
  }
}
