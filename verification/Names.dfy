/**
 Names of the objects the ClawAgent controller owns. Every child is called
 `agent + suffix`; this module proves that the encoding is injective inside each
 kind, so two agents never share a child and none of them is the fleet dashboard.
 */
module Names {

  const IDENTITY_SUFFIX := "-identity"
  const SKILLS_SUFFIX := "-skills"
  const OPENCLAW_SUFFIX := "-openclaw-config"
  const OBSERVECLAW_SUFFIX := "-observeclaw-config"
  const HERMES_SUFFIX := "-hermes-config"
  const PVC_SUFFIX := "-home"
  const PVC_RESIZE_SUFFIX := "-home-v2"
  const MIGRATE_POD_SUFFIX := "-pvc-migrate"
  const DASHBOARD_NAME := "fleet-dashboard"

  const CONFIG_MAP_SUFFIXES: set<string> :=
    {IDENTITY_SUFFIX, SKILLS_SUFFIX, OPENCLAW_SUFFIX, OBSERVECLAW_SUFFIX, HERMES_SUFFIX}

  const VOLUME_SUFFIXES: set<string> := {PVC_SUFFIX, PVC_RESIZE_SUFFIX}

  /** The character `k` places before the end. */
  function FromEnd(s: string, k: nat): char
    requires k < |s|
  {
    s[|s| - 1 - k]
  }

  /** Some position counted from the end tells the two strings apart. */
  ghost predicate EndsApart(s: string, t: string) {
    exists k: nat :: k < |s| && k < |t| && FromEnd(s, k) != FromEnd(t, k)
  }

  lemma DistinctEnds(x: string, s: string, y: string, t: string)
    requires EndsApart(s, t)
    ensures x + s != y + t
  {
    var k: nat :| k < |s| && k < |t| && FromEnd(s, k) != FromEnd(t, k);
    assert FromEnd(x + s, k) == FromEnd(s, k);
    assert FromEnd(y + t, k) == FromEnd(t, k);
  }

  lemma SameEnds(x: string, y: string, s: string)
    ensures x + s == y + s ==> x == y
  {
    assert (x + s)[..|(x + s)| - |s|] == x;
    assert (y + s)[..|(y + s)| - |s|] == y;
  }

  lemma ConfigMapSuffixesApart(s: string, t: string)
    requires s in CONFIG_MAP_SUFFIXES && t in CONFIG_MAP_SUFFIXES && s != t
    ensures EndsApart(s, t)
  {
    if FromEnd(s, 0) == FromEnd(t, 0) {
      if s == HERMES_SUFFIX || t == HERMES_SUFFIX {
        assert FromEnd(s, 7) != FromEnd(t, 7);
      } else {
        assert FromEnd(s, 11) != FromEnd(t, 11);
      }
    }
  }

  /** One ConfigMap name belongs to one agent and one role. */
  lemma ConfigMapNamesInjective(x: string, s: string, y: string, t: string)
    requires s in CONFIG_MAP_SUFFIXES && t in CONFIG_MAP_SUFFIXES
    requires x + s == y + t
    ensures x == y && s == t
  {
    if s != t {
      ConfigMapSuffixesApart(s, t);
      DistinctEnds(x, s, y, t);
    } else {
      SameEnds(x, y, s);
    }
  }

  /** One PVC name belongs to one agent and one generation of its home volume. */
  lemma VolumeNamesInjective(x: string, s: string, y: string, t: string)
    requires s in VOLUME_SUFFIXES && t in VOLUME_SUFFIXES
    requires x + s == y + t
    ensures x == y && s == t
  {
    if s != t {
      assert FromEnd(s, 0) != FromEnd(t, 0);
      DistinctEnds(x, s, y, t);
    } else {
      SameEnds(x, y, s);
    }
  }

  /** The shared dashboard ConfigMap is never an agent's own ConfigMap. */
  lemma DashboardIsNoChild(x: string, s: string)
    requires s in CONFIG_MAP_SUFFIXES
    ensures x + s != DASHBOARD_NAME
  {
    assert FromEnd(s, 0) != FromEnd(DASHBOARD_NAME, 0);
    DistinctEnds(x, s, "", DASHBOARD_NAME);
    assert "" + DASHBOARD_NAME == DASHBOARD_NAME;
  }

  /** No two agents share a ConfigMap, a PVC or a migration pod name. */
  lemma AgentsShareNoName(x: string, y: string)
    requires x != y
    ensures forall s, t | s in CONFIG_MAP_SUFFIXES && t in CONFIG_MAP_SUFFIXES :: x + s != y + t
    ensures forall s, t | s in VOLUME_SUFFIXES && t in VOLUME_SUFFIXES :: x + s != y + t
    ensures x + MIGRATE_POD_SUFFIX != y + MIGRATE_POD_SUFFIX
  {
    forall s, t | s in CONFIG_MAP_SUFFIXES && t in CONFIG_MAP_SUFFIXES ensures x + s != y + t {
      if x + s == y + t { ConfigMapNamesInjective(x, s, y, t); }
    }
    forall s, t | s in VOLUME_SUFFIXES && t in VOLUME_SUFFIXES ensures x + s != y + t {
      if x + s == y + t { VolumeNamesInjective(x, s, y, t); }
    }
    SameEnds(x, y, MIGRATE_POD_SUFFIX);
  }
}
