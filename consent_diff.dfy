/** The change test of `setTrackingPreference` in apps/web/app/AppProviders.tsx:
    two `some`/`includes` scans over the prior and the new consent lists, and the
    set-level meaning they have (a non-empty symmetric difference). */
module ConsentDiff {

  /** The categories a consent list mentions; order and duplicates are forgotten. */
  ghost function Elems<C>(list: seq<C>): set<C>
  {
    set x | x in list
  }

  /** Reference definition: the categories in exactly one of the two lists. */
  ghost function SymmetricDifference<C>(a: seq<C>, b: seq<C>): set<C>
  {
    (Elems(a) - Elems(b)) + (Elems(b) - Elems(a))
  }

  /** A material change: some category was added or withdrawn. */
  ghost predicate Changed<C>(prior: seq<C>, next: seq<C>)
  {
    SymmetricDifference(prior, next) != {}
  }

  /** `list.includes(x)`: a left-to-right scan for an element equal to `x`. */
  function Includes<C(==)>(list: seq<C>, x: C): (r: bool)
    ensures r <==> x in list
  {
    if list == [] then false else list[0] == x || Includes(list[1..], x)
  }

  /** `from.some((elem) => !within.includes(elem))`: some element of `from`
      is absent from `within`. */
  function SomeMissing<C(==)>(from: seq<C>, within: seq<C>): (r: bool)
    ensures r <==> exists x :: x in from && x !in within
  {
    if from == [] then false
    else
      !Includes(within, from[0]) || SomeMissing(from[1..], within)
  }

  /** `preferencesChanged`: the prior list holds a category the new one lacks,
      or the new list holds one the prior lacks. */
  function PreferencesChanged<C(==)>(prior: seq<C>, next: seq<C>): (r: bool)
    ensures r <==> Changed(prior, next)
  {
    SomeMissingIsSetDifference(prior, next);
    SomeMissingIsSetDifference(next, prior);
    SomeMissing(prior, next) || SomeMissing(next, prior)
  }

  /** One scan finds a missing element exactly when the set difference is non-empty. */
  lemma SomeMissingIsSetDifference<C>(from: seq<C>, within: seq<C>)
    ensures SomeMissing(from, within) <==> Elems(from) - Elems(within) != {}
  {
    if SomeMissing(from, within) {
      var x :| x in from && x !in within;
      assert x in Elems(from) - Elems(within);
    }
    if Elems(from) - Elems(within) != {} {
      var x :| x in Elems(from) - Elems(within);
      assert x in from && x !in within;
    }
  }

  /** Changed is the same as the two lists naming different category sets. */
  lemma ChangedIffElemsDiffer<C>(prior: seq<C>, next: seq<C>)
    ensures Changed(prior, next) <==> Elems(prior) != Elems(next)
  {
    if Elems(prior) != Elems(next) {
      var x :| (x in Elems(prior)) != (x in Elems(next));
      assert x in SymmetricDifference(prior, next);
    }
  }

  /** The test does not care which list came first. */
  lemma ChangedIsSymmetric<C>(a: seq<C>, b: seq<C>)
    ensures PreferencesChanged(a, b) == PreferencesChanged(b, a)
  {
  }

  /** The result depends only on which categories each list mentions, so
      reordering a list or repeating an entry never alters it. */
  lemma ChangedDependsOnlyOnElems<C>(a: seq<C>, a': seq<C>, b: seq<C>, b': seq<C>)
    requires Elems(a) == Elems(a') && Elems(b) == Elems(b')
    ensures PreferencesChanged(a, b) == PreferencesChanged(a', b')
  {
  }

  /** Re-confirming the same categories, in any order and with any repeats,
      is never a change; in particular a list is never changed from itself. */
  lemma ReconfirmationIsNoChange<C>(prior: seq<C>, next: seq<C>)
    requires Elems(prior) == Elems(next)
    ensures !PreferencesChanged(prior, next)
  {
  }

  /** Granting a category not held before is a change. */
  lemma PureAdditionIsChange<C>(prior: seq<C>, next: seq<C>)
    requires Elems(prior) < Elems(next)
    ensures PreferencesChanged(prior, next)
  {
  }

  /** Withdrawing a category held before is a change. */
  lemma PureRemovalIsChange<C>(prior: seq<C>, next: seq<C>)
    requires Elems(next) < Elems(prior)
    ensures PreferencesChanged(prior, next)
  {
  }

  /** The four concrete cases: addition, removal, identity and a disjoint swap. */
  lemma ConcreteCases()
    ensures PreferencesChanged(["analytics"], ["analytics", "performance"])
    ensures PreferencesChanged(["analytics", "performance"], ["analytics"])
    ensures !PreferencesChanged(["analytics"], ["analytics"])
    ensures PreferencesChanged(["analytics"], ["performance"])
    ensures !PreferencesChanged(["performance", "analytics", "analytics"], ["analytics", "performance"])
  {
  }
}
