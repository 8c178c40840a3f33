/**
 * The deferred list of DocumentDbMetadata: (resource type, raw field name)
 * pairs whose values could not be typed yet. List.Add appends and
 * List.Remove drops the first equal entry. Below(u, n) keeps the entries of
 * types whose names are shorter than n: nested types always have longer names
 * than their owners, so it describes the part of the list a nested call
 * leaves alone.
 */
module Unresolved {

  /** CollectionProperty: a resource type (by name, type names being unique) and the field's raw name. */
  datatype UnresolvedProperty = UnresolvedProperty(typeName: string, propertyName: string)

  predicate NoDuplicates(u: seq<UnresolvedProperty>) {
    forall i, j | 0 <= i < j < |u| :: u[i] != u[j]
  }

  /** unresolvedProperties.Remove(e) */
  function RemoveFirst(u: seq<UnresolvedProperty>, e: UnresolvedProperty): (r: seq<UnresolvedProperty>)
    ensures |r| <= |u|
  {
    if u == [] then []
    else if u[0] == e then u[1..]
    else [u[0]] + RemoveFirst(u[1..], e)
  }

  /** Removing from a list without duplicates removes exactly that entry and keeps the list duplicate-free. */
  lemma {:induction false} RemoveFirstMembers(u: seq<UnresolvedProperty>, e: UnresolvedProperty)
    requires NoDuplicates(u)
    ensures forall x :: x in RemoveFirst(u, e) <==> x in u && x != e
    ensures NoDuplicates(RemoveFirst(u, e))
  {
    if u != [] {
      assert forall x | x in u :: x == u[0] || x in u[1..];
      if u[0] != e {
        assert NoDuplicates(u[1..]) by {
          forall i, j | 0 <= i < j < |u[1..]| ensures u[1..][i] != u[1..][j] {
            assert u[1..][i] == u[i + 1] && u[1..][j] == u[j + 1];
          }
        }
        RemoveFirstMembers(u[1..], e);
        var r := [u[0]] + RemoveFirst(u[1..], e);
        assert u[0] !in u[1..] by {
          forall k | 0 <= k < |u[1..]| ensures u[1..][k] != u[0] {
            assert u[1..][k] == u[k + 1];
          }
        }
        forall i, j | 0 <= i < j < |r| ensures r[i] != r[j] {
          if i == 0 {
            assert r[j] in RemoveFirst(u[1..], e);
          } else {
            assert r[i] == RemoveFirst(u[1..], e)[i - 1] && r[j] == RemoveFirst(u[1..], e)[j - 1];
          }
        }
      } else {
        forall i, j | 0 <= i < j < |u[1..]| ensures u[1..][i] != u[1..][j] {
          assert u[1..][i] == u[i + 1] && u[1..][j] == u[j + 1];
        }
        assert u[0] !in u[1..] by {
          forall k | 0 <= k < |u[1..]| ensures u[1..][k] != u[0] {
            assert u[1..][k] == u[k + 1];
          }
        }
      }
    }
  }

  /**
   * The update RegisterResourceProperty makes for an unknown property: an
   * entry not listed and still untypeable is appended; a listed entry that
   * is now typeable is removed; otherwise nothing changes.
   */
  function Track(u: seq<UnresolvedProperty>, e: UnresolvedProperty, resolvedNow: bool): seq<UnresolvedProperty>
  {
    if e !in u && !resolvedNow then u + [e]
    else if e in u && resolvedNow then RemoveFirst(u, e)
    else u
  }

  /** Tracking keeps the list free of duplicates, and an entry is listed afterwards exactly when it is still untypeable. */
  lemma TrackMembers(u: seq<UnresolvedProperty>, e: UnresolvedProperty, resolvedNow: bool)
    requires NoDuplicates(u)
    ensures NoDuplicates(Track(u, e, resolvedNow))
    ensures e in Track(u, e, resolvedNow) <==> !resolvedNow
    ensures forall x | x != e :: x in Track(u, e, resolvedNow) <==> x in u
  {
    if e in u && resolvedNow {
      RemoveFirstMembers(u, e);
    } else if e !in u && !resolvedNow {
      var r := u + [e];
      forall i, j | 0 <= i < j < |r| ensures r[i] != r[j] {
        if j == |u| {
          assert r[i] in u;
        }
      }
    }
  }

  /** The entries whose type name is shorter than n, in list order. */
  function Below(u: seq<UnresolvedProperty>, n: nat): seq<UnresolvedProperty>
  {
    if u == [] then []
    else (if |u[0].typeName| < n then [u[0]] else []) + Below(u[1..], n)
  }

  lemma {:induction false} BelowAppend(u: seq<UnresolvedProperty>, e: UnresolvedProperty, n: nat)
    ensures Below(u + [e], n) == Below(u, n) + (if |e.typeName| < n then [e] else [])
  {
    if u != [] {
      assert (u + [e])[1..] == u[1..] + [e];
      BelowAppend(u[1..], e, n);
    }
  }

  lemma {:induction false} BelowMembers(u: seq<UnresolvedProperty>, n: nat)
    ensures forall x :: x in Below(u, n) <==> x in u && |x.typeName| < n
  {
    if u != [] {
      BelowMembers(u[1..], n);
      assert forall x | x in u :: x == u[0] || x in u[1..];
    }
  }

  lemma {:induction false} BelowRemove(u: seq<UnresolvedProperty>, e: UnresolvedProperty, n: nat)
    ensures Below(RemoveFirst(u, e), n) == if |e.typeName| < n then RemoveFirst(Below(u, n), e) else Below(u, n)
  {
    if u != [] {
      var head := if |u[0].typeName| < n then [u[0]] else [];
      var rest := Below(u[1..], n);
      assert Below(u, n) == head + rest;
      if u[0] == e {
        if head != [] {
          assert (head + rest)[0] == e && (head + rest)[1..] == rest;
        }
      } else {
        BelowRemove(u[1..], e, n);
        var r := [u[0]] + RemoveFirst(u[1..], e);
        assert r[0] == u[0] && r[1..] == RemoveFirst(u[1..], e);
        assert Below(r, n) == head + Below(RemoveFirst(u[1..], e), n);
        if |e.typeName| < n {
          if head != [] {
            assert (head + rest)[0] != e && (head + rest)[1..] == rest;
            assert RemoveFirst(head + rest, e) == [u[0]] + RemoveFirst(rest, e);
          } else {
            assert head + rest == rest;
          }
        } else {
          assert head + rest == Below(u, n);
        }
      }
    }
  }

  lemma {:induction false} BelowBelow(u: seq<UnresolvedProperty>, m: nat, n: nat)
    requires n <= m
    ensures Below(Below(u, m), n) == Below(u, n)
  {
    if u != [] {
      BelowBelow(u[1..], m, n);
      var head := if |u[0].typeName| < m then [u[0]] else [];
      var rest := Below(u[1..], m);
      assert Below(u, m) == head + rest;
      if head != [] {
        assert (head + rest)[0] == u[0] && (head + rest)[1..] == rest;
        assert Below(head + rest, n) == (if |u[0].typeName| < n then [u[0]] else []) + Below(rest, n);
      } else {
        assert head + rest == rest;
        assert Below(u, n) == [] + Below(u[1..], n);
      }
    }
  }

  /** Tracking an entry of a type shorter than n commutes with Below(_, n). */
  lemma BelowTrack(u: seq<UnresolvedProperty>, e: UnresolvedProperty, resolvedNow: bool, n: nat)
    requires |e.typeName| < n
    ensures Below(Track(u, e, resolvedNow), n) == Track(Below(u, n), e, resolvedNow)
  {
    BelowMembers(u, n);
    if e !in u && !resolvedNow {
      BelowAppend(u, e, n);
    } else if e in u && resolvedNow {
      BelowRemove(u, e, n);
    }
  }

  /** Tracking an entry of a type at least n long leaves Below(_, n) as it was. */
  lemma BelowTrackOut(u: seq<UnresolvedProperty>, e: UnresolvedProperty, resolvedNow: bool, n: nat)
    requires |e.typeName| >= n
    ensures Below(Track(u, e, resolvedNow), n) == Below(u, n)
  {
    if e !in u && !resolvedNow {
      BelowAppend(u, e, n);
    } else if e in u && resolvedNow {
      BelowRemove(u, e, n);
    }
  }

  /** Two lists with the same entries below n agree on whether they hold an entry below n. */
  lemma BelowSameMember(u: seq<UnresolvedProperty>, v: seq<UnresolvedProperty>, n: nat, x: UnresolvedProperty)
    requires Below(u, n) == Below(v, n) && |x.typeName| < n
    ensures x in u <==> x in v
  {
    BelowMembers(u, n);
    BelowMembers(v, n);
  }
}
