/** The two invariants every run is held to: convergence of all views to the
    authoritative state, and monotone applied versions on each surface. */
module Invariants {
  import opened Options
  import opened SimModel

  datatype View = View(data: Data, version: int)

  datatype Authoritative = Authoritative(data: Data, version: int)

  /** Why a view is not the authoritative state, in the order it is looked for. */
  datatype Reason = WrongVersion | WrongSize | MissingKey(key: nat) | WrongValue(key: nat)

  datatype Divergence = Divergence(view: nat, reason: Reason)

  ghost predicate Presents(auth: Authoritative, v: View) {
    v.version == auth.version && v.data == auth.data
  }

  ghost predicate Converged(auth: Authoritative, views: seq<View>) {
    forall i :: 0 <= i < |views| ==> Presents(auth, views[i])
  }

  ghost predicate AgreeOn(auth: Data, data: Data, k: nat) {
    k in auth ==> k in data && data[k] == auth[k]
  }

  /** The reason is true of the view, and it is the first one that is. */
  ghost predicate Explains(auth: Authoritative, v: View, r: Reason) {
    match r
    case WrongVersion => v.version != auth.version
    case WrongSize => v.version == auth.version && |v.data| != |auth.data|
    case MissingKey(k) =>
      && v.version == auth.version && |v.data| == |auth.data|
      && k in auth.data && k !in v.data && forall j :: 0 <= j < k ==> AgreeOn(auth.data, v.data, j)
    case WrongValue(k) =>
      && v.version == auth.version && |v.data| == |auth.data|
      && k in auth.data && k in v.data && v.data[k] != auth.data[k]
      && forall j :: 0 <= j < k ==> AgreeOn(auth.data, v.data, j)
  }

  ghost predicate StrictlyAscending(ks: seq<nat>) {
    forall i, j :: 0 <= i < j < |ks| ==> ks[i] < ks[j]
  }

  function Insert(ks: seq<nat>, k: nat): (r: seq<nat>)
    ensures forall x :: x in r <==> x in ks || x == k
    ensures StrictlyAscending(ks) && k !in ks ==> StrictlyAscending(r)
  {
    if |ks| == 0 then [k]
    else if k < ks[0] then [k] + ks
    else
      assert ks == [ks[0]] + ks[1..];
      var rest := Insert(ks[1..], k);
      assert forall m :: 0 <= m < |rest| ==> rest[m] in rest;
      [ks[0]] + rest
  }

  method SortedKeys(m: Data) returns (ks: seq<nat>)
    ensures StrictlyAscending(ks)
    ensures forall k :: k in ks <==> k in m
  {
    ks := [];
    var rest := m.Keys;
    while rest != {}
      invariant rest <= m.Keys
      invariant StrictlyAscending(ks)
      invariant forall k :: k in ks <==> k in m && k !in rest
      decreases |rest|
    {
      var k :| k in rest;
      rest := rest - {k};
      ks := Insert(ks, k);
    }
  }

  /** A part that is as large as the whole is the whole. */
  lemma SameSizeSameKeys(a: set<nat>, b: set<nat>)
    requires a <= b && |a| == |b|
    ensures a == b
  {
    assert b == a + (b - a);
  }

  /** Equal size and agreement on every authoritative key is equality. */
  lemma AgreementIsEquality(auth: Data, data: Data)
    requires |data| == |auth| && forall k :: AgreeOn(auth, data, k)
    ensures data == auth
  {
    assert |data.Keys| == |auth.Keys|;
    forall k | k in auth ensures k in data.Keys {
      assert AgreeOn(auth, data, k);
    }
    SameSizeSameKeys(auth.Keys, data.Keys);
    forall k | k in auth ensures data[k] == auth[k] {
      assert AgreeOn(auth, data, k);
    }
  }

  /** One view against the authoritative state. */
  method CheckView(auth: Authoritative, v: View) returns (reason: Option<Reason>)
    ensures reason.None? <==> Presents(auth, v)
    ensures reason.Some? ==> Explains(auth, v, reason.value)
  {
    if v.version != auth.version {
      return Some(WrongVersion);
    }
    if |v.data| != |auth.data| {
      return Some(WrongSize);
    }
    var ks := SortedKeys(auth.data);
    for n := 0 to |ks|
      invariant forall m :: 0 <= m < n ==> AgreeOn(auth.data, v.data, ks[m])
    {
      var k := ks[n];
      assert k in ks && k in auth.data;
      forall j | 0 <= j < k ensures AgreeOn(auth.data, v.data, j) {
        if j in auth.data {
          assert j in ks;
          var m :| 0 <= m < |ks| && ks[m] == j;
          assert AgreeOn(auth.data, v.data, ks[m]);
        }
      }
      if k !in v.data {
        return Some(MissingKey(k));
      }
      if v.data[k] != auth.data[k] {
        return Some(WrongValue(k));
      }
    }
    forall k ensures AgreeOn(auth.data, v.data, k) {
      if k in auth.data {
        assert k in ks;
        var m :| 0 <= m < |ks| && ks[m] == k;
      }
    }
    AgreementIsEquality(auth.data, v.data);
    return None;
  }

  /** The convergence check reports nothing exactly when all views have
      converged, and otherwise names the first one that has not, and why. */
  method CheckConvergence(auth: Authoritative, views: seq<View>) returns (err: Option<Divergence>)
    ensures err.None? <==> Converged(auth, views)
    ensures err.Some? ==>
      && err.value.view < |views|
      && Converged(auth, views[..err.value.view])
      && Explains(auth, views[err.value.view], err.value.reason)
  {
    for i := 0 to |views|
      invariant Converged(auth, views[..i])
    {
      var reason := CheckView(auth, views[i]);
      if reason.Some? {
        return Some(Divergence(i, reason.value));
      }
      assert views[..i + 1] == views[..i] + [views[i]];
    }
    assert views[..|views|] == views;
    return None;
  }

  ghost predicate NonDecreasing(versions: seq<nat>) {
    forall i, j :: 0 <= i < j < |versions| ==> versions[i] <= versions[j]
  }

  /** The ordering check reports nothing exactly when the history never
      decreases, and otherwise the first place where it does. */
  method CheckMonotonic(versions: seq<nat>) returns (err: Option<nat>)
    ensures err.None? <==> NonDecreasing(versions)
    ensures err.Some? ==>
      && 1 <= err.value < |versions|
      && versions[err.value] < versions[err.value - 1]
      && NonDecreasing(versions[..err.value])
  {
    var i := 1;
    while i < |versions|
      invariant 1 <= i
      invariant i <= |versions| ==> NonDecreasing(versions[..i])
      invariant |versions| <= 1 || i <= |versions|
    {
      if versions[i] < versions[i - 1] {
        return Some(i);
      }
      i := i + 1;
    }
    assert |versions| >= 1 ==> versions[..|versions|] == versions;
    return None;
  }
}
