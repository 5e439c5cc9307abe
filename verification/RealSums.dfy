/** Sums of the values of a finite map. The order of summation is irrelevant: any
    key may be split off first. */
module RealSums {
  ghost function Pick(keys: set<string>): (key: string)
    requires keys != {}
    ensures key in keys
  {
    var key :| key in keys; key
  }

  ghost function Sum(m: map<string, real>): real
    decreases |m|
  {
    if m == map[] then 0.0
    else
      assert m.Keys != {} by { var key :| key in m; }
      var key := Pick(m.Keys);
      m[key] + Sum(m - {key})
  }

  /** The value stored under a key, 0 when there is none. */
  function At(m: map<string, real>, key: string): real {
    if key in m then m[key] else 0.0
  }

  lemma {:induction false} SumRemove(m: map<string, real>, key: string)
    ensures Sum(m) == At(m, key) + Sum(m - {key})
    decreases |m|
  {
    if key !in m {
      assert m - {key} == m;
      return;
    }
    assert m.Keys != {};
    var first := Pick(m.Keys);
    if first != key {
      SumRemove(m - {first}, key);
      SumRemove(m - {key}, first);
      assert m - {first} - {key} == m - {key} - {first};
    }
  }

  lemma SumUpdate(m: map<string, real>, key: string, value: real)
    ensures Sum(m[key := value]) == Sum(m) - At(m, key) + value
  {
    SumRemove(m, key);
    SumRemove(m[key := value], key);
    assert m[key := value] - {key} == m - {key};
  }

  lemma {:induction false} SumDifference(x: map<string, real>, y: map<string, real>, z: map<string, real>)
    requires x.Keys == y.Keys == z.Keys
    requires forall key | key in x :: z[key] == x[key] - y[key]
    ensures Sum(z) == Sum(x) - Sum(y)
    decreases |x|
  {
    if x == map[] {
      assert y == map[] && z == map[];
    } else {
      var key :| key in x;
      SumRemove(x, key);
      SumRemove(y, key);
      SumRemove(z, key);
      SumDifference(x - {key}, y - {key}, z - {key});
    }
  }

  lemma {:induction false} SumNonNegative(m: map<string, real>)
    requires forall key | key in m :: m[key] >= 0.0
    ensures Sum(m) >= 0.0
    decreases |m|
  {
    if m != map[] {
      var key :| key in m;
      SumRemove(m, key);
      SumNonNegative(m - {key});
    }
  }

  lemma PartAtMostSum(m: map<string, real>, key: string)
    requires forall other | other in m :: m[other] >= 0.0
    ensures At(m, key) <= Sum(m)
  {
    SumRemove(m, key);
    SumNonNegative(m - {key});
  }

  /** The part of a map whose keys are in a set. */
  function Only(m: map<string, real>, keys: set<string>): map<string, real> {
    map key | key in m && key in keys :: m[key]
  }

  lemma SumOnly(m: map<string, real>, keys: set<string>, key: string)
    requires key in keys
    ensures Sum(Only(m, keys)) == At(m, key) + Sum(Only(m, keys - {key}))
  {
    SumRemove(Only(m, keys), key);
    assert Only(m, keys) - {key} == Only(m, keys - {key});
  }

  lemma OnlyEverything(m: map<string, real>)
    ensures Only(m, m.Keys) == m
  {
  }

  lemma SumOfNothing(m: map<string, real>)
    ensures Sum(Only(m, {})) == 0.0
  {
    assert Only(m, {}) == map[];
  }
}
