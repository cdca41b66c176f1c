/**
 The part of the `URLSearchParams` interface (section 6.2 of the WHATWG URL
 Standard) that the search box uses: a list of name-value pairs, `set`,
 `delete` and the `application/x-www-form-urlencoded` serializer behind
 `toString`.
 */
module UrlSearchParams {

  type Pair = (string, string)

  /** How many entries of `ps` are named `name`. */
  function Count(ps: seq<Pair>, name: string): nat {
    if |ps| == 0 then 0
    else (if ps[0].0 == name then 1 else 0) + Count(ps[1..], name)
  }

  /** The entries of `ps` named `name`, in their order. */
  function Only(ps: seq<Pair>, name: string): seq<Pair> {
    if |ps| == 0 then []
    else (if ps[0].0 == name then [ps[0]] else []) + Only(ps[1..], name)
  }

  /** `a` is `b` with some entries left out and the rest in their order. */
  ghost predicate IsSubsequence(a: seq<Pair>, b: seq<Pair>) {
    |a| == 0 || (|b| > 0 && ((a[0] == b[0] && IsSubsequence(a[1..], b[1..])) || IsSubsequence(a, b[1..])))
  }

  /** The index of the first entry named `name`. */
  function FirstIndex(ps: seq<Pair>, name: string): (k: nat)
    requires Count(ps, name) > 0
    ensures k < |ps| && ps[k].0 == name
    ensures Count(ps[..k], name) == 0
  {
    if ps[0].0 == name then 0
    else
      var k := 1 + FirstIndex(ps[1..], name);
      assert ps[1..][..k - 1] == ps[1..k];
      assert ps[..k] == [ps[0]] + ps[1..k];
      k
  }

  /** `delete(name)`: remove every entry named `name`. What remains is the
      other entries, each name's entries unchanged and in order. */
  function Delete(ps: seq<Pair>, name: string): (r: seq<Pair>)
    ensures Count(r, name) == 0
    ensures forall m :: m != name ==> Only(r, m) == Only(ps, m)
    ensures IsSubsequence(r, ps)
  {
    if |ps| == 0 then []
    else if ps[0].0 == name then Delete(ps[1..], name)
    else [ps[0]] + Delete(ps[1..], name)
  }

  /** `set(name, value)`: when an entry named `name` exists, give the first
      one the value and remove the others; otherwise append a new entry. */
  function Set(ps: seq<Pair>, name: string, value: string): (r: seq<Pair>)
    ensures Count(ps, name) == 0 ==> r == ps + [(name, value)]
    ensures Count(ps, name) > 0 ==>
      var k := FirstIndex(ps, name);
      r == ps[..k] + [(name, value)] + Delete(ps[k + 1..], name)
  {
    if Count(ps, name) == 0 then ps + [(name, value)] else SetFirst(ps, name, value)
  }

  /** `Set` when an entry named `name` exists, walking to the first one. */
  function SetFirst(ps: seq<Pair>, name: string, value: string): (r: seq<Pair>)
    requires Count(ps, name) > 0
    ensures var k := FirstIndex(ps, name);
      r == ps[..k] + [(name, value)] + Delete(ps[k + 1..], name)
  {
    if ps[0].0 == name then [(name, value)] + Delete(ps[1..], name)
    else
      var k := FirstIndex(ps[1..], name);
      assert ps[1..][..k] == ps[1..k + 1];
      assert ps[1..][k + 1..] == ps[k + 2..];
      assert ps[..k + 1] == [ps[0]] + ps[1..k + 1];
      [ps[0]] + SetFirst(ps[1..], name, value)
  }

  lemma {:induction false} CountAppend(a: seq<Pair>, b: seq<Pair>, name: string)
    ensures Count(a + b, name) == Count(a, name) + Count(b, name)
  {
    if |a| > 0 {
      assert (a + b)[1..] == a[1..] + b;
      CountAppend(a[1..], b, name);
    } else {
      assert a + b == b;
    }
  }

  /** No more entries carry a name than there are entries. */
  lemma {:induction false} CountBound(ps: seq<Pair>, name: string)
    ensures Count(ps, name) <= |ps|
  {
    if |ps| > 0 {
      CountBound(ps[1..], name);
    }
  }

  lemma {:induction false} OnlyAppend(a: seq<Pair>, b: seq<Pair>, name: string)
    ensures Only(a + b, name) == Only(a, name) + Only(b, name)
  {
    if |a| > 0 {
      assert (a + b)[1..] == a[1..] + b;
      OnlyAppend(a[1..], b, name);
    } else {
      assert a + b == b;
    }
  }

  /** Deleting a name that does not occur changes nothing. */
  lemma {:induction false} DeleteAbsent(ps: seq<Pair>, name: string)
    requires Count(ps, name) == 0
    ensures Delete(ps, name) == ps
  {
    if |ps| > 0 {
      DeleteAbsent(ps[1..], name);
    }
  }

  /** After `set`, exactly one entry carries the name, and it carries the
      given value. */
  lemma {:induction false} SetLeavesOneEntry(ps: seq<Pair>, name: string, value: string)
    ensures Count(Set(ps, name, value), name) == 1
    ensures Only(Set(ps, name, value), name) == [(name, value)]
  {
    var r := Set(ps, name, value);
    if Count(ps, name) == 0 {
      CountAppend(ps, [(name, value)], name);
      OnlyAppend(ps, [(name, value)], name);
      OnlyNone(ps, name);
    } else {
      var k := FirstIndex(ps, name);
      var tail := Delete(ps[k + 1..], name);
      CountAppend(ps[..k] + [(name, value)], tail, name);
      CountAppend(ps[..k], [(name, value)], name);
      OnlyAppend(ps[..k] + [(name, value)], tail, name);
      OnlyAppend(ps[..k], [(name, value)], name);
      OnlyNone(ps[..k], name);
      OnlyNone(tail, name);
    }
  }

  lemma {:induction false} OnlyNone(ps: seq<Pair>, name: string)
    requires Count(ps, name) == 0
    ensures Only(ps, name) == []
  {
    if |ps| > 0 {
      OnlyNone(ps[1..], name);
    }
  }

  /** `set` leaves every other name's entries as they were, in order. */
  lemma {:induction false} SetKeepsOthers(ps: seq<Pair>, name: string, value: string, m: string)
    requires m != name
    ensures Only(Set(ps, name, value), m) == Only(ps, m)
  {
    if Count(ps, name) == 0 {
      OnlyAppend(ps, [(name, value)], m);
    } else {
      var k := FirstIndex(ps, name);
      var tail := Delete(ps[k + 1..], name);
      OnlyAppend(ps[..k] + [(name, value)], tail, m);
      OnlyAppend(ps[..k], [(name, value)], m);
      assert ps == ps[..k] + [ps[k]] + ps[k + 1..];
      OnlyAppend(ps[..k] + [ps[k]], ps[k + 1..], m);
      OnlyAppend(ps[..k], [ps[k]], m);
    }
  }

  /** Setting the same name to the same value twice is setting it once. */
  lemma {:induction false} SetIdempotent(ps: seq<Pair>, name: string, value: string)
    ensures Set(Set(ps, name, value), name, value) == Set(ps, name, value)
  {
    var r := Set(ps, name, value);
    SetLeavesOneEntry(ps, name, value);
    var k := FirstIndex(r, name);
    assert r == r[..k] + [r[k]] + r[k + 1..];
    CountAppend(r[..k] + [r[k]], r[k + 1..], name);
    CountAppend(r[..k], [r[k]], name);
    OnlyAppend(r[..k] + [r[k]], r[k + 1..], name);
    OnlyAppend(r[..k], [r[k]], name);
    OnlyNone(r[..k], name);
    assert Only([r[k]], name) == [r[k]] by {
      assert [r[k]][1..] == [];
    }
    assert Only(r, name) == [r[k]] + Only(r[k + 1..], name);
    assert r[k] == Only(r, name)[0] == (name, value);
    DeleteAbsent(r[k + 1..], name);
  }

  lemma {:induction false} DeleteAppend(a: seq<Pair>, b: seq<Pair>, name: string)
    ensures Delete(a + b, name) == Delete(a, name) + Delete(b, name)
  {
    if |a| > 0 {
      assert (a + b)[1..] == a[1..] + b;
      DeleteAppend(a[1..], b, name);
    } else {
      assert a + b == b;
    }
  }

  /** `set` keeps every entry of another name, in the original order
      across all names: deleting `name` afterwards gives what deleting it
      before would. */
  lemma {:induction false} SetKeepsOthersInOrder(ps: seq<Pair>, name: string, value: string)
    ensures Delete(Set(ps, name, value), name) == Delete(ps, name)
  {
    var single := [(name, value)];
    assert Delete(single, name) == [] by {
      assert single[1..] == [];
    }
    if Count(ps, name) == 0 {
      DeleteAppend(ps, single, name);
    } else {
      var k := FirstIndex(ps, name);
      var tail := Delete(ps[k + 1..], name);
      DeleteAppend(ps[..k] + single, tail, name);
      DeleteAppend(ps[..k], single, name);
      DeleteAbsent(tail, name);
      assert Delete([ps[k]], name) == [] by {
        assert [ps[k]][1..] == [];
      }
      assert ps == ps[..k] + [ps[k]] + ps[k + 1..];
      DeleteAppend(ps[..k] + [ps[k]], ps[k + 1..], name);
      DeleteAppend(ps[..k], [ps[k]], name);
    }
  }

  /** Deleting a name twice is deleting it once. */
  lemma DeleteIdempotent(ps: seq<Pair>, name: string)
    ensures Delete(Delete(ps, name), name) == Delete(ps, name)
  {
  }

  /** One serialized entry, `name=value`, each side passed through the
      form-urlencoded percent-encoder `encode`. */
  function SerializePair(p: Pair, encode: string -> string): string {
    encode(p.0) + "=" + encode(p.1)
  }

  /** `toString()`: the serialized entries joined with `&`. */
  function Serialize(ps: seq<Pair>, encode: string -> string): (s: string)
    ensures s == "" <==> |ps| == 0
  {
    if |ps| == 0 then ""
    else if |ps| == 1 then SerializePair(ps[0], encode)
    else SerializePair(ps[0], encode) + "&" + Serialize(ps[1..], encode)
  }
}
