/** Python dictionary lookups that may raise `KeyError`.

    Both scripts read a fixed series of keys out of a dictionary, one after
    the other; the first key that is absent raises `KeyError` and nothing
    after it is evaluated. `FirstMissing` names that key. */
module Dict {
  import opened Wrappers

  /** Every key of `keys` is present in `m`. */
  predicate HasAll<V>(keys: seq<string>, m: map<string, V>)
  {
    forall i :: 0 <= i < |keys| ==> keys[i] in m
  }

  /** The first key of `keys`, in order, that `m` lacks: the key a Python
      program looking the keys up in this order raises `KeyError` for. */
  function FirstMissing<V>(keys: seq<string>, m: map<string, V>): (r: Option<string>)
    ensures r.None? <==> HasAll(keys, m)
    ensures r.Some? ==>
      exists i :: 0 <= i < |keys| && keys[i] == r.value && r.value !in m && HasAll(keys[..i], m)
    decreases |keys|
  {
    if |keys| == 0 then None
    else if keys[0] !in m then Some(keys[0])
    else
      var r := FirstMissing(keys[1..], m);
      if r.None? then r
      else
        var i :| 0 <= i < |keys| - 1 && keys[1..][i] == r.value && r.value !in m && HasAll(keys[1..][..i], m);
        assert keys[..i + 1] == [keys[0]] + keys[1..][..i];
        assert HasAll(keys[..i + 1], m);
        r
  }

  /** A key absent from `m` that comes after only present keys is the first
      missing one. */
  lemma {:induction false} FirstMissingAt<V>(keys: seq<string>, m: map<string, V>, i: nat)
    requires i < |keys| && keys[i] !in m && HasAll(keys[..i], m)
    ensures FirstMissing(keys, m) == Some(keys[i])
    decreases i
  {
    if i > 0 {
      assert keys[..i][0] == keys[0];
      assert keys[1..][..i - 1] == keys[..i][1..];
      FirstMissingAt(keys[1..], m, i - 1);
    }
  }

  /** Looking `keys` up one after another fails at the first missing key. */
  lemma FirstMissingConcat<V>(a: seq<string>, b: seq<string>, m: map<string, V>)
    ensures FirstMissing(a + b, m) == if FirstMissing(a, m).Some? then FirstMissing(a, m) else FirstMissing(b, m)
  {
    var ab := a + b;
    match FirstMissing(a, m)
    case Some(k) =>
      var i :| 0 <= i < |a| && a[i] == k && k !in m && HasAll(a[..i], m);
      assert ab[..i] == a[..i];
      FirstMissingAt(ab, m, i);
    case None =>
      match FirstMissing(b, m)
      case Some(k) =>
        var i :| 0 <= i < |b| && b[i] == k && k !in m && HasAll(b[..i], m);
        assert ab[|a| + i] == k;
        assert HasAll(ab[..|a| + i], m) by {
          forall j | 0 <= j < |a| + i ensures ab[j] in m {
            if j < |a| { assert ab[j] == a[j]; }
            else { assert ab[j] == b[..i][j - |a|]; }
          }
        }
        FirstMissingAt(ab, m, |a| + i);
      case None =>
        assert HasAll(ab, m) by {
          forall j | 0 <= j < |ab| ensures ab[j] in m {
            if j < |a| { assert ab[j] == a[j]; } else { assert ab[j] == b[j - |a|]; }
          }
        }
  }

  /** `[m[k] for k in keys]`, raising `KeyError` (here: the failing key) at
      the first missing key. */
  function LookupAll<V>(keys: seq<string>, m: map<string, V>): (r: Result<seq<V>, string>)
    ensures r.Failure? <==> !HasAll(keys, m)
    ensures r.Failure? ==> FirstMissing(keys, m) == Some(r.error)
    ensures r.Success? ==> |r.value| == |keys| && forall i :: 0 <= i < |keys| ==> r.value[i] == m[keys[i]]
    decreases |keys|
  {
    if |keys| == 0 then Success([])
    else if keys[0] !in m then Failure(keys[0])
    else
      match LookupAll(keys[1..], m)
      case Failure(k) => Failure(k)
      case Success(vs) =>
        assert forall i :: 1 <= i < |keys| ==> keys[i] == keys[1..][i - 1];
        Success([m[keys[0]]] + vs)
  }

  /** Looking up two lists of present keys one after the other. */
  lemma LookupAllConcat<V>(a: seq<string>, b: seq<string>, m: map<string, V>)
    requires HasAll(a + b, m)
    ensures HasAll(a, m) && HasAll(b, m)
    ensures LookupAll(a + b, m).value == LookupAll(a, m).value + LookupAll(b, m).value
  {
    assert forall i :: 0 <= i < |a| ==> a[i] == (a + b)[i];
    assert forall i :: 0 <= i < |b| ==> b[i] == (a + b)[|a| + i];
    var l, r := LookupAll(a, m).value, LookupAll(b, m).value;
    assert LookupAll(a + b, m).value == l + r;
  }

  /** Looking up `a + b` fails at the first key of `a` that is absent, else
      at the first of `b`; otherwise it gives the values of `a`, then of `b`. */
  lemma LookupAllAppend<V>(a: seq<string>, b: seq<string>, m: map<string, V>)
    ensures LookupAll(a + b, m) ==
      match LookupAll(a, m)
      case Failure(k) => Failure(k)
      case Success(va) =>
        match LookupAll(b, m)
        case Failure(k) => Failure(k)
        case Success(vb) => Success(va + vb)
  {
    FirstMissingConcat(a, b, m);
    if HasAll(a + b, m) {
      LookupAllConcat(a, b, m);
    }
  }

  /** Looking up a single key. */
  lemma LookupOne<V>(k: string, m: map<string, V>)
    ensures LookupAll([k], m) == if k in m then Success([m[k]]) else Failure(k)
  {
    assert [k][0] == k && [k][1..] == [];
    assert LookupAll([k][1..], m) == Success([]);
    if k in m {
      assert [m[k]] + [] == [m[k]];
    }
  }
}
