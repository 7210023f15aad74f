/** Detaching the data volume from a deleted instance: the owner references are filtered in the slice
    they are read from (internal/controller/backup.go). */
module OwnerReferences {

  datatype Owner = Owner(uid: string, name: string)

  function Others(refs: seq<Owner>, uid: string): seq<Owner> {
    if refs == [] then []
    else
      var rest, last := Others(refs[..|refs| - 1], uid), refs[|refs| - 1];
      if last.uid != uid then rest + [last] else rest
  }

  /** Nothing of the instance is left and nothing else is lost. */
  lemma {:induction false} OthersAreExact(refs: seq<Owner>, uid: string)
    ensures forall o :: o in Others(refs, uid) <==> o in refs && o.uid != uid
    ensures |Others(refs, uid)| <= |refs| && (|Others(refs, uid)| == |refs| <==> Others(refs, uid) == refs)
  {
    if refs != [] {
      var init, last := refs[..|refs| - 1], refs[|refs| - 1];
      OthersAreExact(init, uid);
      assert refs == init + [last];
    }
  }

  /** The references that stay keep their order and their number: what is kept of a list is what is kept of
      its parts, and of a single reference, itself or nothing. */
  lemma {:induction false} OthersKeepTheirOrder(a: seq<Owner>, b: seq<Owner>, uid: string)
    ensures Others(a + b, uid) == Others(a, uid) + Others(b, uid)
    ensures |a| == 1 ==> Others(a, uid) == if a[0].uid == uid then [] else a
  {
    if b == [] {
      assert a + b == a;
    } else {
      var init, last := b[..|b| - 1], b[|b| - 1];
      assert (a + b)[..|a + b| - 1] == a + init && (a + b)[|a + b| - 1] == last;
      OthersKeepTheirOrder(a, init, uid);
    }
    if |a| == 1 {
      assert a[..0] == [] && a == [] + [a[0]];
    }
  }

  /** A second pass finds nothing to do. */
  lemma {:induction false} OthersTwice(refs: seq<Owner>, uid: string)
    ensures Others(Others(refs, uid), uid) == Others(refs, uid)
  {
    if refs != [] {
      var init, last := refs[..|refs| - 1], refs[|refs| - 1];
      OthersTwice(init, uid);
      var rest := Others(init, uid);
      assert (rest + [last])[..|rest|] == rest;
    }
  }

  /** The loop of orphanPVC: `n` references are kept at the front, and the claim needs an update
      exactly if some reference pointed to the instance. */
  method KeepOthers(refs: array<Owner>, uid: string) returns (n: nat, changed: bool)
    modifies refs
    ensures n <= refs.Length && refs[..n] == Others(old(refs[..]), uid)
    ensures refs[n..] == old(refs[n..])
    ensures changed <==> exists i :: 0 <= i < refs.Length && old(refs[i]).uid == uid
  {
    ghost var was := refs[..];
    n := 0;
    for i := 0 to refs.Length
      invariant n <= i && refs[..n] == Others(was[..i], uid)
      invariant forall j :: n <= j < refs.Length ==> refs[j] == was[j]
      invariant n == i <==> forall j :: 0 <= j < i ==> was[j].uid != uid
    {
      assert was[..i + 1][..i] == was[..i];
      if refs[i].uid != uid {
        refs[n] := refs[i];
        n := n + 1;
      }
    }
    assert was[..refs.Length] == was;
    changed := n != refs.Length;
  }
}
