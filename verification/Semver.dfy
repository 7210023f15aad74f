/** Version precedence and the registry's choice of the newest stable tag
    (internal/registry/resolver.go). */
module Semver {
  import opened Wrappers

  /** A pre-release identifier: numeric or alphanumeric. */
  datatype Identifier = Numeric(n: nat) | Alpha(s: string)

  datatype Version = Version(major: nat, minor: nat, patch: nat, pre: seq<Identifier>)

  datatype Order = Less | Same | Greater

  /** How tags are parsed is the semver library's business: tags arrive with a parser. */
  type Parser = string -> Option<Version>

  function CompareNat(a: nat, b: nat): Order {
    if a < b then Less else if b < a then Greater else Same
  }

  /** ASCII order on identifiers. */
  function CompareText(a: string, b: string): Order {
    if a == [] then (if b == [] then Same else Less)
    else if b == [] then Greater
    else if a[0] == b[0] then CompareText(a[1..], b[1..])
    else if a[0] < b[0] then Less
    else Greater
  }

  /** Numeric identifiers rank below alphanumeric ones. */
  function CompareIdentifier(a: Identifier, b: Identifier): Order {
    match (a, b)
    case (Numeric(m), Numeric(n)) => CompareNat(m, n)
    case (Numeric(_), Alpha(_)) => Less
    case (Alpha(_), Numeric(_)) => Greater
    case (Alpha(s), Alpha(t)) => CompareText(s, t)
  }

  /** Identifier lists are compared left to right; a longer list wins over its prefix. */
  function CompareList(a: seq<Identifier>, b: seq<Identifier>): Order {
    if a == [] then (if b == [] then Same else Less)
    else if b == [] then Greater
    else if CompareIdentifier(a[0], b[0]).Same? then CompareList(a[1..], b[1..])
    else CompareIdentifier(a[0], b[0])
  }

  /** A version without pre-release part outranks the same version with one. */
  function ComparePre(a: seq<Identifier>, b: seq<Identifier>): Order {
    if a == [] && b == [] then Same
    else if a == [] then Greater
    else if b == [] then Less
    else CompareList(a, b)
  }

  /** Precedence of section 11 of Semantic Versioning 2.0.0. */
  function Compare(a: Version, b: Version): Order {
    if a.major != b.major then CompareNat(a.major, b.major)
    else if a.minor != b.minor then CompareNat(a.minor, b.minor)
    else if a.patch != b.patch then CompareNat(a.patch, b.patch)
    else ComparePre(a.pre, b.pre)
  }

  predicate Below(a: Version, b: Version) {
    Compare(a, b).Less?
  }

  function Flip(o: Order): Order {
    match o case Less => Greater case Same => Same case Greater => Less
  }

  lemma {:induction false} TextSame(a: string, b: string)
    ensures CompareText(a, b).Same? <==> a == b
  {
    if a != [] && b != [] && a[0] == b[0] {
      TextSame(a[1..], b[1..]);
      assert a == [a[0]] + a[1..] && b == [b[0]] + b[1..];
    }
  }

  lemma {:induction false} TextFlip(a: string, b: string)
    ensures CompareText(b, a) == Flip(CompareText(a, b))
  {
    if a != [] && b != [] && a[0] == b[0] {
      TextFlip(a[1..], b[1..]);
    }
  }

  lemma {:induction false} TextTransitive(a: string, b: string, c: string)
    requires CompareText(a, b).Less? && CompareText(b, c).Less?
    ensures CompareText(a, c).Less?
  {
    if a != [] && a[0] == b[0] && b[0] == c[0] {
      TextTransitive(a[1..], b[1..], c[1..]);
    }
  }

  lemma IdentifierOrder(a: Identifier, b: Identifier, c: Identifier)
    ensures CompareIdentifier(a, b).Same? <==> a == b
    ensures CompareIdentifier(b, a) == Flip(CompareIdentifier(a, b))
    ensures CompareIdentifier(a, b).Less? && CompareIdentifier(b, c).Less? ==> CompareIdentifier(a, c).Less?
  {
    if a.Alpha? && b.Alpha? {
      TextSame(a.s, b.s);
      TextFlip(a.s, b.s);
      if c.Alpha? && CompareText(a.s, b.s).Less? && CompareText(b.s, c.s).Less? {
        TextTransitive(a.s, b.s, c.s);
      }
    }
  }

  lemma {:induction false} ListOrder(a: seq<Identifier>, b: seq<Identifier>)
    ensures CompareList(a, b).Same? <==> a == b
    ensures CompareList(b, a) == Flip(CompareList(a, b))
  {
    if a != [] && b != [] {
      IdentifierOrder(a[0], b[0], a[0]);
      ListOrder(a[1..], b[1..]);
      assert a == [a[0]] + a[1..] && b == [b[0]] + b[1..];
    }
  }

  lemma {:induction false} ListTransitive(a: seq<Identifier>, b: seq<Identifier>, c: seq<Identifier>)
    requires CompareList(a, b).Less? && CompareList(b, c).Less?
    ensures CompareList(a, c).Less?
  {
    if a != [] && b != [] && c != [] {
      IdentifierOrder(a[0], b[0], c[0]);
      IdentifierOrder(b[0], c[0], a[0]);
      if a[0] == b[0] && b[0] == c[0] {
        ListTransitive(a[1..], b[1..], c[1..]);
      }
    }
  }

  /** Precedence is a strict total order on versions: build metadata is not part of a Version. */
  lemma PrecedenceIsTotalOrder(a: Version, b: Version, c: Version)
    ensures Compare(a, b).Same? <==> a == b
    ensures Compare(b, a) == Flip(Compare(a, b))
    ensures Below(a, b) && Below(b, c) ==> Below(a, c)
  {
    ListOrder(a.pre, b.pre);
    ListOrder(b.pre, c.pre);
    if CompareList(a.pre, b.pre).Less? && CompareList(b.pre, c.pre).Less? {
      ListTransitive(a.pre, b.pre, c.pre);
    }
  }

  // ----- the rules of section 11 -----

  /** Rule 4.4 for identifiers, and the order of letters within one: the first difference decides, and a
      proper prefix comes first. */
  ghost predicate FirstDifference<T>(a: seq<T>, b: seq<T>, less: (T, T) -> bool) {
    exists k: nat :: k <= |a| && k < |b| && a[..k] == b[..k] && (k == |a| || less(a[k], b[k]))
  }

  /** Rules 4.1 to 4.3: numbers by value, text by its letters, numbers before text. */
  ghost predicate IdentifierPrecedes(a: Identifier, b: Identifier) {
    || (a.Numeric? && b.Numeric? && a.n < b.n)
    || (a.Numeric? && b.Alpha?)
    || (a.Alpha? && b.Alpha? && FirstDifference(a.s, b.s, (x: char, y: char) => x < y))
  }

  /** Rules 2 to 4: major, minor and patch in this order, and a pre-release before its release. */
  ghost predicate Precedes(a: Version, b: Version) {
    || a.major < b.major
    || (a.major == b.major && a.minor < b.minor)
    || (a.major == b.major && a.minor == b.minor && a.patch < b.patch)
    || (a.major == b.major && a.minor == b.minor && a.patch == b.patch && PrePrecedes(a.pre, b.pre))
  }

  ghost predicate PrePrecedes(a: seq<Identifier>, b: seq<Identifier>) {
    || (a != [] && b == [])
    || (a != [] && b != [] && exists k: nat :: PreDiffers(a, b, k))
  }

  ghost predicate PreDiffers(a: seq<Identifier>, b: seq<Identifier>, k: nat) {
    k <= |a| && k < |b| && a[..k] == b[..k] && (k == |a| || IdentifierPrecedes(a[k], b[k]))
  }

  lemma PrefixesDiffer<T>(a: seq<T>, b: seq<T>, k: nat)
    requires a != [] && b != [] && a[0] != b[0] && k <= |a| && k <= |b|
    ensures a[..k] == b[..k] ==> k == 0
  {
    assert k > 0 ==> a[..k][0] == a[0] && b[..k][0] == b[0];
  }

  lemma {:induction false} TextByRule(a: string, b: string)
    ensures CompareText(a, b).Less? <==> FirstDifference(a, b, (x: char, y: char) => x < y)
  {
    var less := (x: char, y: char) => x < y;
    if b == [] {
    } else if a == [] {
      assert a[..0] == b[..0];
    } else if a[0] != b[0] {
      assert a[..0] == b[..0];
      forall k: nat | k <= |a| && k < |b| ensures a[..k] == b[..k] ==> k == 0 {
        PrefixesDiffer(a, b, k);
      }
    } else {
      TextByRule(a[1..], b[1..]);
      if k: nat :| k <= |a[1..]| && k < |b[1..]| && a[1..][..k] == b[1..][..k] && (k == |a[1..]| || less(a[1..][k], b[1..][k])) {
        assert a[..k + 1] == [a[0]] + a[1..][..k] && b[..k + 1] == [b[0]] + b[1..][..k];
      }
      if k: nat :| k <= |a| && k < |b| && a[..k] == b[..k] && (k == |a| || less(a[k], b[k])) {
        assert k > 0;
        assert a[1..][..k - 1] == a[..k][1..] && b[1..][..k - 1] == b[..k][1..];
      }
    }
  }

  lemma {:induction false} IdentifierByRule(a: Identifier, b: Identifier)
    ensures CompareIdentifier(a, b).Less? <==> IdentifierPrecedes(a, b)
  {
    if a.Alpha? && b.Alpha? {
      TextByRule(a.s, b.s);
    }
  }

  lemma {:induction false} ListByRule(a: seq<Identifier>, b: seq<Identifier>)
    ensures CompareList(a, b).Less? <==> exists k: nat :: PreDiffers(a, b, k)
  {
    if b == [] {
    } else if a == [] {
      assert PreDiffers(a, b, 0);
    } else {
      IdentifierByRule(a[0], b[0]);
      IdentifierOrder(a[0], b[0], a[0]);
      IdentifierOrder(a[0], a[0], a[0]);
      IdentifierByRule(a[0], a[0]);
      if a[0] != b[0] {
        ListDiffersAtOnce(a, b);
      } else {
        ListByRule(a[1..], b[1..]);
        ListDiffersLater(a, b);
      }
    }
  }

  lemma {:induction false} ListDiffersAtOnce(a: seq<Identifier>, b: seq<Identifier>)
    requires a != [] && b != [] && a[0] != b[0]
    ensures (exists k: nat :: PreDiffers(a, b, k)) <==> IdentifierPrecedes(a[0], b[0])
  {
    if IdentifierPrecedes(a[0], b[0]) {
      assert a[..0] == b[..0];
      assert PreDiffers(a, b, 0);
    }
    if k: nat :| PreDiffers(a, b, k) {
      PrefixesDiffer(a, b, k);
    }
  }

  lemma {:induction false} ListDiffersLater(a: seq<Identifier>, b: seq<Identifier>)
    requires a != [] && b != [] && a[0] == b[0] && !IdentifierPrecedes(a[0], b[0])
    ensures (exists k: nat :: PreDiffers(a, b, k)) <==> (exists k: nat :: PreDiffers(a[1..], b[1..], k))
  {
    if k: nat :| PreDiffers(a[1..], b[1..], k) {
      assert a[..k + 1] == [a[0]] + a[1..][..k] && b[..k + 1] == [b[0]] + b[1..][..k];
      assert PreDiffers(a, b, k + 1);
    }
    if k: nat :| PreDiffers(a, b, k) {
      assert a[1..][..k - 1] == a[..k][1..] && b[1..][..k - 1] == b[..k][1..];
      assert PreDiffers(a[1..], b[1..], k - 1);
    }
  }

  /** One version is below another exactly by the rules of section 11 of Semantic Versioning 2.0.0. */
  lemma {:induction false} BelowByRule(a: Version, b: Version)
    ensures Below(a, b) <==> Precedes(a, b)
  {
    ListByRule(a.pre, b.pre);
  }

  // ----- the registry's answer -----

  predicate Stable(parse: Parser, constraint: Option<Version -> bool>, tag: string) {
    var v := parse(tag);
    v.Some? && v.value.pre == [] && (constraint.Some? ==> constraint.value(v.value))
  }

  /** `tags[k]` is the first of the newest stable tags. */
  predicate Newest(parse: Parser, constraint: Option<Version -> bool>, tags: seq<string>, k: nat)
    requires k < |tags|
  {
    && Stable(parse, constraint, tags[k])
    && (forall j :: 0 <= j < |tags| && Stable(parse, constraint, tags[j]) ==>
          !Below(parse(tags[k]).value, parse(tags[j]).value))
    && (forall j :: 0 <= j < k && Stable(parse, constraint, tags[j]) ==>
          Below(parse(tags[j]).value, parse(tags[k]).value))
  }

  /** The selection loop of LatestSemver: None is the "no stable semver tags" error. */
  method LatestSemver(parse: Parser, constraint: Option<Version -> bool>, tags: seq<string>)
    returns (answer: Option<string>)
    ensures answer.None? <==> forall j :: 0 <= j < |tags| ==> !Stable(parse, constraint, tags[j])
    ensures answer.Some? ==> exists k :: 0 <= k < |tags| && answer.value == tags[k] && Newest(parse, constraint, tags, k)
    ensures answer.Some? ==> answer.value in tags && Releases(parse, constraint, answer.value)
    ensures answer.Some? ==> forall j :: 0 <= j < |tags| && Releases(parse, constraint, tags[j]) ==>
      NoLater(parse(tags[j]).value, parse(answer.value).value)
    ensures answer.None? ==> forall j :: 0 <= j < |tags| ==> !Releases(parse, constraint, tags[j])
    ensures answer == Answer(parse, constraint, tags)
  {
    var best: Option<Version> := None;
    var bestRaw := "";
    ghost var at: nat := 0;
    for i := 0 to |tags|
      invariant best.None? ==> forall j :: 0 <= j < i ==> !Stable(parse, constraint, tags[j])
      invariant best.Some? ==> at < i && bestRaw == tags[at] && best == parse(tags[at])
                               && Newest(parse, constraint, tags[..i], at)
      invariant Answer(parse, constraint, tags[..i]) == if best.Some? then Some(bestRaw) else None
    {
      assert tags[..i + 1] == tags[..i] + [tags[i]];
      var v := parse(tags[i]);
      if v.None? { continue; }
      if v.value.pre != [] { continue; }
      if constraint.Some? && !constraint.value(v.value) { continue; }
      if best.None? || Below(best.value, v.value) {
        if best.Some? {
          forall j | 0 <= j < i && Stable(parse, constraint, tags[j])
            ensures Below(parse(tags[j]).value, v.value)
          {
            assert tags[..i][j] == tags[j];
            PrecedenceIsTotalOrder(parse(tags[j]).value, best.value, v.value);
          }
        }
        PrecedenceIsTotalOrder(v.value, v.value, v.value);
        best, bestRaw, at := v, tags[i], i;
      }
    }
    assert tags[..|tags|] == tags;
    if best.Some? {
      forall j | 0 <= j < |tags| && Releases(parse, constraint, tags[j])
        ensures NoLater(parse(tags[j]).value, best.value)
      {
        assert Stable(parse, constraint, tags[j]);
        BelowByRule(best.value, parse(tags[j]).value);
      }
    }
    return if best.Some? then Some(bestRaw) else None;
  }

  /** The tag is a version without pre-release part that the constraint admits. */
  predicate Releases(parse: Parser, constraint: Option<Version -> bool>, tag: string) {
    parse(tag).Some? && |parse(tag).value.pre| == 0 && (constraint.None? || constraint.value(parse(tag).value))
  }

  /** By major, then minor, then patch. */
  predicate NoLater(u: Version, v: Version) {
    u.major < v.major || (u.major == v.major && (u.minor < v.minor || (u.minor == v.minor && u.patch <= v.patch)))
  }

  /** The answer is the newest tag. */
  lemma {:induction false} NewestIsAnswer(parse: Parser, constraint: Option<Version -> bool>, tags: seq<string>, k: nat)
    requires k < |tags| && Newest(parse, constraint, tags, k)
    ensures Answer(parse, constraint, tags) == Some(tags[k])
  {
    var n := |tags| - 1;
    var init := tags[..n];
    if k < n {
      assert Newest(parse, constraint, init, k) by {
        assert forall j :: 0 <= j < |init| ==> init[j] == tags[j];
      }
      NewestIsAnswer(parse, constraint, init, k);
    } else {
      AnswerIsStable(parse, constraint, init);
      var before := Answer(parse, constraint, init);
      if before.Some? {
        var j :| 0 <= j < |init| && init[j] == before.value;
        assert tags[j] == before.value;
      }
    }
  }

  /** The answer as a function of the tag list, folded from the left. */
  function Answer(parse: Parser, constraint: Option<Version -> bool>, tags: seq<string>): Option<string> {
    if tags == [] then None
    else
      var before := Answer(parse, constraint, tags[..|tags| - 1]);
      var tag := tags[|tags| - 1];
      if !Stable(parse, constraint, tag) then before
      else if before.Some? && parse(before.value).Some? && !Below(parse(before.value).value, parse(tag).value)
      then before
      else Some(tag)
  }

  lemma {:induction false} AnswerIsStable(parse: Parser, constraint: Option<Version -> bool>, tags: seq<string>)
    ensures var a := Answer(parse, constraint, tags); a.Some? ==> Stable(parse, constraint, a.value) && a.value in tags
  {
    if tags != [] {
      AnswerIsStable(parse, constraint, tags[..|tags| - 1]);
    }
  }

  /** A registry that only gains tags never answers lower, and answers a version of the
      same precedence with the very same tag. */
  lemma {:induction false} AppendOnlyAnswersAscend(parse: Parser, constraint: Option<Version -> bool>,
                                                   tags: seq<string>, more: seq<string>)
    requires Answer(parse, constraint, tags).Some?
    ensures var a, b := Answer(parse, constraint, tags), Answer(parse, constraint, tags + more);
            && b.Some? && parse(a.value).Some? && parse(b.value).Some?
            && !Below(parse(b.value).value, parse(a.value).value)
            && (parse(a.value) == parse(b.value) ==> a == b)
  {
    AnswerIsStable(parse, constraint, tags);
    var a := parse(Answer(parse, constraint, tags).value).value;
    PrecedenceIsTotalOrder(a, a, a);
    if more == [] {
      assert tags + more == tags;
    } else {
      var init := more[..|more| - 1];
      AppendOnlyAnswersAscend(parse, constraint, tags, init);
      assert (tags + more)[..|tags + more| - 1] == tags + init;
      var b := parse(Answer(parse, constraint, tags + init).value).value;
      var last := parse(more[|more| - 1]);
      if last.Some? {
        PrecedenceIsTotalOrder(a, b, last.value);
        PrecedenceIsTotalOrder(b, a, last.value);
        PrecedenceIsTotalOrder(b, last.value, a);
      }
    }
  }
}
