/** The cursor event atlas: thirty tile descriptors flattened from ten effect
    groups, with ids built from the effect, the index in the group and a slug
    of the title, and the per-tile pointer state machine. */
module CursorEventAtlas {
  import opened Numeric
  import opened Host
  import opened Text
  import opened CursorContext

  datatype Effect = Echo | Magnet | Pulse | Vortex | Cascade | Shimmer | Warp | Flare | Orbit | Turbine

  function EffectName(e: Effect): (r: string)
    ensures |r| > 0 && forall i :: 0 <= i < |r| ==> IsLower(r[i])
  {
    match e
    case Echo => "echo"
    case Magnet => "magnet"
    case Pulse => "pulse"
    case Vortex => "vortex"
    case Cascade => "cascade"
    case Shimmer => "shimmer"
    case Warp => "warp"
    case Flare => "flare"
    case Orbit => "orbit"
    case Turbine => "turbine"
  }

  function EffectOrdinal(e: Effect): nat
  {
    match e
    case Echo => 0 case Magnet => 1 case Pulse => 2 case Vortex => 3 case Cascade => 4
    case Shimmer => 5 case Warp => 6 case Flare => 7 case Orbit => 8 case Turbine => 9
  }

  /** Different effects have different names. */
  lemma EffectNameInjective(a: Effect, b: Effect)
    requires EffectName(a) == EffectName(b)
    ensures a == b
  {
    var n := EffectName(a);
    match a
    case Echo => assert n[0] == 'e';
    case Magnet => assert n[1] == 'a';
    case Pulse => assert n[0] == 'p';
    case Vortex => assert n[0] == 'v';
    case Cascade => assert n[1] == 'a';
    case Shimmer => assert n[0] == 's';
    case Warp => assert n[1] == 'a';
    case Flare => assert n[0] == 'f';
    case Orbit => assert |n| == 5 && n[0] == 'o';
    case Turbine => assert n[0] == 't';
  }

  datatype Item = Item(title: string, tagline: string, accent: int, depth: real)

  datatype Group = Group(effect: Effect, items: seq<Item>)

  datatype Descriptor = Descriptor(
    id: string, title: string, tagline: string, effect: Effect, accent: int, depth: real)

  // ---------------------------------------------------------------------
  // Slugs

  /** Drops the leading run of characters outside `[a-z0-9]`. */
  function DropRun(s: string): (r: string)
    ensures |r| <= |s| && r == s[|s| - |r|..]
    ensures r == [] || IsSlugChar(r[0])
    ensures forall i :: 0 <= i < |s| - |r| ==> !IsSlugChar(s[i])
  {
    if s == [] || IsSlugChar(s[0]) then s else DropRun(s[1..])
  }

  /** `replace(/[^a-z0-9]+/g, '-')`: each maximal run of characters outside
      `[a-z0-9]` becomes a single dash. */
  function Slug(s: string): (r: string)
    ensures s == [] <==> r == []
    ensures s != [] && IsSlugChar(s[0]) ==> r[0] == s[0]
    ensures s != [] && !IsSlugChar(s[0]) ==> r[0] == '-'
    ensures forall i :: 0 <= i < |r| ==> IsSlugChar(r[i]) || r[i] == '-'
    ensures forall i :: 0 <= i < |r| - 1 ==> r[i] != '-' || r[i + 1] != '-'
    decreases |s|
  {
    if s == [] then []
    else if IsSlugChar(s[0]) then
      var rest := Slug(s[1..]);
      ConsKeepsSlugShape(s[0], rest);
      [s[0]] + rest
    else
      var rest := Slug(DropRun(s[1..]));
      ConsKeepsSlugShape('-', rest);
      "-" + rest
  }

  /** Putting a slug character, or a dash before a part that does not start
      with one, in front of a slug keeps it a slug. */
  lemma ConsKeepsSlugShape(c: char, rest: string)
    requires IsSlugChar(c) || (c == '-' && (rest == [] || rest[0] != '-'))
    requires forall i :: 0 <= i < |rest| ==> IsSlugChar(rest[i]) || rest[i] == '-'
    requires forall i :: 0 <= i < |rest| - 1 ==> rest[i] != '-' || rest[i + 1] != '-'
    ensures forall i :: 0 <= i < |rest| + 1 ==> IsSlugChar(([c] + rest)[i]) || ([c] + rest)[i] == '-'
    ensures forall i :: 0 <= i < |rest| ==> ([c] + rest)[i] != '-' || ([c] + rest)[i + 1] != '-'
  {
    var r := [c] + rest;
    forall i | 0 <= i < |rest| ensures r[i] != '-' || r[i + 1] != '-' {
      if i > 0 {
        assert r[i] == rest[i - 1] && r[i + 1] == rest[i];
      }
    }
  }

  /** The characters of the class `[a-z0-9]`, in order. */
  function Kept(s: string): (r: string)
    ensures forall i :: 0 <= i < |r| ==> IsSlugChar(r[i])
  {
    if s == [] then [] else (if IsSlugChar(s[0]) then [s[0]] else []) + Kept(s[1..])
  }

  lemma {:induction false} KeptDropRun(s: string)
    ensures Kept(DropRun(s)) == Kept(s)
  {
    if s != [] && !IsSlugChar(s[0]) {
      KeptDropRun(s[1..]);
    }
  }

  /** The slug loses no letter or digit and reorders nothing: only runs of
      other characters are rewritten. */
  lemma {:induction false} SlugKeepsAlphanumerics(s: string)
    ensures Kept(Slug(s)) == Kept(s)
    decreases |s|
  {
    if s != [] {
      if IsSlugChar(s[0]) {
        SlugKeepsAlphanumerics(s[1..]);
        assert Slug(s) == [s[0]] + Slug(s[1..]);
        assert Kept(Slug(s)) == [s[0]] + Kept(Slug(s[1..]));
      } else {
        KeptDropRun(s[1..]);
        SlugKeepsAlphanumerics(DropRun(s[1..]));
        assert Slug(s) == "-" + Slug(DropRun(s[1..]));
        assert Kept(Slug(s)) == Kept(Slug(DropRun(s[1..])));
      }
    }
  }

  /** Skipping a run stops where the run ends, whatever follows it. */
  lemma {:induction false} DropRunAppend(x: string, y: string)
    requires DropRun(x) != []
    ensures DropRun(x + y) == DropRun(x) + y
  {
    assert (x + y)[0] == x[0];
    if !IsSlugChar(x[0]) {
      assert (x + y)[1..] == x[1..] + y;
      DropRunAppend(x[1..], y);
    }
  }

  /** A run of characters outside `[a-z0-9]` in front of `y` is skipped
      entirely when `y` starts with a `[a-z0-9]` character or is empty. */
  lemma {:induction false} DropRunSkips(x: string, y: string)
    requires forall i :: 0 <= i < |x| ==> !IsSlugChar(x[i])
    requires y == [] || IsSlugChar(y[0])
    ensures DropRun(x + y) == y
  {
    if x != [] {
      assert (x + y)[0] == x[0];
      assert (x + y)[1..] == x[1..] + y;
      DropRunSkips(x[1..], y);
    } else {
      assert x + y == y;
    }
  }

  /** A string of `[a-z0-9]` characters is its own slug. */
  lemma {:induction false} SlugKeepsSlugChars(s: string)
    requires forall i :: 0 <= i < |s| ==> IsSlugChar(s[i])
    ensures Slug(s) == s
  {
    if s != [] {
      SlugKeepsSlugChars(s[1..]);
    }
  }

  /** Slugging splits after a `[a-z0-9]` character: what precedes it and what
      follows it are slugged independently. */
  lemma {:induction false} SlugSplitsAfterSlugChar(x: string, y: string)
    requires x == [] || IsSlugChar(x[|x| - 1])
    ensures Slug(x + y) == Slug(x) + Slug(y)
    decreases |x|, 1
  {
    if x == [] {
      assert x + y == y;
    } else if IsSlugChar(x[0]) {
      SplitAfterKeptHead(x, y);
    } else {
      SplitAfterDashHead(x, y);
    }
  }

  /** The split when `x` opens with a kept character. */
  lemma {:induction false} SplitAfterKeptHead(x: string, y: string)
    requires x != [] && IsSlugChar(x[0]) && IsSlugChar(x[|x| - 1])
    ensures Slug(x + y) == Slug(x) + Slug(y)
    decreases |x|, 0
  {
    assert (x + y)[0] == x[0];
    assert (x + y)[1..] == x[1..] + y;
    SlugSplitsAfterSlugChar(x[1..], y);
    ConcatAssoc([x[0]], Slug(x[1..]), Slug(y));
  }

  lemma ConcatAssoc(a: string, b: string, c: string)
    ensures a + (b + c) == (a + b) + c
  {
  }

  /** The split when `x` opens with a run that becomes a dash. */
  lemma {:induction false} SplitAfterDashHead(x: string, y: string)
    requires x != [] && !IsSlugChar(x[0]) && IsSlugChar(x[|x| - 1])
    ensures Slug(x + y) == Slug(x) + Slug(y)
    decreases |x|, 0
  {
    assert (x + y)[0] == x[0];
    assert (x + y)[1..] == x[1..] + y;
    var rest := DropRun(x[1..]);
    assert x[1..][|x[1..]| - 1] == x[|x| - 1];
    DropRunAppend(x[1..], y);
    SlugSplitsAfterSlugChar(rest, y);
    ConcatAssoc("-", Slug(rest), Slug(y));
  }

  /** A maximal run of characters outside `[a-z0-9]` becomes exactly one
      dash. */
  lemma SlugCollapsesRun(x: string, y: string)
    requires x != [] && forall i :: 0 <= i < |x| ==> !IsSlugChar(x[i])
    requires y == [] || IsSlugChar(y[0])
    ensures Slug(x + y) == "-" + Slug(y)
  {
    assert (x + y)[0] == x[0];
    assert (x + y)[1..] == x[1..] + y;
    DropRunSkips(x[1..], y);
  }

  /** Only `[a-z0-9]` characters and dashes. */
  predicate IdChars(s: string)
  {
    forall i :: 0 <= i < |s| ==> IsSlugChar(s[i]) || s[i] == '-'
  }

  lemma IdCharsJoin(a: string, b: string)
    requires IdChars(a) && IdChars(b)
    ensures IdChars(a + b)
  {
    forall i | 0 <= i < |a + b| ensures IsSlugChar((a + b)[i]) || (a + b)[i] == '-' {
      if i >= |a| {
        assert (a + b)[i] == b[i - |a|];
      }
    }
  }

  /** `${effect}-${index}-${slug}` with the title lower-cased first: the id
      opens with the effect name and a dash, and holds only `[a-z0-9]`
      characters and dashes. */
  function DescriptorId(e: Effect, index: nat, title: string): (r: string)
    ensures |r| > |EffectName(e)| && r[..|EffectName(e)|] == EffectName(e) && r[|EffectName(e)|] == '-'
    ensures IdChars(r)
  {
    var name := EffectName(e);
    var digits := NatToString(index);
    DigitsAreIdChars(digits);
    IdShape(name, digits, Slug(Lowercase(title)));
    name + "-" + digits + "-" + Slug(Lowercase(title))
  }

  lemma DigitsAreIdChars(digits: string)
    requires forall c :: c in digits ==> IsDigit(c)
    ensures IdChars(digits)
  {
    forall i | 0 <= i < |digits| ensures IsDigit(digits[i]) {
      assert digits[i] in digits;
    }
  }

  /** Three parts of `[a-z0-9]` characters and dashes joined by dashes. */
  lemma IdShape(name: string, digits: string, slug: string)
    requires forall i :: 0 <= i < |name| ==> IsLower(name[i])
    requires IdChars(digits) && IdChars(slug)
    ensures var r := name + "-" + digits + "-" + slug;
            |r| > |name| && r[..|name|] == name && r[|name|] == '-' && IdChars(r)
  {
    IdCharsJoin(name, "-");
    IdCharsJoin(name + "-", digits);
    IdCharsJoin(name + "-" + digits, "-");
    IdCharsJoin(name + "-" + digits + "-", slug);
    var r := name + "-" + digits + "-" + slug;
    assert r == name + ("-" + digits + "-" + slug);
  }

  /** A lower-case word followed by a dash is recovered from the front of the
      string: it ends at the first dash. */
  lemma PrefixBeforeDash(a: string, x: string, b: string, y: string)
    requires forall i :: 0 <= i < |a| ==> IsLower(a[i])
    requires forall i :: 0 <= i < |b| ==> IsLower(b[i])
    requires a + "-" + x == b + "-" + y
    ensures a == b && x == y
  {
    var s := a + "-" + x;
    assert s[|a|] == '-' && s[|b|] == '-';
    assert |a| == |b|;
    assert a == s[..|a|] && b == s[..|b|];
    assert x == s[|a| + 1..] && y == s[|b| + 1..];
  }

  /** The name and the digit are recovered from `name-digit-rest`. */
  lemma SplitId(n1: string, d1: char, r1: string, n2: string, d2: char, r2: string)
    requires forall i :: 0 <= i < |n1| ==> IsLower(n1[i])
    requires forall i :: 0 <= i < |n2| ==> IsLower(n2[i])
    requires n1 + "-" + [d1] + "-" + r1 == n2 + "-" + [d2] + "-" + r2
    ensures n1 == n2 && d1 == d2
  {
    var x1, x2 := [d1] + "-" + r1, [d2] + "-" + r2;
    assert n1 + "-" + [d1] + "-" + r1 == n1 + "-" + x1;
    assert n2 + "-" + [d2] + "-" + r2 == n2 + "-" + x2;
    PrefixBeforeDash(n1, x1, n2, x2);
    assert x1[0] == d1 && x2[0] == d2;
  }

  /** An id determines its effect and its in-group index. */
  lemma IdInjective(e1: Effect, i1: nat, t1: string, e2: Effect, i2: nat, t2: string)
    requires i1 < 10 && i2 < 10
    requires DescriptorId(e1, i1, t1) == DescriptorId(e2, i2, t2)
    ensures e1 == e2 && i1 == i2
  {
    SingleDigit(i1, i2);
    SingleDigit(i2, i1);
    SplitId(EffectName(e1), DigitChar(i1), Slug(Lowercase(t1)), EffectName(e2), DigitChar(i2), Slug(Lowercase(t2)));
    EffectNameInjective(e1, e2);
  }

  // ---------------------------------------------------------------------
  // Descriptors

  /** The descriptor of item `index` of a group: the group's effect, the
      item's fields unchanged, and the composed id. */
  function Describe(g: Group, index: nat): (d: Descriptor)
    requires index < |g.items|
    ensures d.effect == g.effect
    ensures d.title == g.items[index].title && d.tagline == g.items[index].tagline
    ensures d.accent == g.items[index].accent && d.depth == g.items[index].depth
    ensures d.id == DescriptorId(g.effect, index, g.items[index].title)
  {
    var item := g.items[index];
    Descriptor(DescriptorId(g.effect, index, item.title), item.title, item.tagline, g.effect, item.accent, item.depth)
  }

  /** The descriptors of one group, `items.map((item, index) => ...)`. */
  function DescribeGroup(g: Group): (r: seq<Descriptor>)
    ensures |r| == |g.items|
    ensures forall k :: 0 <= k < |r| ==> r[k] == Describe(g, k)
  {
    seq(|g.items|, k requires 0 <= k < |g.items| => Describe(g, k))
  }

  function Flatten<T>(xss: seq<seq<T>>): seq<T>
  {
    if xss == [] then [] else xss[0] + Flatten(xss[1..])
  }

  predicate Uniform<T>(xss: seq<seq<T>>, n: nat)
  {
    forall g :: 0 <= g < |xss| ==> |xss[g]| == n
  }

  lemma MulStep(g: nat, n: nat)
    requires g > 0
    ensures g * n == n + (g - 1) * n
  {
  }

  lemma MulBelow(g: nat, k: nat, n: nat, total: nat)
    requires g < total && k < n
    ensures g * n + k < total * n
  {
    assert total * n == (total - g - 1) * n + g * n + n;
    assert (total - g - 1) * n >= 0;
  }

  lemma UniformTail<T>(xss: seq<seq<T>>, n: nat)
    requires Uniform(xss, n) && xss != []
    ensures Uniform(xss[1..], n)
  {
    forall g | 0 <= g < |xss| - 1 ensures |xss[1..][g]| == n {
      assert xss[1..][g] == xss[g + 1];
    }
  }

  lemma {:induction false} FlattenLength<T>(xss: seq<seq<T>>, n: nat)
    requires Uniform(xss, n)
    ensures |Flatten(xss)| == |xss| * n
  {
    if xss != [] {
      UniformTail(xss, n);
      FlattenLength(xss[1..], n);
      MulStep(|xss|, n);
    }
  }

  /** With `n` elements in every part, element `g * n + k` of the flattening
      is element `k` of part `g`. */
  lemma {:induction false} FlattenAt<T>(xss: seq<seq<T>>, n: nat, g: nat, k: nat)
    requires Uniform(xss, n) && g < |xss| && k < n
    ensures g * n + k < |Flatten(xss)| && Flatten(xss)[g * n + k] == xss[g][k]
  {
    FlattenLength(xss, n);
    MulBelow(g, k, n, |xss|);
    if g == 0 {
      assert g * n == 0;
    } else {
      UniformTail(xss, n);
      var m := (g - 1) * n;
      FlattenAt(xss[1..], n, g - 1, k);
      MulStep(g, n);
      assert xss[1..][g - 1] == xss[g];
      assert Flatten(xss) == xss[0] + Flatten(xss[1..]);
    }
  }

  /** Every element of every part is in the flattening. */
  lemma {:induction false} FlattenHas<T>(xss: seq<seq<T>>, g: nat, k: nat)
    requires g < |xss| && k < |xss[g]|
    ensures xss[g][k] in Flatten(xss)
  {
    if g > 0 {
      assert xss[1..][g - 1] == xss[g];
      FlattenHas(xss[1..], g - 1, k);
    }
  }

  /** Every element of the flattening comes from some part. */
  lemma {:induction false} FlattenFrom<T>(xss: seq<seq<T>>, x: T)
    requires x in Flatten(xss)
    ensures exists g, k :: 0 <= g < |xss| && 0 <= k < |xss[g]| && xss[g][k] == x
  {
    if x in xss[0] {
      var k :| 0 <= k < |xss[0]| && xss[0][k] == x;
      assert xss[0][k] == x;
    } else {
      FlattenFrom(xss[1..], x);
      var g, k :| 0 <= g < |xss[1..]| && 0 <= k < |xss[1..][g]| && xss[1..][g][k] == x;
      assert xss[g + 1][k] == x;
    }
  }

  /** `flatMap` of the groups. */
  function Describes(gs: seq<Group>): seq<Descriptor>
  {
    Flatten(seq(|gs|, i requires 0 <= i < |gs| => DescribeGroup(gs[i])))
  }

  /** The flattened list holds the descriptor of every item of every group,
      and nothing else. */
  lemma DescribesExactly(gs: seq<Group>)
    ensures forall g, k :: 0 <= g < |gs| && 0 <= k < |gs[g].items| ==> Describe(gs[g], k) in Describes(gs)
    ensures forall d :: d in Describes(gs) ==>
              exists g, k :: 0 <= g < |gs| && 0 <= k < |gs[g].items| && d == Describe(gs[g], k)
  {
    var parts := seq(|gs|, i requires 0 <= i < |gs| => DescribeGroup(gs[i]));
    forall g, k | 0 <= g < |gs| && 0 <= k < |gs[g].items|
      ensures Describe(gs[g], k) in Flatten(parts)
    {
      FlattenHas(parts, g, k);
    }
    forall d | d in Flatten(parts)
      ensures exists g, k :: 0 <= g < |gs| && 0 <= k < |gs[g].items| && d == Describe(gs[g], k)
    {
      FlattenFrom(parts, d);
      var g, k :| 0 <= g < |parts| && 0 <= k < |parts[g]| && parts[g][k] == d;
      assert d == Describe(gs[g], k);
    }
  }

  predicate SameSize(gs: seq<Group>, n: nat)
  {
    forall g :: 0 <= g < |gs| ==> |gs[g].items| == n
  }

  /** With `n` items per group, the groups describe `|gs| * n` tiles, and
      descriptor `g * n + k` is item `k` of group `g`: every item of every
      group, in group order and then item order. */
  lemma DescribesAt(gs: seq<Group>, n: nat, g: nat, k: nat)
    requires SameSize(gs, n) && g < |gs| && k < n
    ensures |Describes(gs)| == |gs| * n
    ensures g * n + k < |Describes(gs)| && Describes(gs)[g * n + k] == Describe(gs[g], k)
  {
    var xss := seq(|gs|, i requires 0 <= i < |gs| => DescribeGroup(gs[i]));
    assert Uniform(xss, n);
    FlattenLength(xss, n);
    FlattenAt(xss, n, g, k);
  }

  /** Two different (group, item) positions give different ids when group
      `g` carries the `g`-th effect and no group has more than ten items. */
  lemma DescribedIdsDiffer(gs: seq<Group>, n: nat, g1: nat, k1: nat, g2: nat, k2: nat)
    requires SameSize(gs, n) && n <= 10
    requires forall g :: 0 <= g < |gs| ==> EffectOrdinal(gs[g].effect) == g
    requires g1 < |gs| && k1 < n && g2 < |gs| && k2 < n && (g1 != g2 || k1 != k2)
    ensures Describe(gs[g1], k1).id != Describe(gs[g2], k2).id
  {
    if Describe(gs[g1], k1).id == Describe(gs[g2], k2).id {
      IdInjective(gs[g1].effect, k1, gs[g1].items[k1].title, gs[g2].effect, k2, gs[g2].items[k2].title);
    }
  }

  /** An index below `total * n` splits into a part and an offset. */
  lemma Decompose(i: nat, n: nat, total: nat)
    requires 0 < n && i < total * n
    ensures i / n < total && i % n < n && i == (i / n) * n + i % n
  {
    if i / n >= total {
      MulMonotone(total, i / n, n);
    }
  }

  /** Descriptor `i` is item `i % n` of group `i / n`. */
  lemma DescribesAtIndex(gs: seq<Group>, n: nat, i: nat)
    requires SameSize(gs, n) && 0 < n && i < |gs| * n
    ensures 0 <= i / n < |gs| && 0 <= i % n < n
    ensures |Describes(gs)| == |gs| * n && Describes(gs)[i] == Describe(gs[i / n], i % n)
  {
    Decompose(i, n, |gs|);
    DescribesAt(gs, n, i / n, i % n);
  }

  lemma DistinctCoordinates(i: nat, j: nat, n: nat)
    requires 0 < n && i != j
    ensures i / n != j / n || i % n != j % n
  {
  }

  /** When group `g` carries the `g`-th effect and no group has more than ten
      items, all descriptor ids differ. */
  lemma DescribedIdsDistinct(gs: seq<Group>, n: nat)
    requires SameSize(gs, n) && 0 < n <= 10
    requires forall g :: 0 <= g < |gs| ==> EffectOrdinal(gs[g].effect) == g
    ensures forall i, j :: 0 <= i < j < |Describes(gs)| ==> Describes(gs)[i].id != Describes(gs)[j].id
  {
    if gs != [] {
      DescribesAt(gs, n, 0, 0);
    }
    forall i, j | 0 <= i < j < |Describes(gs)| ensures Describes(gs)[i].id != Describes(gs)[j].id {
      DescribedIdsDistinctAt(gs, n, i, j);
    }
  }

  lemma DescribedIdsDistinctAt(gs: seq<Group>, n: nat, i: nat, j: nat)
    requires SameSize(gs, n) && 0 < n <= 10
    requires forall g :: 0 <= g < |gs| ==> EffectOrdinal(gs[g].effect) == g
    requires i < j < |gs| * n
    ensures |Describes(gs)| == |gs| * n
    ensures Describes(gs)[i].id != Describes(gs)[j].id
  {
    DescribesAtIndex(gs, n, i);
    DescribesAtIndex(gs, n, j);
    DistinctCoordinates(i, j, n);
    DescribedIdsDiffer(gs, n, i / n, i % n, j / n, j % n);
  }

  lemma MulMonotone(a: nat, b: nat, n: nat)
    requires a <= b
    ensures a * n <= b * n
  {
    assert b * n == a * n + (b - a) * n;
  }

  const EffectGroups: seq<Group> := [
    Group(Echo, [
      Item("Echo Streak", "Trailing photons chase your cursor path.", 212, 0.65),
      Item("Aurora Tether", "Northern lights arc toward pointer momentum.", 188, 0.72),
      Item("Spectral Sweep", "Chromatic blooms follow the velocity vector.", 268, 0.68)]),
    Group(Magnet, [
      Item("Magnet Grove", "Nodes bend and snap toward hover focus.", 152, 0.6),
      Item("Polarity Drift", "Opposing poles light up across the plane.", 8, 0.66),
      Item("Vector Loom", "Directional warp emphasizes your heading.", 38, 0.58)]),
    Group(Pulse, [
      Item("Pulse Bloom", "Radial bursts respond to pressure rhythms.", 324, 0.7),
      Item("Fathom Rift", "Concentric waves echo each drag impulse.", 276, 0.74),
      Item("Chrono Ripple", "Temporal rings dilate with speed spikes.", 232, 0.69)]),
    Group(Vortex, [
      Item("Gyro Vortex", "Swirls pivot based on entry angle.", 204, 0.77),
      Item("Spiral Bloom", "Golden spirals tighten as you orbit.", 48, 0.82),
      Item("Cyclone Loom", "Vector energy folds into circular drift.", 122, 0.76)]),
    Group(Cascade, [
      Item("Cascade Veil", "Falling light cascades toward pointer pull.", 196, 0.6),
      Item("Prism Shower", "Refracted beams align with pointer slope.", 312, 0.64),
      Item("Glacier Slide", "Cool streaks melt under cursor heat.", 188, 0.58)]),
    Group(Shimmer, [
      Item("Stellar Drift", "Starfields shimmer with micro parallax.", 268, 0.72),
      Item("Nebula Flare", "Dust motes scatter with pointer swirl.", 308, 0.78),
      Item("Lumen Flicker", "Micro pulses flicker at hover cadence.", 168, 0.66)]),
    Group(Warp, [
      Item("Warp Lattice", "Grid warps inward where velocity peaks.", 48, 0.7),
      Item("Quantum Fold", "Planar folds follow angular momentum.", 182, 0.68),
      Item("Fabric Bend", "Textile lines bend into ripple funnels.", 10, 0.72)]),
    Group(Flare, [
      Item("Ion Flare", "Flares spike when you tap or press.", 12, 0.66),
      Item("Solar Bloom", "Radiant arcs ignite across the tile.", 46, 0.74),
      Item("Radiant Pulse", "Bloom waves echo with time-delayed fade.", 322, 0.7)]),
    Group(Orbit, [
      Item("Orbital Mesh", "Miniature orbitals magnetize around center.", 192, 0.62),
      Item("Satellite Run", "Satellite beads race along nested paths.", 260, 0.68),
      Item("Halo Drift", "Halo arcs tilt with pointer angle.", 118, 0.64)]),
    Group(Turbine, [
      Item("Turbine Flux", "Turbine fins accelerate with flux gain.", 18, 0.76),
      Item("Vector Turbine", "Directional fins align to heading.", 206, 0.72),
      Item("Helix Spindle", "Helical arms tighten on fast passes.", 286, 0.78)])
  ]

  /** `EVENT_DEFINITIONS`. */
  function EventDefinitions(): seq<Descriptor>
  {
    Describes(EffectGroups)
  }

  /** Ten groups of three items, the g-th carrying the g-th effect. */
  lemma EffectGroupsShape()
    ensures |EffectGroups| == 10 && SameSize(EffectGroups, 3)
    ensures forall g :: 0 <= g < 10 ==> EffectOrdinal(EffectGroups[g].effect) == g
  {
    forall g | 0 <= g < 10
      ensures |EffectGroups[g].items| == 3 && EffectOrdinal(EffectGroups[g].effect) == g
    {
      if g == 0 {} else if g == 1 {} else if g == 2 {} else if g == 3 {} else if g == 4 {}
      else if g == 5 {} else if g == 6 {} else if g == 7 {} else if g == 8 {} else {}
    }
  }

  /** The atlas holds thirty descriptors: descriptor `3 * g + k` is item `k` of
      group `g`, carrying that group's effect. */
  lemma EventDefinitionsLayout(g: nat, k: nat)
    requires g < 10 && k < 3
    ensures |EventDefinitions()| == 30
    ensures EventDefinitions()[3 * g + k] == Describe(EffectGroups[g], k)
  {
    EffectGroupsShape();
    DescribesAt(EffectGroups, 3, g, k);
    assert 3 * g + k == g * 3 + k;
  }

  /** The thirty ids are pairwise distinct, as their use as React keys needs. */
  lemma EventIdsDistinct()
    ensures forall i, j :: 0 <= i < j < |EventDefinitions()| ==> EventDefinitions()[i].id != EventDefinitions()[j].id
  {
    EffectGroupsShape();
    DescribedIdsDistinct(EffectGroups, 3);
  }

  // ---------------------------------------------------------------------
  // Tile pointer state

  datatype TileState = TileState(
    offsetX: real, offsetY: real, angle: real, intensity: real, active: bool, pressed: bool)

  const InitialTileState: TileState := TileState(0.0, 0.0, 0.0, 0.0, false, false)

  /** Pointer move over a tile: the offset from the tile centre in half-widths,
      clamped to [-1, 1] per axis, its length capped at 1 as the intensity;
      the tile becomes active and its pressed flag is kept. */
  function TileMove(prev: TileState, clientX: real, clientY: real, bounds: Rect, math: MathLib): (r: TileState)
    requires math.Valid() && bounds.width > 0.0 && bounds.height > 0.0
    ensures -1.0 <= r.offsetX <= 1.0 && -1.0 <= r.offsetY <= 1.0
    ensures 0.0 <= r.intensity <= 1.0
    ensures r.active && r.pressed == prev.pressed
    ensures var relativeX := (clientX - (bounds.left + bounds.width / 2.0)) / (bounds.width / 2.0);
            -1.0 <= relativeX <= 1.0 ==> r.offsetX == relativeX
    ensures var relativeY := (clientY - (bounds.top + bounds.height / 2.0)) / (bounds.height / 2.0);
            -1.0 <= relativeY <= 1.0 ==> r.offsetY == relativeY
    ensures var relativeX := (clientX - (bounds.left + bounds.width / 2.0)) / (bounds.width / 2.0);
            (relativeX <= -1.0 ==> r.offsetX == -1.0) && (relativeX >= 1.0 ==> r.offsetX == 1.0)
    ensures var relativeY := (clientY - (bounds.top + bounds.height / 2.0)) / (bounds.height / 2.0);
            (relativeY <= -1.0 ==> r.offsetY == -1.0) && (relativeY >= 1.0 ==> r.offsetY == 1.0)
    ensures r.intensity == Min(1.0, math.hypot(r.offsetX, r.offsetY))
    ensures r.angle == math.atan2(r.offsetY, r.offsetX)
  {
    var relativeX := (clientX - (bounds.left + bounds.width / 2.0)) / (bounds.width / 2.0);
    var relativeY := (clientY - (bounds.top + bounds.height / 2.0)) / (bounds.height / 2.0);
    var clampedX := Max(-1.0, Min(1.0, relativeX));
    var clampedY := Max(-1.0, Min(1.0, relativeY));
    var distance := Min(1.0, math.hypot(clampedX, clampedY));
    var angle := math.atan2(clampedY, clampedX);
    prev.(offsetX := clampedX, offsetY := clampedY, angle := angle, intensity := distance, active := true)
  }

  /** Pointer enter: the tile claims the cursor in control mode. */
  function TileEnter(tile: TileState, cursor: State, id: string): (r: (TileState, State))
    ensures r.0 == tile.(active := true)
    ensures r.1.activeTarget == Some(id) && r.1.variant == Control
    ensures r.1.(activeTarget := cursor.activeTarget, variant := cursor.variant) == cursor
  {
    (tile.(active := true), ActivateTarget(cursor, id, Some(Control)))
  }

  /** Pointer leave: the tile resets, its target is cleared only if it is still
      the active one, and the cursor ends in the default mode either way. */
  function TileLeave(tile: TileState, cursor: State, id: string): (r: (TileState, State))
    ensures r.0 == InitialTileState
    ensures r.1.variant == Default
    ensures cursor.activeTarget == Some(id) ==> r.1.activeTarget == None
    ensures cursor.activeTarget != Some(id) ==> r.1.activeTarget == cursor.activeTarget
    ensures r.1.(activeTarget := cursor.activeTarget, variant := cursor.variant) == cursor
  {
    (InitialTileState, SetVariant(DeactivateTarget(cursor, id), Default))
  }

  /** Pointer down: pressed, and the cursor in press mode. */
  function TileDown(tile: TileState, cursor: State): (r: (TileState, State))
    ensures r.0 == tile.(pressed := true)
    ensures r.1 == cursor.(variant := Press)
  {
    (tile.(pressed := true), SetVariant(cursor, Press))
  }

  /** Pointer up: released, and the cursor back in the default mode. */
  function TileUp(tile: TileState, cursor: State): (r: (TileState, State))
    ensures r.0 == tile.(pressed := false)
    ensures r.1 == cursor.(variant := Default)
  {
    (tile.(pressed := false), SetVariant(cursor, Default))
  }

  /** The velocity readout of a tile, capped at 1.6. */
  function TileVelocity(vx: real, vy: real, math: MathLib): (r: real)
    requires math.Valid()
    ensures 0.0 <= r <= 1.6
    ensures math.hypot(vx, vy) * 320.0 <= 1.6 ==> r == math.hypot(vx, vy) * 320.0
    ensures math.hypot(vx, vy) * 320.0 >= 1.6 ==> r == 1.6
  {
    Min(math.hypot(vx, vy) * 320.0, 1.6)
  }
}
