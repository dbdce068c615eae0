/**
 * release.sh: finding the latest vX.Y.Z tag by sorting zero-padded keys, and bumping it. `sort` is not
 * modelled as an algorithm: the theorems hold of every sorted rearrangement of its input, in the byte
 * order of the C locale.
 */
module Release {
  import opened Text

  datatype Version = Version(major: nat, minor: nat, patch: nat)

  datatype Bump = Patch | Minor | Major

  predicate Less(v: Version, w: Version) {
    || v.major < w.major
    || (v.major == w.major && v.minor < w.minor)
    || (v.major == w.major && v.minor == w.minor && v.patch < w.patch)
  }

  function TagOf(v: Version): string {
    "v" + Join([Decimal(v.major), Decimal(v.minor), Decimal(v.patch)], '.')
  }

  // ----- the pipeline, line by line -----

  /** awk's `a[i]+0`, for a field of digits; a missing field counts as 0. */
  function Field(parts: seq<string>, i: nat): nat {
    if i < |parts| && IsNumeral(parts[i]) then Value(parts[i]) else 0
  }

  /** `printf "%03d"`. */
  function Pad3(n: nat): (s: string)
    ensures IsNumeral(s)
  {
    var d := Decimal(n);
    if |d| == 1 then "00" + d else if |d| == 2 then "0" + d else d
  }

  function StripV(s: string): string {
    if s != [] && s[0] == 'v' then s[1..] else s
  }

  /** The two `sed` substitutions: a trailing `^{}`, then a leading `refs/tags/`. */
  function StripRef(ref: string): string {
    var s := if |ref| >= 3 && ref[|ref| - 3..] == "^{}" then ref[..|ref| - 3] else ref;
    if "refs/tags/" <= s then s[10..] else s
  }

  /** The second awk: the padded key, a blank, the tag. */
  function KeyedLine(tag: string): string {
    var parts := Split(StripV(tag), '.');
    Pad3(Field(parts, 0)) + ("." + (Pad3(Field(parts, 1)) + ("." + (Pad3(Field(parts, 2)) + (" " + tag)))))
  }

  /** The last awk: the second blank-separated field. */
  function SecondField(line: string): string {
    var parts := Split(line, ' ');
    if |parts| > 1 then parts[1] else ""
  }

  function KeyedLines(refs: seq<string>): seq<string> {
    seq(|refs|, i requires 0 <= i < |refs| => KeyedLine(StripRef(refs[i])))
  }

  /** Byte order. */
  predicate LexLe(s: string, t: string) {
    if s == [] then true
    else if t == [] then false
    else s[0] < t[0] || (s[0] == t[0] && LexLe(s[1..], t[1..]))
  }

  ghost predicate SortOutput(lines: seq<string>, sorted: seq<string>) {
    && multiset(sorted) == multiset(lines)
    && forall i, j :: 0 <= i <= j < |sorted| ==> LexLe(sorted[i], sorted[j])
  }

  /** `tail -n1`, the last awk, and the default for an empty list. */
  function LatestTag(sorted: seq<string>): string {
    var tag := if sorted == [] then "" else SecondField(sorted[|sorted| - 1]);
    if tag == "" then "v0.0.0" else tag
  }

  /** `IFS=. read` and the `:-0` defaults, for the tags the arithmetic can read. */
  function ParseVersion(tag: string): Version {
    var parts := Split(StripV(tag), '.');
    Version(Field(parts, 0), Field(parts, 1), Field(parts, 2))
  }

  function Bumped(v: Version, b: Bump): Version {
    match b
    case Patch => v.(patch := v.patch + 1)
    case Minor => Version(v.major, v.minor + 1, 0)
    case Major => Version(v.major + 1, 0, 0)
  }

  function NextTag(sorted: seq<string>, b: Bump): string {
    TagOf(Bumped(ParseVersion(LatestTag(sorted)), b))
  }

  /** The script's own variables, from the parsed tag to NEXT_TAG. */
  method ComputeNextTag(sorted: seq<string>, b: Bump) returns (nextTag: string)
    ensures nextTag == NextTag(sorted, b)
  {
    var latest := ParseVersion(LatestTag(sorted));
    var major, minor, patch := latest.major, latest.minor, latest.patch;
    match b {
      case Patch =>
        patch := patch + 1;
      case Minor =>
        minor := minor + 1;
        patch := 0;
      case Major =>
        major := major + 1;
        minor := 0;
        patch := 0;
    }
    nextTag := "v" + Join([Decimal(major), Decimal(minor), Decimal(patch)], '.');
  }

  // ----- tags and their parts -----

  lemma TagParts(v: Version)
    ensures Split(StripV(TagOf(v)), '.') == [Decimal(v.major), Decimal(v.minor), Decimal(v.patch)]
    ensures ParseVersion(TagOf(v)) == v
  {
    var parts := [Decimal(v.major), Decimal(v.minor), Decimal(v.patch)];
    assert StripV(TagOf(v)) == Join(parts, '.');
    NumeralFree(parts[0], '.');
    NumeralFree(parts[1], '.');
    NumeralFree(parts[2], '.');
    SplitJoin(parts, '.');
    ValueDecimal(v.major);
    ValueDecimal(v.minor);
    ValueDecimal(v.patch);
  }

  lemma TagInjective(v: Version, w: Version)
    requires TagOf(v) == TagOf(w)
    ensures v == w
  {
    TagParts(v);
    TagParts(w);
  }

  function Key(v: Version): string {
    Pad3(v.major) + ("." + (Pad3(v.minor) + ("." + Pad3(v.patch))))
  }

  function LineFrom(v: Version): string {
    Pad3(v.major) + ("." + (Pad3(v.minor) + ("." + (Pad3(v.patch) + (" " + TagOf(v))))))
  }

  lemma LineOfTag(v: Version)
    ensures KeyedLine(TagOf(v)) == LineFrom(v)
  {
    TagParts(v);
    ValueDecimal(v.major);
    ValueDecimal(v.minor);
    ValueDecimal(v.patch);
  }

  lemma LineIsKeyAndTag(v: Version)
    ensures LineFrom(v) == Key(v) + [' '] + TagOf(v)
  {
    var tag := " " + TagOf(v);
    Assoc(Pad3(v.patch), [' '], TagOf(v));
    Assoc(".", Pad3(v.patch), tag);
    Assoc(Pad3(v.minor), "." + Pad3(v.patch), tag);
    Assoc(".", Pad3(v.minor) + ("." + Pad3(v.patch)), tag);
    Assoc(Pad3(v.major), "." + (Pad3(v.minor) + ("." + Pad3(v.patch))), tag);
    Assoc(Key(v), [' '], TagOf(v));
  }

  lemma Assoc(x: string, y: string, z: string)
    ensures (x + y) + z == x + (y + z)
  {
  }

  lemma NoBlanks(v: Version)
    ensures Free(Key(v), ' ') && Free(TagOf(v), ' ')
  {
    NumeralFree(Pad3(v.major), ' ');
    NumeralFree(Pad3(v.minor), ' ');
    NumeralFree(Pad3(v.patch), ' ');
    NumeralFree(Decimal(v.major), ' ');
    NumeralFree(Decimal(v.minor), ' ');
    NumeralFree(Decimal(v.patch), ' ');
    TagShape(v);
  }

  lemma SecondFieldOfLine(v: Version)
    ensures SecondField(KeyedLine(TagOf(v))) == TagOf(v)
  {
    LineOfTag(v);
    NoBlanks(v);
    LineIsKeyAndTag(v);
    SecondOfTwo(Key(v), TagOf(v));
  }

  lemma SecondOfTwo(x: string, y: string)
    requires Free(x, ' ') && Free(y, ' ')
    ensures SecondField(x + [' '] + y) == y
  {
    JoinTwo(x, y, ' ');
    SplitJoin([x, y], ' ');
  }

  // ----- padded keys sort like versions -----

  /** Order within a common length is decided before anything that follows. */
  lemma {:induction false} LexOfFronts(x: string, y: string, s: string, t: string)
    requires |x| == |y|
    ensures LexLe(x + s, y + t) <==> if x == y then LexLe(s, t) else LexLe(x, y)
    decreases |x|
  {
    if x == [] {
      assert x + s == s && y + t == t;
    } else {
      assert (x + s)[1..] == x[1..] + s && (y + t)[1..] == y[1..] + t;
      LexOfFronts(x[1..], y[1..], s, t);
      assert x == [x[0]] + x[1..] && y == [y[0]] + y[1..];
    }
  }

  lemma LexReflexive(s: string)
    ensures LexLe(s, s)
  {
    if s != [] {
      LexReflexive(s[1..]);
    }
  }

  function ThreeDigits(n: nat): string
    requires n <= 999
  {
    [DigitChar(n / 100), DigitChar(n / 10 % 10), DigitChar(n % 10)]
  }

  lemma PadIsThreeDigits(n: nat)
    requires n <= 999
    ensures Pad3(n) == ThreeDigits(n)
  {
    if n < 10 {
      assert Decimal(n) == [DigitChar(n)];
    } else if n < 100 {
      assert Decimal(n / 10) == [DigitChar(n / 10)];
      assert Decimal(n) == [DigitChar(n / 10), DigitChar(n % 10)];
    } else {
      assert n / 10 / 10 == n / 100;
      assert Decimal(n / 100) == [DigitChar(n / 100)];
      assert Decimal(n / 10) == [DigitChar(n / 100), DigitChar(n / 10 % 10)];
      assert Decimal(n) == Decimal(n / 10) + [DigitChar(n % 10)];
    }
  }

  lemma LexOfThree(a: char, b: char, c: char, x: char, y: char, z: char)
    ensures LexLe([a, b, c], [x, y, z]) <==> a < x || (a == x && (b < y || (b == y && c <= z)))
  {
    assert [a, b, c][1..] == [b, c] && [x, y, z][1..] == [y, z];
    assert [b, c][1..] == [c] && [y, z][1..] == [z];
    assert [c][1..] == [] && [z][1..] == [];
    assert LexLe([c], [z]) <==> c <= z;
    assert LexLe([b, c], [y, z]) <==> b < y || (b == y && LexLe([c], [z]));
  }

  lemma DigitsOrder(m: nat, n: nat)
    ensures m <= n <==>
      || m / 100 < n / 100
      || (m / 100 == n / 100 && (m / 10 % 10 < n / 10 % 10 || (m / 10 % 10 == n / 10 % 10 && m % 10 <= n % 10)))
  {
    DigitsOf(m);
    DigitsOf(n);
  }

  lemma DigitsOf(n: nat)
    ensures n == 100 * (n / 100) + 10 * (n / 10 % 10) + n % 10
  {
    assert n / 10 / 10 == n / 100;
  }

  /** A padded component decides the order of what starts with it, unless both are equal. */
  lemma ComponentOrder(m: nat, n: nat, s: string, t: string)
    requires m <= 999 && n <= 999
    ensures LexLe(Pad3(m) + s, Pad3(n) + t) <==> m < n || (m == n && LexLe(s, t))
  {
    PadIsThreeDigits(m);
    PadIsThreeDigits(n);
    LexOfFronts(Pad3(m), Pad3(n), s, t);
    LexOfThree(Pad3(m)[0], Pad3(m)[1], Pad3(m)[2], Pad3(n)[0], Pad3(n)[1], Pad3(n)[2]);
    DigitsOrder(m, n);
    DigitsOf(m);
    DigitsOf(n);
  }

  lemma DotOrder(s: string, t: string)
    ensures LexLe("." + s, "." + t) <==> LexLe(s, t)
  {
    LexOfFronts(".", ".", s, t);
  }

  predicate Small(v: Version) {
    v.major <= 999 && v.minor <= 999 && v.patch <= 999
  }

  /** For components up to 999 the lines sort as the versions do. */
  lemma LineOrder(v: Version, w: Version)
    requires Small(v) && Small(w)
    ensures LexLe(KeyedLine(TagOf(v)), KeyedLine(TagOf(w))) <==> !Less(w, v)
  {
    LineOfTag(v);
    LineOfTag(w);
    var s3, t3 := " " + TagOf(v), " " + TagOf(w);
    var s2, t2 := Pad3(v.patch) + s3, Pad3(w.patch) + t3;
    var s1, t1 := Pad3(v.minor) + ("." + s2), Pad3(w.minor) + ("." + t2);
    ComponentOrder(v.major, w.major, "." + s1, "." + t1);
    DotOrder(s1, t1);
    ComponentOrder(v.minor, w.minor, "." + s2, "." + t2);
    DotOrder(s2, t2);
    ComponentOrder(v.patch, w.patch, s3, t3);
    if v == w {
      LexReflexive(s3);
    }
  }

  // ----- the theorems -----

  /** The refs `git ls-remote` lists for these versions: each tag's, or its peeled `^{}` form. */
  function RefOf(v: Version, peeled: bool): string {
    "refs/tags/" + TagOf(v) + if peeled then "^{}" else ""
  }

  lemma StripRefOf(v: Version, peeled: bool)
    ensures StripRef(RefOf(v, peeled)) == TagOf(v)
  {
    var ref := RefOf(v, peeled);
    var tag := TagOf(v);
    if peeled {
      assert ref[|ref| - 3..] == "^{}" && ref[..|ref| - 3] == "refs/tags/" + tag;
    } else {
      assert ref == "refs/tags/" + tag;
      TagEndsInDigit(v);
      assert ref[|ref| - 3..][2] == tag[|tag| - 1];
    }
  }

  lemma TagShape(v: Version)
    ensures TagOf(v) == "v" + (Decimal(v.major) + "." + (Decimal(v.minor) + "." + Decimal(v.patch)))
  {
    JoinThree(Decimal(v.major), Decimal(v.minor), Decimal(v.patch), '.');
  }

  lemma TagEndsInDigit(v: Version)
    ensures IsDigit(TagOf(v)[|TagOf(v)| - 1])
  {
    TagShape(v);
  }

  datatype Ref = Ref(version: Version, peeled: bool)

  function Refs(vs: seq<Ref>): seq<string> {
    seq(|vs|, i requires 0 <= i < |vs| => RefOf(vs[i].version, vs[i].peeled))
  }

  ghost predicate AllAtMost(vs: seq<Ref>, bound: nat) {
    forall r :: r in vs ==> r.version.major <= bound && r.version.minor <= bound && r.version.patch <= bound
  }

  /** `v` is a listed version and no listed one is greater. */
  ghost predicate IsGreatest(vs: seq<Ref>, v: Version) {
    && (exists r :: r in vs && r.version == v)
    && (forall r :: r in vs ==> !Less(v, r.version))
  }

  lemma LinesOfRefs(vs: seq<Ref>)
    ensures KeyedLines(Refs(vs)) == seq(|vs|, i requires 0 <= i < |vs| => KeyedLine(TagOf(vs[i].version)))
  {
    forall i | 0 <= i < |vs|
      ensures KeyedLines(Refs(vs))[i] == KeyedLine(TagOf(vs[i].version))
    {
      StripRefOf(vs[i].version, vs[i].peeled);
    }
  }

  /** Whatever order `sort` leaves equal lines in, its last line is the greatest version's. */
  lemma LastLineIsGreatest(vs: seq<Ref>, sorted: seq<string>) returns (k: nat)
    requires vs != [] && AllAtMost(vs, 999) && SortOutput(KeyedLines(Refs(vs)), sorted)
    ensures k < |vs| && LatestTag(sorted) == TagOf(vs[k].version) && IsGreatest(vs, vs[k].version)
  {
    k := LastLineIsOneOf(vs, sorted);
    assert vs[k] in vs;
    forall r | r in vs
      ensures !Less(vs[k].version, r.version)
    {
      var i :| 0 <= i < |vs| && vs[i] == r;
      EachLineIsBeforeLast(vs, sorted, i);
      LineOrder(r.version, vs[k].version);
    }
  }

  lemma LastLineIsOneOf(vs: seq<Ref>, sorted: seq<string>) returns (k: nat)
    requires vs != [] && multiset(sorted) == multiset(KeyedLines(Refs(vs)))
    ensures k < |vs| && sorted != [] && sorted[|sorted| - 1] == KeyedLine(TagOf(vs[k].version))
    ensures LatestTag(sorted) == TagOf(vs[k].version)
  {
    LinesOfRefs(vs);
    var lines := KeyedLines(Refs(vs));
    SameMembers(lines, sorted);
    var last := sorted[|sorted| - 1];
    assert last in lines;
    k :| 0 <= k < |lines| && lines[k] == last;
    LatestTagOfLine(sorted, vs[k].version);
  }

  lemma LatestTagOfLine(sorted: seq<string>, v: Version)
    requires sorted != [] && sorted[|sorted| - 1] == KeyedLine(TagOf(v))
    ensures LatestTag(sorted) == TagOf(v)
  {
    SecondFieldOfLine(v);
  }

  lemma EachLineIsBeforeLast(vs: seq<Ref>, sorted: seq<string>, i: nat)
    requires SortOutput(KeyedLines(Refs(vs)), sorted) && i < |vs|
    ensures sorted != [] && LexLe(KeyedLine(TagOf(vs[i].version)), sorted[|sorted| - 1])
  {
    LinesOfRefs(vs);
    var lines := KeyedLines(Refs(vs));
    SameMembers(lines, sorted);
    assert lines[i] in sorted;
    var j :| 0 <= j < |sorted| && sorted[j] == lines[i];
  }

  lemma SameMembers(xs: seq<string>, ys: seq<string>)
    requires multiset(xs) == multiset(ys)
    ensures |xs| == |ys| && forall x :: x in xs <==> x in ys
  {
    assert |multiset(xs)| == |multiset(ys)|;
    assert forall x :: x in xs <==> x in multiset(xs);
    assert forall x :: x in ys <==> x in multiset(ys);
  }

  /** The script picks the numerically greatest tag from every list of tags with components up to `bound`. */
  ghost predicate PicksGreatest(bound: nat) {
    forall vs: seq<Ref>, sorted: seq<string> :: vs != [] && AllAtMost(vs, bound) ==> PicksGreatestOf(vs, sorted)
  }

  ghost predicate PicksGreatestOf(vs: seq<Ref>, sorted: seq<string>) {
    SortOutput(KeyedLines(Refs(vs)), sorted) ==> IsGreatest(vs, ParseVersion(LatestTag(sorted)))
  }

  /** 999 is the bound, exactly: a four-digit component breaks the order. */
  lemma PicksGreatestExactlyTo999(bound: nat)
    ensures PicksGreatest(bound) <==> bound <= 999
  {
    if bound <= 999 {
      forall vs: seq<Ref>, sorted: seq<string> | vs != [] && AllAtMost(vs, bound)
        ensures PicksGreatestOf(vs, sorted)
      {
        if SortOutput(KeyedLines(Refs(vs)), sorted) {
          var k := LastLineIsGreatest(vs, sorted);
          TagParts(vs[k].version);
        }
      }
    } else {
      var vs := [Ref(LARGE, false), Ref(SMALL, false)];
      assert AllAtMost(vs, bound) by {
        assert forall r :: r in vs ==> r.version == LARGE || r.version == SMALL;
      }
      ThousandIsNotPicked(vs, KeyedLines(Refs(vs)));
    }
  }

  const SMALL := Version(999, 0, 0)
  const LARGE := Version(1000, 0, 0)

  lemma ThousandIsNotPicked(vs: seq<Ref>, sorted: seq<string>)
    requires vs == [Ref(LARGE, false), Ref(SMALL, false)] && sorted == KeyedLines(Refs(vs))
    ensures !PicksGreatestOf(vs, sorted)
  {
    LinesOfPair(vs);
    ThousandSortsFirst(sorted);
    SmallIsPicked(sorted);
    SmallIsNotGreatest(vs);
  }

  lemma LinesOfPair(vs: seq<Ref>)
    requires |vs| == 2
    ensures KeyedLines(Refs(vs)) == [KeyedLine(TagOf(vs[0].version)), KeyedLine(TagOf(vs[1].version))]
  {
    LinesOfRefs(vs);
  }

  lemma SmallIsNotGreatest(vs: seq<Ref>)
    requires |vs| == 2 && vs[0].version == LARGE
    ensures !IsGreatest(vs, SMALL)
  {
    assert vs[0] in vs && Less(SMALL, vs[0].version);
  }

  lemma SmallIsPicked(sorted: seq<string>)
    requires |sorted| == 2 && sorted[1] == KeyedLine(TagOf(SMALL))
    ensures ParseVersion(LatestTag(sorted)) == SMALL
  {
    SecondFieldOfLine(SMALL);
    TagParts(SMALL);
  }

  lemma ThousandSortsFirst(sorted: seq<string>)
    requires sorted == [KeyedLine(TagOf(LARGE)), KeyedLine(TagOf(SMALL))]
    ensures SortOutput(sorted, sorted)
  {
    ThousandIsLess();
    LexReflexive(sorted[0]);
    LexReflexive(sorted[1]);
    PairIsSorted(sorted);
  }

  lemma PairIsSorted(sorted: seq<string>)
    requires |sorted| == 2 && LexLe(sorted[0], sorted[0]) && LexLe(sorted[0], sorted[1]) && LexLe(sorted[1], sorted[1])
    ensures SortOutput(sorted, sorted)
  {
    forall i, j | 0 <= i <= j < |sorted|
      ensures LexLe(sorted[i], sorted[j])
    {
      assert i in {0, 1} && j in {0, 1};
    }
  }

  lemma ThousandIsLess()
    ensures LexLe(KeyedLine(TagOf(LARGE)), KeyedLine(TagOf(SMALL)))
  {
    LineOfTag(LARGE);
    LineOfTag(SMALL);
    PadOfThousand();
    FirstCharOfLine(LARGE);
    FirstCharOfLine(SMALL);
    FirstCharDecides(LineFrom(LARGE), LineFrom(SMALL));
  }

  lemma FirstCharOfLine(v: Version)
    ensures LineFrom(v) != [] && LineFrom(v)[0] == Pad3(v.major)[0]
  {
  }

  lemma FirstCharDecides(s: string, t: string)
    requires s != [] && t != [] && s[0] < t[0]
    ensures LexLe(s, t)
  {
  }

  lemma PadOfThousand()
    ensures Pad3(1000)[0] == '1' && Pad3(999)[0] == '9'
  {
    PadIsThreeDigits(999);
    PadIsThreeDigits(100);
    assert Decimal(100) == ThreeDigits(100);
    assert Decimal(1000) == Decimal(100) + [DigitChar(0)];
  }

  /** `w` is a later release than `v` at the level of the bump: a new major, a new minor or any newer version. */
  predicate Outranks(w: Version, v: Version, b: Bump) {
    match b
    case Patch => Less(v, w)
    case Minor => v.major < w.major || (v.major == w.major && v.minor < w.minor)
    case Major => v.major < w.major
  }

  ghost predicate OutranksAll(w: Version, vs: seq<Ref>, b: Bump) {
    forall r :: r in vs ==> Outranks(w, r.version, b)
  }

  /** `next` is the least version that outranks all of `vs`. */
  ghost predicate IsNextAfter(next: Version, vs: seq<Ref>, b: Bump) {
    && OutranksAll(next, vs, b)
    && (forall w :: OutranksAll(w, vs, b) ==> !Less(w, next))
  }

  lemma BumpIsLeast(v: Version, b: Bump, w: Version)
    ensures Outranks(Bumped(v, b), v, b) && (Outranks(w, v, b) ==> !Less(w, Bumped(v, b)))
    ensures !Less(v, w) ==> Less(w, Bumped(v, b)) && Outranks(Bumped(v, b), w, b)
  {
  }

  lemma BumpOfGreatest(vs: seq<Ref>, latest: Version, b: Bump)
    requires IsGreatest(vs, latest)
    ensures IsNextAfter(Bumped(latest, b), vs, b)
    ensures forall r :: r in vs ==> Less(r.version, Bumped(latest, b))
  {
    var next := Bumped(latest, b);
    forall r | r in vs
      ensures Outranks(next, r.version, b) && Less(r.version, next)
    {
      BumpIsLeast(latest, b, r.version);
    }
    var top :| top in vs && top.version == latest;
    forall w | OutranksAll(w, vs, b)
      ensures !Less(w, next)
    {
      assert Outranks(w, top.version, b);
      BumpIsLeast(latest, b, w);
    }
  }

  /**
   * For every list of tags with components up to 999, whichever bump is asked for, the next tag is that
   * of the least version that outranks every listed one at that level, and it is not among them.
   */
  lemma NextTagIsNew(vs: seq<Ref>, sorted: seq<string>, b: Bump) returns (next: Version)
    requires vs != [] && AllAtMost(vs, 999) && SortOutput(KeyedLines(Refs(vs)), sorted)
    ensures NextTag(sorted, b) == TagOf(next) && IsNextAfter(next, vs, b)
    ensures forall r :: r in vs ==> TagOf(r.version) != TagOf(next)
  {
    var k := LastLineIsGreatest(vs, sorted);
    next := Bumped(vs[k].version, b);
    BumpOfGreatest(vs, vs[k].version, b);
    NextTagOf(sorted, vs[k].version, b);
    NewerTagsAreNew(vs, next);
  }

  lemma NextTagOf(sorted: seq<string>, latest: Version, b: Bump)
    requires LatestTag(sorted) == TagOf(latest)
    ensures NextTag(sorted, b) == TagOf(Bumped(latest, b))
  {
    TagParts(latest);
  }

  lemma NewerTagsAreNew(vs: seq<Ref>, next: Version)
    requires forall r :: r in vs ==> Less(r.version, next)
    ensures forall r :: r in vs ==> TagOf(r.version) != TagOf(next)
  {
    forall r | r in vs
      ensures TagOf(r.version) != TagOf(next)
    {
      if TagOf(r.version) == TagOf(next) {
        TagInjective(r.version, next);
      }
    }
  }

  /** A tag as it is written. */
  lemma TagFormat()
    ensures TagOf(Version(1, 20, 3)) == "v1.20.3"
  {
    TagShape(Version(1, 20, 3));
    assert Decimal(2) == "2" && Decimal(20) == Decimal(2) + "0";
    assert "1" + "." + ("20" + "." + "3") == "1.20.3";
  }

  lemma SmallTagFormat(v: Version, x: char, y: char, z: char)
    requires v.major < 10 && v.minor < 10 && v.patch < 10
    requires x == DigitChar(v.major) && y == DigitChar(v.minor) && z == DigitChar(v.patch)
    ensures TagOf(v) == ['v', x, '.', y, '.', z]
  {
    TagShape(v);
  }

  /** With no tags at all the first release is counted from v0.0.0. */
  lemma FirstRelease(b: Bump)
    ensures NextTag([], b) == match b case Patch => "v0.0.1" case Minor => "v0.1.0" case Major => "v1.0.0"
  {
    NextAfterNone(b);
    SmallTagFormat(Version(0, 0, 1), '0', '0', '1');
    SmallTagFormat(Version(0, 1, 0), '0', '1', '0');
    SmallTagFormat(Version(1, 0, 0), '1', '0', '0');
  }

  lemma NextAfterNone(b: Bump)
    ensures NextTag([], b) == TagOf(Bumped(Version(0, 0, 0), b))
  {
    var zero := Version(0, 0, 0);
    assert Join(["0", "0", "0"], '.') == "0.0.0" by {
      assert ["0", "0", "0"][1..] == ["0", "0"] && ["0", "0"][1..] == ["0"];
    }
    assert TagOf(zero) == "v0.0.0";
    TagParts(zero);
  }
}
