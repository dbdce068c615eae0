/** internal/server/server.go: dropping the thing's name from an MQTT topic. */
module MqttTopic {
  import opened Text

  const SLASH := '/'
  const THINGS: string := "things"

  // ----- the code, on strings -----

  predicate OccursAt(s: string, needle: string, i: int) {
    0 <= i && i + |needle| <= |s| && s[i..i + |needle|] == needle
  }

  /** `strings.Index`: the first occurrence, or -1. */
  function Index(s: string, needle: string): (i: int)
    ensures i >= 0 ==> OccursAt(s, needle, i)
    ensures i < 0 ==> i == -1
  {
    if needle <= s then 0
    else if s == [] then -1
    else
      var i := Index(s[1..], needle);
      if i == -1 then -1 else i + 1
  }

  predicate IndexIn(s: string, i: int, n: nat) {
    i == -1 || 0 <= i <= |s| - n
  }

  /** The `n` characters at index `i` replaced, if there is one. */
  function Splice(s: string, i: int, n: nat, new': string): string
    requires IndexIn(s, i, n)
  {
    if i == -1 then s else s[..i] + new' + s[i + n..]
  }

  /** `strings.Replace` with a count of one. */
  function ReplaceFirst(s: string, old': string, new': string): string {
    Splice(s, Index(s, old'), |old'|, new')
  }

  function NormalizeMQTTTopic(topic: string, thing: string): string {
    if thing == "" then topic
    else
      var needle := "/things/" + thing;
      if Index(topic, needle) != -1 then ReplaceFirst(topic, needle, "/things") else topic
  }

  lemma {:induction false} IndexIsFirst(s: string, needle: string, j: int)
    requires OccursAt(s, needle, j)
    ensures 0 <= Index(s, needle) <= j
    decreases |s|
  {
    if !(needle <= s) {
      assert s[1..][j - 1..j - 1 + |needle|] == s[j..j + |needle|];
      IndexIsFirst(s[1..], needle, j - 1);
    }
  }

  predicate IsFirst(s: string, needle: string, i: int) {
    OccursAt(s, needle, i) && forall j :: 0 <= j < i ==> !OccursAt(s, needle, j)
  }

  /**
   * For every topic and every thing, slashes in it or not: the first occurrence of `/things/` and the
   * thing is replaced by `/things`, and a topic without one, or a thing without a name, is left alone.
   */
  lemma NormalizeReplacesFirst(topic: string, thing: string, i: int)
    ensures thing == "" ==> NormalizeMQTTTopic(topic, thing) == topic
    ensures (forall j :: !OccursAt(topic, "/things/" + thing, j)) ==> NormalizeMQTTTopic(topic, thing) == topic
    ensures thing != "" && IsFirst(topic, "/things/" + thing, i) ==>
      NormalizeMQTTTopic(topic, thing) == topic[..i] + "/things" + topic[i + 8 + |thing|..]
  {
    var needle := "/things/" + thing;
    if IsFirst(topic, needle, i) {
      IndexIsFirst(topic, needle, i);
      assert Index(topic, needle) == i;
    }
  }

  // ----- the same, on segments -----

  /** Segment `j`, not the first of the topic, is `things`, and the next one starts with, or is, the thing. */
  predicate Followed(segs: seq<string>, j: nat, thing: string, exact: bool) {
    && 1 <= j < |segs| - 1 && segs[j] == THINGS
    && thing <= segs[j + 1] && (exact ==> segs[j + 1] == thing)
  }

  function FirstFollowed(segs: seq<string>, from: nat, thing: string, exact: bool): (j: int)
    ensures j == -1 || (from <= j && Followed(segs, j, thing, exact))
    ensures forall i: nat :: from <= i && (j == -1 || i < j) ==> !Followed(segs, i, thing, exact)
    decreases |segs| - from
  {
    if |segs| <= from then -1
    else if Followed(segs, from, thing, exact) then from
    else FirstFollowed(segs, from + 1, thing, exact)
  }

  /** What the code does: the thing is cut from the front of the segment after the first such `things`. */
  function CutThing(segs: seq<string>, thing: string): seq<string> {
    var j := FirstFollowed(segs, 1, thing, false);
    if j == -1 then segs
    else segs[..j] + [THINGS + segs[j + 1][|thing|..]] + segs[j + 2..]
  }

  /** What it is for: the thing's own segment, after the first `things` followed by it, is deleted. */
  function DeleteThing(segs: seq<string>, thing: string): seq<string> {
    var j := FirstFollowed(segs, 1, thing, true);
    if j == -1 then segs else segs[..j + 1] + segs[j + 2..]
  }

  // ----- strings and segments agree -----

  lemma PrefixOfJoin(thing: string, segs: seq<string>)
    requires segs != [] && AllFree(segs, SLASH) && Free(thing, SLASH)
    ensures thing <= Join(segs, SLASH) <==> thing <= segs[0]
  {
    var s := Join(segs, SLASH);
    assert segs[0] <= s;
    assert forall i :: 0 <= i < |thing| ==> thing[i] in thing;
    assert |segs| > 1 ==> s[|segs[0]|] == SLASH;
  }

  /** A topic starts with `things/` exactly when `things` is its first segment of at least two. */
  lemma ThingsAtFront(segs: seq<string>)
    requires segs != [] && AllFree(segs, SLASH)
    ensures THINGS + [SLASH] <= Join(segs, SLASH) <==> |segs| >= 2 && segs[0] == THINGS
  {
    var s := Join(segs, SLASH);
    if |segs| >= 2 {
      FindAfter(segs[0], SLASH, Join(segs[1..], SLASH));
      assert s[..|segs[0]|] == segs[0];
    } else {
      FindNone(s, SLASH);
    }
    if THINGS + [SLASH] <= s {
      assert s == THINGS + [SLASH] + s[7..];
      FindAfter(THINGS, SLASH, s[7..]);
      assert s[..6] == THINGS;
    }
  }

  /** The rest of the needle lies at the front of a topic exactly when its first two segments say so. */
  lemma NeedleAtFront(thing: string, segs: seq<string>)
    requires segs != [] && AllFree(segs, SLASH) && Free(thing, SLASH)
    ensures "things/" + thing <= Join(segs, SLASH) <==> |segs| >= 2 && segs[0] == THINGS && thing <= segs[1]
  {
    ThingsAtFront(segs);
    assert "things/" == THINGS + [SLASH];
    PrefixTransitive(THINGS + [SLASH], thing, Join(segs, SLASH));
    if |segs| >= 2 && segs[0] == THINGS {
      NeedleAfterThings(thing, segs);
    }
  }

  lemma NeedleAfterThings(thing: string, segs: seq<string>)
    requires |segs| >= 2 && segs[0] == THINGS && AllFree(segs, SLASH) && Free(thing, SLASH)
    ensures "things/" + thing <= Join(segs, SLASH) <==> thing <= segs[1]
  {
    var tail := Join(segs[1..], SLASH);
    PrefixOfJoin(thing, segs[1..]);
    assert THINGS + [SLASH] == "things/";
    assert Join(segs, SLASH) == "things/" + tail;
    PrefixAfter("things/", thing, tail);
  }

  lemma PrefixTransitive(front: string, x: string, s: string)
    ensures front + x <= s ==> front <= s
  {
    if front + x <= s {
      assert (front + x)[..|front|] == s[..|front|];
    }
  }

  lemma PrefixAfter(front: string, x: string, y: string)
    ensures front + x <= front + y <==> x <= y
  {
    if front + x <= front + y {
      assert (front + y)[|front|..] == y;
      assert x == (front + x)[|front|..] == (front + y)[..|front + x|][|front|..] == y[..|x|];
    }
  }

  /** Cutting a string after the head and the slash is cutting the tail. */
  lemma SlicesOfTail(head: string, tail: string, i: nat)
    requires i <= |tail|
    ensures (head + [SLASH] + tail)[..|head| + 1 + i] == head + [SLASH] + tail[..i]
    ensures (head + [SLASH] + tail)[|head| + 1 + i..] == tail[i..]
  {
  }

  /** A needle that starts with a slash is not found inside a slash-free head. */
  lemma {:induction false} IndexSkipsHead(head: string, tail: string, needle: string)
    requires Free(head, SLASH) && needle != [] && needle[0] == SLASH
    ensures Index(head + [SLASH] + tail, needle) ==
      if needle[1..] <= tail then |head|
      else if Index(tail, needle) == -1 then -1
      else |head| + 1 + Index(tail, needle)
    decreases |head|
  {
    var s := head + [SLASH] + tail;
    if head == [] {
      assert s[1..] == tail;
      assert needle == [SLASH] + needle[1..];
      assert needle <= s <==> needle[1..] <= tail;
    } else {
      assert s[0] in head;
      assert s[1..] == head[1..] + [SLASH] + tail;
      assert forall c :: c in head[1..] ==> c in head;
      IndexSkipsHead(head[1..], tail, needle);
    }
  }

  /** Searching from a later segment is searching in the topic without its first one. */
  lemma {:induction false} FirstFollowedShift(segs: seq<string>, from: nat, thing: string)
    requires segs != []
    ensures var rest := FirstFollowed(segs[1..], from + 1, thing, false);
      FirstFollowed(segs, from + 2, thing, false) == if rest == -1 then -1 else rest + 1
    decreases |segs| - from
  {
    if from + 2 < |segs| && !Followed(segs, from + 2, thing, false) {
      FirstFollowedShift(segs, from + 1, thing);
    }
  }

  lemma CutThingShift(segs: seq<string>, thing: string)
    requires segs != []
    requires var rest := FirstFollowed(segs[1..], 1, thing, false);
      FirstFollowed(segs, 1, thing, false) == if rest == -1 then -1 else rest + 1
    ensures CutThing(segs, thing) == [segs[0]] + CutThing(segs[1..], thing)
  {
    var j := FirstFollowed(segs, 1, thing, false);
    assert segs == [segs[0]] + segs[1..];
    if j != -1 {
      var t := segs[1..];
      assert segs[..j] == [segs[0]] + t[..j - 1];
      assert t[j] == segs[j + 1] && t[j + 1..] == segs[j + 2..];
      var cut := [THINGS + t[j][|thing|..]];
      assert CutThing(segs, thing) == [segs[0]] + t[..j - 1] + cut + t[j + 1..];
      assert CutThing(t, thing) == t[..j - 1] + cut + t[j + 1..];
      Assoc([segs[0]], t[..j - 1], cut, t[j + 1..]);
    }
  }

  lemma CutThingStep(segs: seq<string>, thing: string)
    requires |segs| >= 2
    ensures CutThing(segs, thing) ==
      if |segs| >= 3 && segs[1] == THINGS && thing <= segs[2]
      then [segs[0], THINGS + segs[2][|thing|..]] + segs[3..]
      else [segs[0]] + CutThing(segs[1..], thing)
  {
    if Followed(segs, 1, thing, false) {
      assert segs[..1] == [segs[0]];
    } else {
      FirstFollowedShift(segs, 0, thing);
      CutThingShift(segs, thing);
    }
  }

  lemma JoinCons(head: string, rest: seq<string>)
    requires rest != []
    ensures Join([head] + rest, SLASH) == head + [SLASH] + Join(rest, SLASH)
  {
    assert ([head] + rest)[1..] == rest;
  }

  lemma JoinCut(segs: seq<string>, thing: string)
    requires segs != [] && thing <= segs[0]
    ensures THINGS + Join(segs, SLASH)[|thing|..] == Join([THINGS + segs[0][|thing|..]] + segs[1..], SLASH)
  {
    if |segs| > 1 {
      JoinCons(THINGS + segs[0][|thing|..], segs[1..]);
    }
  }

  /**
   * For every topic and every non-empty slash-free thing, string-level normalisation is the
   * segment-level cut, whatever the segments contain.
   */
  lemma {:induction false} NormalizeCutsSegments(segs: seq<string>, thing: string)
    requires segs != [] && AllFree(segs, SLASH) && thing != "" && Free(thing, SLASH)
    ensures CutThing(segs, thing) != []
    ensures NormalizeMQTTTopic(Join(segs, SLASH), thing) == Join(CutThing(segs, thing), SLASH)
    decreases |segs|
  {
    var needle := "/things/" + thing;
    var s := Join(segs, SLASH);
    assert needle[1..] == "things/" + thing;
    if |segs| == 1 {
      NoSlashNoNeedle(s, needle);
    } else {
      var tail := Join(segs[1..], SLASH);
      IndexSkipsHead(segs[0], tail, needle);
      NeedleAtFront(thing, segs[1..]);
      CutThingStep(segs, thing);
      if needle[1..] <= tail {
        NormalizeCutsHere(segs, thing);
      } else {
        NormalizeCutsSegments(segs[1..], thing);
        NormalizeCutsLater(segs, thing);
      }
    }
  }

  lemma NoSlashNoNeedle(s: string, needle: string)
    requires Free(s, SLASH) && needle != [] && needle[0] == SLASH
    ensures Index(s, needle) == -1
  {
    assert forall i :: OccursAt(s, needle, i) ==> s[i..i + |needle|][0] == s[i] && s[i] in s;
  }

  lemma NormalizeCutsHere(segs: seq<string>, thing: string)
    requires |segs| >= 3 && segs[1] == THINGS && thing <= segs[2] && thing != ""
    requires Index(Join(segs, SLASH), "/things/" + thing) == |segs[0]|
    ensures NormalizeMQTTTopic(Join(segs, SLASH), thing) ==
      Join([segs[0], THINGS + segs[2][|thing|..]] + segs[3..], SLASH)
  {
    var inner := Join(segs[2..], SLASH);
    var tail := THINGS + [SLASH] + inner;
    assert segs[1..][1..] == segs[2..] && segs[2..][1..] == segs[3..];
    assert Join(segs, SLASH) == segs[0] + [SLASH] + tail;
    JoinCut(segs[2..], thing);
    var cut := [THINGS + segs[2][|thing|..]] + segs[3..];
    JoinCons(segs[0], cut);
    assert [segs[0]] + cut == [segs[0], THINGS + segs[2][|thing|..]] + segs[3..];
    CutHere(segs[0], tail, thing, inner);
  }

  lemma CutHere(head: string, tail: string, thing: string, inner: string)
    requires thing != "" && |thing| <= |inner| && tail == THINGS + [SLASH] + inner
    requires Index(head + [SLASH] + tail, "/things/" + thing) == |head|
    ensures NormalizeMQTTTopic(head + [SLASH] + tail, thing) == head + [SLASH] + (THINGS + inner[|thing|..])
  {
    var s := head + [SLASH] + tail;
    assert NormalizeMQTTTopic(s, thing) == Splice(s, |head|, 8 + |thing|, "/things");
    SlicesOfTail(head, tail, 7 + |thing|);
    SlicesOfTail(THINGS, inner, |thing|);
    FrontOfTail(head, tail);
    AssocSlash(head, inner[|thing|..]);
  }

  lemma FrontOfTail(head: string, tail: string)
    ensures (head + [SLASH] + tail)[..|head|] == head
  {
  }

  lemma AssocSlash(head: string, x: string)
    ensures head + "/things" + x == head + [SLASH] + (THINGS + x)
  {
    assert "/things" == [SLASH] + THINGS;
  }

  lemma NormalizeCutsLater(segs: seq<string>, thing: string)
    requires |segs| >= 2 && thing != ""
    requires var needle, tail := "/things/" + thing, Join(segs[1..], SLASH);
      Index(Join(segs, SLASH), needle) == Shifted(Index(tail, needle), |segs[0]| + 1)
    requires CutThing(segs[1..], thing) != []
    requires NormalizeMQTTTopic(Join(segs[1..], SLASH), thing) == Join(CutThing(segs[1..], thing), SLASH)
    ensures NormalizeMQTTTopic(Join(segs, SLASH), thing) == Join([segs[0]] + CutThing(segs[1..], thing), SLASH)
  {
    var needle := "/things/" + thing;
    JoinCons(segs[0], CutThing(segs[1..], thing));
    var tail := Join(segs[1..], SLASH);
    SpliceInTail(segs[0], tail, Index(tail, needle), |needle|, "/things");
  }

  function Shifted(i: int, n: nat): int {
    if i == -1 then -1 else n + i
  }

  lemma SpliceInTail(head: string, tail: string, i: int, n: nat, new': string)
    requires IndexIn(tail, i, n)
    ensures IndexIn(head + [SLASH] + tail, Shifted(i, |head| + 1), n)
    ensures Splice(head + [SLASH] + tail, Shifted(i, |head| + 1), n, new') == head + [SLASH] + Splice(tail, i, n, new')
  {
    if i != -1 {
      SlicesOfTail(head, tail, i);
      SlicesOfTail(head, tail, i + n);
      Assoc(head + [SLASH], tail[..i], new', tail[i + n..]);
    }
  }

  lemma Assoc<T>(a: seq<T>, b: seq<T>, c: seq<T>, d: seq<T>)
    ensures a + b + c + d == a + (b + c + d)
  {
  }

  // ----- when that is the intended operation -----

  lemma CutIsDelete(segs: seq<string>, thing: string)
    requires FirstFollowed(segs, 1, thing, false) == FirstFollowed(segs, 1, thing, true)
    ensures CutThing(segs, thing) == DeleteThing(segs, thing)
  {
    var j := FirstFollowed(segs, 1, thing, true);
    if j != -1 {
      assert THINGS + segs[j + 1][|thing|..] == THINGS;
      assert segs[..j + 1] == segs[..j] + [THINGS];
    }
  }

  lemma CutIsNotDelete(segs: seq<string>, thing: string)
    requires FirstFollowed(segs, 1, thing, false) != FirstFollowed(segs, 1, thing, true)
    ensures CutThing(segs, thing) != DeleteThing(segs, thing)
  {
    var j, i := FirstFollowed(segs, 1, thing, false), FirstFollowed(segs, 1, thing, true);
    if i == -1 {
      assert |CutThing(segs, thing)| == |segs| - 1;
    } else {
      assert Followed(segs, i, thing, false);
      assert 1 <= j < i;
      assert !Followed(segs, j, thing, true);
      assert CutThing(segs, thing)[j] == THINGS + segs[j + 1][|thing|..];
      assert |CutThing(segs, thing)[j]| > |THINGS|;
      assert DeleteThing(segs, thing)[j] == segs[j] == THINGS;
    }
  }

  lemma FreeParts(segs: seq<string>, thing: string)
    requires AllFree(segs, SLASH) && segs != []
    ensures AllFree(CutThing(segs, thing), SLASH) && AllFree(DeleteThing(segs, thing), SLASH)
    ensures CutThing(segs, thing) != [] && DeleteThing(segs, thing) != []
  {
    var j, i := FirstFollowed(segs, 1, thing, false), FirstFollowed(segs, 1, thing, true);
    if j != -1 {
      var cut := THINGS + segs[j + 1][|thing|..];
      assert Free(segs[j + 1], SLASH);
      AllFreePieces(segs, j, cut, j + 2, SLASH);
    }
    if i != -1 {
      AllFreePieces(segs, i + 1, "", i + 2, SLASH);
    }
  }

  /**
   * Normalisation deletes the thing's segment after the first `things` followed by it, as its
   * documentation has it, if and only if the first segment after a `things` that starts with the
   * thing's name is that name. Otherwise, as in `a/things/device10/things/device1` for `device1`, the
   * start of another device's segment is cut off.
   */
  lemma NormalizeDeletesExactly(topic: string, thing: string)
    requires thing != "" && Free(thing, SLASH)
    ensures var segs := Split(topic, SLASH);
      && DeleteThing(segs, thing) != []
      && (NormalizeMQTTTopic(topic, thing) == Join(DeleteThing(segs, thing), SLASH) <==>
            FirstFollowed(segs, 1, thing, false) == FirstFollowed(segs, 1, thing, true))
  {
    var segs := Split(topic, SLASH);
    NormalizeCutsSegments(segs, thing);
    FreeParts(segs, thing);
    if FirstFollowed(segs, 1, thing, false) == FirstFollowed(segs, 1, thing, true) {
      CutIsDelete(segs, thing);
    } else {
      CutIsNotDelete(segs, thing);
      if NormalizeMQTTTopic(topic, thing) == Join(DeleteThing(segs, thing), SLASH) {
        JoinInjective(CutThing(segs, thing), DeleteThing(segs, thing), SLASH);
      }
    }
  }

  /** A device-specific topic: the thing's name put in after the `things` at segment `j`. */
  function ForThing(segs: seq<string>, j: nat, thing: string): seq<string>
    requires j < |segs|
  {
    segs[..j + 1] + [thing] + segs[j + 1..]
  }

  /**
   * For every topic whose first `things` past segment 0 is segment `j`, and every device name,
   * normalising the device-specific topic gives the topic back.
   */
  lemma NormalizeUndoesForThing(segs: seq<string>, j: nat, thing: string)
    requires AllFree(segs, SLASH) && thing != "" && Free(thing, SLASH)
    requires 1 <= j < |segs| && segs[j] == THINGS && forall i :: 1 <= i < j ==> segs[i] != THINGS
    ensures NormalizeMQTTTopic(Join(ForThing(segs, j, thing), SLASH), thing) == Join(segs, SLASH)
  {
    var long := ForThing(segs, j, thing);
    FirstFollowedInForThing(segs, j, thing);
    ForThingFree(segs, j, thing);
    NormalizeCutsSegments(long, thing);
    CutUndoesForThing(segs, j, thing);
  }

  lemma ForThingFree(segs: seq<string>, j: nat, thing: string)
    requires AllFree(segs, SLASH) && Free(thing, SLASH) && j < |segs|
    ensures AllFree(ForThing(segs, j, thing), SLASH)
  {
    AllFreePieces(segs, j + 1, thing, j + 1, SLASH);
  }

  lemma CutUndoesForThing(segs: seq<string>, j: nat, thing: string)
    requires 1 <= j < |segs| && segs[j] == THINGS
    requires FirstFollowed(ForThing(segs, j, thing), 1, thing, false) == j
    ensures CutThing(ForThing(segs, j, thing), thing) == segs
  {
    var long := ForThing(segs, j, thing);
    assert THINGS + long[j + 1][|thing|..] == THINGS;
    assert long[..j] == segs[..j] && long[j + 2..] == segs[j + 1..];
    assert segs == segs[..j] + [THINGS] + segs[j + 1..];
  }

  lemma FirstFollowedInForThing(segs: seq<string>, j: nat, thing: string)
    requires 1 <= j < |segs| && segs[j] == THINGS && forall i :: 1 <= i < j ==> segs[i] != THINGS
    ensures FirstFollowed(ForThing(segs, j, thing), 1, thing, false) == j
  {
    var long := ForThing(segs, j, thing);
    assert Followed(long, j, thing, false);
    forall i: nat | 1 <= i < j
      ensures !Followed(long, i, thing, false)
    {
      assert long[i] == segs[i];
    }
  }

  /** The topic of a device is normalised to the topic of all devices, for any names around it. */
  lemma DeviceTopicIsNormalized(front: string, thing: string, kind: string, last: string)
    requires Free(front, SLASH) && Free(kind, SLASH) && Free(last, SLASH) && thing != "" && Free(thing, SLASH)
    ensures NormalizeMQTTTopic(front + "/things/" + thing + "/" + kind + "/" + last, thing) ==
      front + "/things/" + kind + "/" + last
  {
    var segs := [front, THINGS, kind, last];
    NormalizeUndoesForThing(segs, 1, thing);
    assert ForThing(segs, 1, thing) == [front, THINGS, thing, kind, last];
    JoinFour(front, kind, last);
    JoinFive(front, thing, kind, last);
  }

  lemma JoinFour(front: string, kind: string, last: string)
    ensures Join([front, THINGS, kind, last], SLASH) == front + "/things/" + kind + "/" + last
  {
    assert [front, THINGS, kind, last][1..] == [THINGS, kind, last];
    JoinThree(THINGS, kind, last, SLASH);
    assert "/things/" == [SLASH] + THINGS + [SLASH];
  }

  lemma JoinFive(front: string, thing: string, kind: string, last: string)
    ensures Join([front, THINGS, thing, kind, last], SLASH) == front + "/things/" + thing + "/" + kind + "/" + last
  {
    assert [front, THINGS, thing, kind, last][1..] == [THINGS, thing, kind, last];
    assert [THINGS, thing, kind, last][1..] == [thing, kind, last];
    JoinThree(thing, kind, last, SLASH);
    assert "/things/" == [SLASH] + THINGS + [SLASH];
  }

  /** The two examples the source gives. */
  lemma DocumentedExamples(thing: string, tunnel: string, command: string)
    requires thing == "device123"
    requires tunnel == "$aws/things/device123/tunnels/notify" && command == "tessa/things/device123/commands/notify"
    ensures NormalizeMQTTTopic(tunnel, thing) == "$aws/things/tunnels/notify"
    ensures NormalizeMQTTTopic(command, thing) == "tessa/things/commands/notify"
  {
    TunnelTexts(thing, tunnel);
    DocumentedExample("$aws", thing, "tunnels", tunnel, "$aws/things/tunnels/notify");
    CommandTexts(thing, command);
    DocumentedExample("tessa", thing, "commands", command, "tessa/things/commands/notify");
  }

  lemma TunnelTexts(thing: string, tunnel: string)
    requires thing == "device123" && tunnel == "$aws/things/device123/tunnels/notify"
    ensures tunnel == "$aws" + "/things/" + thing + "/" + "tunnels" + "/notify"
    ensures "$aws/things/tunnels/notify" == "$aws" + "/things/" + "tunnels" + "/notify"
  {
  }

  lemma CommandTexts(thing: string, command: string)
    requires thing == "device123" && command == "tessa/things/device123/commands/notify"
    ensures command == "tessa" + "/things/" + thing + "/" + "commands" + "/notify"
    ensures "tessa/things/commands/notify" == "tessa" + "/things/" + "commands" + "/notify"
  {
  }

  lemma DocumentedExample(front: string, thing: string, kind: string, posted: string, plain: string)
    requires Free(front, SLASH) && Free(kind, SLASH) && thing != "" && Free(thing, SLASH)
    requires posted == front + "/things/" + thing + "/" + kind + "/notify"
    requires plain == front + "/things/" + kind + "/notify"
    ensures NormalizeMQTTTopic(posted, thing) == plain
  {
    DeviceTopicIsNormalized(front, thing, kind, "notify");
    AppendNotify(front + "/things/" + thing + "/" + kind);
    AppendNotify(front + "/things/" + kind);
  }

  lemma AppendNotify(s: string)
    ensures s + "/" + "notify" == s + "/notify"
  {
    assert "/notify" == "/" + "notify";
  }

  /** A device whose name another one's starts with gets the other's topic mangled, not left alone. */
  lemma LongerNameIsCut()
    ensures var segs := ["a", THINGS, "device10", "x"];
      && NormalizeMQTTTopic(Join(segs, SLASH), "device1") == Join(["a", "things0", "x"], SLASH)
      && DeleteThing(segs, "device1") == segs
  {
    var segs := ["a", THINGS, "device10", "x"];
    assert Followed(segs, 1, "device1", false);
    NormalizeCutsSegments(segs, "device1");
    assert CutThing(segs, "device1") == ["a", "things0", "x"] by {
      assert segs[2][|"device1"|..] == "0" && THINGS + "0" == "things0";
      assert segs[3..] == ["x"] && segs[..1] == ["a"];
    }
    assert FirstFollowed(segs, 1, "device1", true) == -1;
  }
}
