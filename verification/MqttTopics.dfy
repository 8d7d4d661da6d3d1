/** Levels, filters, the matcher. */
module MqttTopics {
  // cloud/mqtt-broker.ts.

  const MAX_FILTER_LENGTH := 1024

  /** What splitting at '/' gives. */
  function Levels(s: string): (r: seq<string>)
    ensures |r| >= 1
  {
    if s == "" then [""]
    else
      var rest := Levels(s[1..]);
      if s[0] == '/' then [""] + rest else [[s[0]] + rest[0]] + rest[1..]
  }

  function Join(levels: seq<string>): string
    requires levels != []
  {
    if |levels| == 1 then levels[0] else levels[0] + "/" + Join(levels[1..])
  }

  lemma {:induction false} LevelsJoin(s: string)
    ensures Join(Levels(s)) == s
    ensures forall i :: 0 <= i < |Levels(s)| ==> '/' !in Levels(s)[i]
  {
    if s != "" {
      LevelsJoin(s[1..]);
      var rest := Levels(s[1..]);
      if s[0] == '/' {
        assert Levels(s)[1..] == rest;
      } else {
        assert Levels(s)[1..] == rest[1..];
      }
    }
  }

  lemma {:induction false} JoinLevels(levels: seq<string>)
    requires levels != [] && forall i :: 0 <= i < |levels| ==> '/' !in levels[i]
    ensures Levels(Join(levels)) == levels
    decreases |levels|, |levels[0]|
  {
    var s := Join(levels);
    if levels[0] == "" {
      if |levels| > 1 {
        JoinLevels(levels[1..]);
        assert s[1..] == Join(levels[1..]);
      }
    } else {
      var shorter := [levels[0][1..]] + levels[1..];
      assert shorter[1..] == levels[1..];
      assert s[1..] == Join(shorter);
      JoinLevels(shorter);
      assert s[0] == levels[0][0] && [s[0]] + levels[0][1..] == levels[0];
      assert levels == [levels[0]] + levels[1..];
    }
  }

  /** Bytes a string takes in UTF-8. */
  function ByteLength(s: string): nat {
    if s == [] then 0 else
      (var c := s[0] as int; if c < 0x80 then 1 else if c < 0x800 then 2 else if c < 0x10000 then 3 else 4)
      + ByteLength(s[1..])
  }

  predicate Plain(level: string) { '+' !in level && '#' !in level }

  /** Wildcards stand alone in their level, and '#' only in the last one. */
  predicate WellFormed(f: seq<string>) {
    forall i :: 0 <= i < |f| ==> f[i] == "+" || (if f[i] == "#" then i == |f| - 1 else Plain(f[i]))
  }

  predicate ValidFilter(filter: string) {
    filter != "" && ByteLength(filter) <= MAX_FILTER_LENGTH && '\0' !in filter && WellFormed(Levels(filter))
  }

  /**
   * Section 4.7.1 of MQTT 3.1.1, level by level: '+' is exactly one level, a final '#' is the parent level and
   * any number of child levels.
   */
  ghost predicate Matches(t: seq<string>, f: seq<string>) {
    if f == [] then t == []
    else if f == ["#"] then true
    else t != [] && (f[0] == "+" || f[0] == t[0]) && Matches(t[1..], f[1..])
  }

  /** The first `n` filter levels accept the topic; '+' is not asked whether the topic still has a level there. */
  ghost predicate Accepts(t: seq<string>, f: seq<string>, n: nat)
    requires n <= |f|
  {
    forall k :: 0 <= k < n ==> f[k] == "+" || (k < |t| && f[k] == t[k])
  }

  ghost predicate EndsInHash(f: seq<string>) { f != [] && f[|f| - 1] == "#" }

  /** A '+' before the final '#' stands past the last level of the topic. */
  ghost predicate Overhangs(t: seq<string>, f: seq<string>) {
    EndsInHash(f) && |f| - 1 > |t| && Accepts(t, f, |f| - 1)
  }

  /** What the matcher computes: the standard's relation, and overhangs besides. */
  ghost predicate TopicMatches(topic: string, filter: string) {
    && topic != "" && filter != "" && WellFormed(Levels(filter))
    && (Matches(Levels(topic), Levels(filter)) || Overhangs(Levels(topic), Levels(filter)))
  }

  method MqttTopicMatches(topic: string, filter: string) returns (r: bool)
    ensures r <==> TopicMatches(topic, filter)
  {
    if topic == "" || filter == "" {
      return false;
    }
    var topicLevels := Levels(topic);
    var filterLevels := Levels(filter);
    MatchesInPlace(topicLevels, filterLevels);
    var index := 0;
    while index < |filterLevels|
      invariant 0 <= index <= |filterLevels|
      invariant forall k :: 0 <= k < index ==> filterLevels[k] == "+" || Plain(filterLevels[k])
      invariant Accepts(topicLevels, filterLevels, index)
    {
      var level := filterLevels[index];
      if level == "#" {
        return index == |filterLevels| - 1;
      }
      if level != "+" && ('#' in level || '+' in level) {
        return false;
      }
      if level != "+" && (index >= |topicLevels| || level != topicLevels[index]) {
        return false;
      }
      index := index + 1;
    }
    return |topicLevels| == |filterLevels|;
  }

  /** The recursive reading of section 4.7.1, written out over positions. */
  lemma {:induction false} MatchesInPlace(t: seq<string>, f: seq<string>)
    ensures WellFormed(f) && EndsInHash(f) ==>
              (Matches(t, f) <==> |f| - 1 <= |t| && Accepts(t, f, |f| - 1))
    ensures WellFormed(f) && !EndsInHash(f) ==>
              (Matches(t, f) <==> |f| == |t| && Accepts(t, f, |f|))
  {
    if WellFormed(f) && f != [] && f != ["#"] && t != [] {
      MatchesInPlace(t[1..], f[1..]);
      var n := if EndsInHash(f) then |f| - 1 else |f|;
      if (f[0] == "+" || f[0] == t[0]) && Accepts(t[1..], f[1..], n - 1) {
        forall k | 0 <= k < n
          ensures f[k] == "+" || (k < |t| && f[k] == t[k])
        {
          if k > 0 {
            assert f[1..][k - 1] == f[k];
          }
        }
      }
      if Accepts(t, f, n) {
        forall k | 0 <= k < n - 1
          ensures f[1..][k] == "+" || (k < |t[1..]| && f[1..][k] == t[1..][k])
        {
          assert f[1..][k] == f[k + 1];
        }
      }
    }
  }

  /** Off the overhang the matcher is section 4.7.1; on it the standard says no. */
  lemma OverhangIsNoMatch(t: seq<string>, f: seq<string>)
    requires WellFormed(f) && Overhangs(t, f)
    ensures !Matches(t, f)
  {
    MatchesInPlace(t, f);
  }

  const MAX_NAME_LENGTH := 65535

  /** Section 4.7.3: names and filters have at least one character, no null character and at most 65535 bytes. */
  predicate Nameable(s: string) { s != "" && '\0' !in s && ByteLength(s) <= MAX_NAME_LENGTH }

  /** Section 4.7.1: and a topic name has no wildcards. */
  predicate TopicName(topic: string) { Nameable(topic) && Plain(topic) }

  lemma WellFormedTail(f: seq<string>)
    requires WellFormed(f) && f != []
    ensures WellFormed(f[1..])
  {
    assert forall i :: 0 <= i < |f[1..]| ==> f[1..][i] == f[i + 1];
  }

  /** A topic name that fits the first `n` levels of a filter, with `c` wherever those have a wildcard. */
  function Fitting(f: seq<string>, n: nat, c: char): (t: seq<string>)
    requires n <= |f| && WellFormed(f) && (n == |f| ==> !EndsInHash(f)) && c !in "+#/"
    ensures |t| == n && Accepts(t, f, n) && forall i :: 0 <= i < n ==> Plain(t[i]) && (f[i] == "+" ==> t[i] == [c])
  {
    if n == 0 then []
    else
      WellFormedTail(f);
      [if f[0] == "+" then [c] else f[0]] + Fitting(f[1..], n - 1, c)
  }

  lemma {:induction false} ByteLengthAppend(a: string, b: string)
    ensures ByteLength(a + b) == ByteLength(a) + ByteLength(b)
  {
    if a == [] {
      assert a + b == b;
    } else {
      assert (a + b)[1..] == a[1..] + b;
      ByteLengthAppend(a[1..], b);
    }
  }

  lemma OneByte(c: char)
    requires c as int < 0x80
    ensures ByteLength([c]) == 1
  {
    assert [c][1..] == [];
  }

  lemma JoinCons(levels: seq<string>)
    requires |levels| > 1
    ensures ByteLength(Join(levels)) == ByteLength(levels[0]) + 1 + ByteLength(Join(levels[1..]))
  {
    OneByte('/');
    ByteLengthAppend(levels[0], "/");
    ByteLengthAppend(levels[0] + "/", Join(levels[1..]));
  }

  /** The fitting name is no longer than the filter, and has its characters or `c`. */
  lemma {:induction false} FittingIsShort(f: seq<string>, n: nat, c: char)
    requires 0 < n <= |f| && WellFormed(f) && (n == |f| ==> !EndsInHash(f)) && c !in "+#/" && c as int < 0x80
    ensures ByteLength(Join(Fitting(f, n, c))) <= ByteLength(Join(f))
    ensures Plain(Join(Fitting(f, n, c)))
    ensures forall x :: x in Join(Fitting(f, n, c)) ==> x in Join(f) || x == c || x == '/'
    decreases n
  {
    var t := Fitting(f, n, c);
    OneByte(c);
    OneByte('+');
    OneByte('/');
    assert ['+'] == "+" && ['/'] == "/";
    if |f| > 1 {
      JoinCons(f);
    }
    if n > 1 {
      WellFormedTail(f);
      var rest := Fitting(f[1..], n - 1, c);
      assert t == [t[0]] + rest;
      assert t[1..] == rest;
      JoinCons(t);
      FittingIsShort(f[1..], n - 1, c);
    }
  }

  lemma FittingIsName(filter: string, n: nat, c: char)
    requires Nameable(filter) && WellFormed(Levels(filter)) && c !in "+#/\0" && c as int < 0x80
    requires 0 < n <= |Levels(filter)| && (n == |Levels(filter)| ==> !EndsInHash(Levels(filter)))
    ensures var topic := Join(Fitting(Levels(filter), n, c));
            && (topic != "" ==> TopicName(topic)) && Levels(topic) == Fitting(Levels(filter), n, c)
  {
    var f := Levels(filter);
    var t := Fitting(f, n, c);
    LevelsJoin(filter);
    FittingIsShort(f, n, c);
    forall i | 0 <= i < |t|
      ensures '/' !in t[i]
    {
      assert f[i] == "+" || f[i] == t[i];
    }
    JoinLevels(t);
  }

  /** A filter of three or more levels that ends in "+/#". */
  predicate EndsOpen(f: seq<string>) { |f| >= 3 && f[|f| - 2] == "+" && f[|f| - 1] == "#" }

  /**
   * Exactly which filters the matcher treats as the standard does for every topic name: all but those of three or
   * more levels that end in "+/#", and "/+/#" too, which only the empty string would overhang.
   */
  lemma FaithfulFilters(filter: string)
    requires Nameable(filter) && WellFormed(Levels(filter))
    ensures (forall topic :: TopicName(topic) ==> (TopicMatches(topic, filter) <==> Matches(Levels(topic), Levels(filter))))
       <==> (!EndsOpen(Levels(filter)) || filter == "/+/#")
  {
    var f := Levels(filter);
    LevelsJoin(filter);
    if EndsOpen(f) && filter != "/+/#" {
      Unfaithful(filter);
    } else {
      forall topic | TopicName(topic)
        ensures !Overhangs(Levels(topic), f)
      {
        if Overhangs(Levels(topic), f) {
          OnlyEmptyOverhangs(topic, filter);
        }
      }
    }
  }

  lemma OnlySlashes(f: seq<string>)
    ensures f == ["", "+", "#"] ==> Join(f) == "/+/#"
  {
    if f == ["", "+", "#"] {
      assert f[1..] == ["+", "#"] && f[1..][1..] == ["#"];
      assert Join(["+", "#"]) == "+/#";
    }
  }

  lemma FittingIsNotEmpty(filter: string)
    requires WellFormed(Levels(filter)) && EndsOpen(Levels(filter)) && filter != "/+/#"
    ensures Fitting(Levels(filter), |Levels(filter)| - 2, 'x') != [""]
  {
    LevelsJoin(filter);
    OnlySlashes(Levels(filter));
  }

  lemma Unfaithful(filter: string)
    requires Nameable(filter) && WellFormed(Levels(filter)) && EndsOpen(Levels(filter)) && filter != "/+/#"
    ensures exists topic :: TopicName(topic) && TopicMatches(topic, filter) && !Matches(Levels(topic), Levels(filter))
  {
    var f := Levels(filter);
    var t := Fitting(f, |f| - 2, 'x');
    var topic := Join(t);
    FittingIsName(filter, |f| - 2, 'x');
    FittingIsNotEmpty(filter);
    assert topic == "" ==> Levels(topic) == [""];
    OverhangIsNoMatch(t, f);
    assert TopicMatches(topic, filter);
  }

  lemma OnlyEmptyOverhangs(topic: string, filter: string)
    requires WellFormed(Levels(filter)) && Overhangs(Levels(topic), Levels(filter))
    ensures EndsOpen(Levels(filter)) && (filter == "/+/#" ==> topic == "")
  {
    var f := Levels(filter);
    assert f[|f| - 2] == "+";
    LevelsJoin(topic);
    if filter == "/+/#" {
      assert filter[1..] == "+/#" && filter[1..][1..] == "/#" && filter[1..][1..][1..] == "#";
      assert Levels("#") == ["#"] && Levels("/#") == ["", "#"] && Levels("+/#") == ["+", "#"] && f == ["", "+", "#"];
      assert Levels(topic) == [""];
    }
  }

  /** `a/+/#` is told to match `a`, which section 4.7.1 does not allow. */
  lemma OverhangExample()
    ensures TopicMatches("a", "a/+/#") && !Matches(Levels("a"), Levels("a/+/#"))
  {
    JoinLevels(["a"]);
    JoinLevels(["a", "+", "#"]);
    assert ["a", "+", "#"][1..] == ["+", "#"] && ["+", "#"][1..] == ["#"];
    assert Join(["+", "#"]) == "+/#" && Join(["a", "+", "#"]) == "a/+/#";
    OverhangIsNoMatch(["a"], ["a", "+", "#"]);
  }

  /** Section 4.7.2: a filter that starts with a wildcard does not match a topic that starts with '$'. */
  ghost predicate MatchesReserved(t: seq<string>, f: seq<string>) {
    Matches(t, f) && !(t != [] && t[0] != "" && t[0][0] == '$' && f != [] && f[0] in {"+", "#"})
  }

  /** The matcher has no such rule: exactly the filters that start with a wildcard let '$' topics through. */
  lemma ReservedTopics(filter: string)
    requires Nameable(filter) && WellFormed(Levels(filter))
    ensures (forall topic :: TopicName(topic) && Matches(Levels(topic), Levels(filter)) ==>
               TopicMatches(topic, filter) && MatchesReserved(Levels(topic), Levels(filter)))
       <==> Levels(filter)[0] !in {"+", "#"}
  {
    var f := Levels(filter);
    if f[0] in {"+", "#"} {
      var n := if EndsInHash(f) then |f| - 1 else |f|;
      var topic := if n == 0 then "$" else Join(Fitting(f, n, '$'));
      if n > 0 {
        FittingIsName(filter, n, '$');
      } else {
        JoinLevels(["$"]);
        OneByte('$');
        assert Join(["$"]) == "$" == ['$'];
      }
      MatchesInPlace(Levels(topic), f);
      assert TopicName(topic) && Matches(Levels(topic), f) && !MatchesReserved(Levels(topic), f);
    }
  }

  // ---------------------------------------------------------------- filters, character by character

  /** Where `+` and `#` may stand: alone between slashes, and `#` at the end only; `start` says that a level begins here. */
  predicate MayStand(s: string, k: nat, start: bool)
    requires k < |s|
  {
    && (s[k] in {'+', '#'} ==> if k == 0 then start else s[k - 1] == '/')
    && (s[k] == '+' ==> k == |s| - 1 || s[k + 1] == '/')
    && (s[k] == '#' ==> k == |s| - 1)
  }

  predicate AllStand(s: string, start: bool) { forall k :: 0 <= k < |s| ==> MayStand(s, k, start) }

  predicate LevelFits(levels: seq<string>, i: nat)
    requires i < |levels|
  {
    levels[i] == "+" || (if levels[i] == "#" then i == |levels| - 1 else Plain(levels[i]))
  }

  lemma StandTail(s: string, start: bool)
    requires s != ""
    ensures AllStand(s, start) <==> MayStand(s, 0, start) && AllStand(s[1..], s[0] == '/')
  {
    var tail, next := s[1..], s[0] == '/';
    assert forall k :: 0 < k < |s| ==> s[k] == tail[k - 1];
    forall k | 0 < k < |s|
      ensures MayStand(s, k, start) <==> MayStand(tail, k - 1, next)
    {
    }
    if AllStand(s, start) {
      forall k | 0 <= k < |tail|
        ensures MayStand(tail, k, next)
      {
        assert MayStand(s, k + 1, start);
      }
    }
  }

  predicate TailFits(levels: seq<string>) { forall i :: 0 < i < |levels| ==> LevelFits(levels, i) }

  lemma TailFitsShift(first: string, rest: seq<string>)
    requires rest != []
    ensures TailFits([first] + rest) <==> LevelFits(rest, 0) && TailFits(rest)
    ensures TailFits([first] + rest[1..]) <==> TailFits(rest)
  {
    var a, b := [first] + rest, [first] + rest[1..];
    assert forall i :: 0 <= i < |rest| ==> (LevelFits(a, i + 1) <==> LevelFits(rest, i));
    assert forall i :: 0 < i < |rest| ==> b[i] == rest[i] && (LevelFits(b, i) <==> LevelFits(rest, i));
    if TailFits(a) {
      forall i | 0 <= i < |rest|
        ensures LevelFits(rest, i)
      {
        assert LevelFits(a, i + 1);
      }
    }
    if LevelFits(rest, 0) && TailFits(rest) {
      forall i | 0 < i < |a|
        ensures LevelFits(a, i)
      {
        assert LevelFits(rest, i - 1);
      }
    }
  }

  lemma {:induction false} StandIff(s: string, start: bool)
    ensures var levels := Levels(s);
            AllStand(s, start) <==> (if start then LevelFits(levels, 0) else Plain(levels[0])) && TailFits(levels)
  {
    if s != "" {
      var rest := Levels(s[1..]);
      StandTail(s, start);
      StandIff(s[1..], s[0] == '/');
      if s[0] == '/' {
        TailFitsShift("", rest);
      } else {
        TailFitsShift([s[0]] + rest[0], rest);
        FirstLevel(s, rest, start);
      }
    }
  }

  lemma FirstLevel(s: string, rest: seq<string>, start: bool)
    requires s != "" && s[0] != '/' && rest == Levels(s[1..])
    ensures var levels := [[s[0]] + rest[0]] + rest[1..];
            (if start then LevelFits(levels, 0) else Plain(levels[0])) && TailFits(rest)
            <==> MayStand(s, 0, start) && Plain(rest[0]) && TailFits(rest)
  {
    var first, tail := [s[0]] + rest[0], s[1..];
    assert rest[0] == "" <==> tail == "" || tail[0] == '/';
    assert rest == [""] <==> tail == "" by {
      LevelsJoin(tail);
    }
    assert Plain(first) <==> s[0] != '+' && s[0] != '#' && Plain(rest[0]);
    assert first == "+" <==> s[0] == '+' && rest[0] == "";
    assert first == "#" <==> s[0] == '#' && rest[0] == "";
  }

  /**
   * A filter is valid exactly when it is neither empty nor longer than 1024 bytes, holds no NUL, each `+` stands alone
   * between slashes, and `#` does so at the end.
   */
  lemma ValidFilterIff(filter: string)
    ensures ValidFilter(filter) <==> filter != "" && ByteLength(filter) <= 1024 && '\0' !in filter && AllStand(filter, true)
  {
    var levels := Levels(filter);
    StandIff(filter, true);
    if WellFormed(levels) {
      assert forall i :: 0 <= i < |levels| ==> LevelFits(levels, i);
    }
    if LevelFits(levels, 0) && TailFits(levels) {
      forall i | 0 <= i < |levels|
        ensures levels[i] == "+" || (if levels[i] == "#" then i == |levels| - 1 else Plain(levels[i]))
      {
        assert LevelFits(levels, i);
      }
    }
  }
}
