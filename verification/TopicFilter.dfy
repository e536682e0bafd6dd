/**
 * Topic names, topic filters and their matching: sections 4.7 and 4.8.2 of MQTT Version 5.0,
 * `src/mqtt_proto/filter.rs` and `src/mqtt_proto/topic.rs`.
 *
 * Strings are byte strings. The four characters that matter are ASCII, and an ASCII byte never occurs
 * inside a multi-byte UTF-8 sequence, so scanning bytes and scanning characters agree. The rule for
 * strings (UTF-8, no disallowed code points) is the parameter `ok`.
 */
module TopicFilter {
  import opened Wrappers
  import opened Bytes

  const SEPARATOR: byte := 0x2F   // '/'
  const SINGLE: byte := 0x2B      // '+'
  const MULTI: byte := 0x23       // '#'
  const DOLLAR: byte := 0x24      // '$'
  const MAX_STRING: nat := 0xFFFF

  /** `$share/`. */
  const SHARE_PREFIX: Bytes := [0x24, 0x73, 0x68, 0x61, 0x72, 0x65, 0x2F]

  datatype Error = EmptyFilter | EmptyTopic | InvalidByteStr | InvalidFilter | InvalidTopic

  /** `Shared(i)` records the index of the `/` between the group name and the inner filter. */
  datatype Kind = Regular | Dollar | Shared(split: nat)

  datatype Filter = Filter(text: Bytes, kind: Kind)

  datatype Classified = RegularFilter(text: Bytes) | DollarFilter(text: Bytes) | SharedFilter(group: Bytes, inner: Filter)

  // --- Levels ---

  /** `str::split('/')`: one more level than there are separators. */
  function Levels(s: Bytes): (levels: seq<Bytes>)
    ensures |levels| >= 1
  {
    if s == [] then [[]]
    else
      var tail := Levels(s[1..]);
      if s[0] == SEPARATOR then [[]] + tail
      else [[s[0]] + tail[0]] + tail[1..]
  }

  function Join(levels: seq<Bytes>): Bytes
    requires |levels| >= 1
  {
    if |levels| == 1 then levels[0] else levels[0] + [SEPARATOR] + Join(levels[1..])
  }

  predicate HasNo(s: Bytes, c: byte) {
    forall i :: 0 <= i < |s| ==> s[i] != c
  }

  lemma {:induction false} LevelsJoin(s: Bytes)
    ensures Join(Levels(s)) == s
    ensures forall i :: 0 <= i < |Levels(s)| ==> HasNo(Levels(s)[i], SEPARATOR)
  {
    if s != [] {
      LevelsJoin(s[1..]);
      var tail := Levels(s[1..]);
      if s[0] == SEPARATOR {
        assert ([[]] + tail)[1..] == tail;
      } else {
        var levels := [[s[0]] + tail[0]] + tail[1..];
        assert levels[1..] == tail[1..];
      }
      assert s == [s[0]] + s[1..];
    }
  }

  predicate Plain(level: Bytes) {
    HasNo(level, SINGLE) && HasNo(level, MULTI)
  }

  /** Section 4.7.1: a wildcard occupies a whole level, and `#` only the last one. */
  predicate WellFormedLevels(levels: seq<Bytes>) {
    forall i :: 0 <= i < |levels| ==>
      || Plain(levels[i])
      || levels[i] == [SINGLE]
      || (levels[i] == [MULTI] && i == |levels| - 1)
  }

  // --- Validation ---

  datatype ParseState = AtSeparator | InLiteral | AfterSingle | AfterMulti

  /** One row of the transition table; `None` is rejection. */
  function Transition(state: ParseState, c: byte): Option<ParseState> {
    if state.AfterMulti? then None
    else if c == SEPARATOR then Some(AtSeparator)
    else if state.AtSeparator? && c == SINGLE then Some(AfterSingle)
    else if state.AtSeparator? && c == MULTI then Some(AfterMulti)
    else if state.AtSeparator? then Some(InLiteral)
    else if state.InLiteral? && c != SINGLE && c != MULTI then Some(InLiteral)
    else None
  }

  predicate Accepts(state: ParseState, s: Bytes)
    decreases |s|
  {
    s == [] ||
    var next := Transition(state, s[0]);
    next.Some? && Accepts(next.value, s[1..])
  }

  /** What each state of the scanner still demands of the levels ahead. */
  predicate Demands(state: ParseState, levels: seq<Bytes>)
    requires |levels| >= 1
  {
    match state
    case AtSeparator => WellFormedLevels(levels)
    case InLiteral => Plain(levels[0]) && WellFormedLevels(levels[1..])
    case AfterSingle => levels[0] == [] && WellFormedLevels(levels[1..])
    case AfterMulti => levels == [[]]
  }

  lemma WellFormedTail(first: Bytes, tail: seq<Bytes>)
    requires |tail| >= 1
    ensures WellFormedLevels([first] + tail) <==> (Plain(first) || first == [SINGLE]) && WellFormedLevels(tail)
  {
    var all := [first] + tail;
    assert all[0] == first;
    assert forall i :: 0 <= i < |tail| ==> all[i + 1] == tail[i];
    assert forall i :: 1 <= i < |all| ==> all[i] == tail[i - 1];
  }

  lemma WellFormedOne(level: Bytes)
    ensures WellFormedLevels([level]) <==> Plain(level) || level == [SINGLE] || level == [MULTI]
  {
    assert [level][0] == level;
  }

  lemma PlainHead(c: byte, level: Bytes)
    ensures Plain([c] + level) <==> c != SINGLE && c != MULTI && Plain(level)
  {
    var all := [c] + level;
    assert all[0] == c;
    assert forall i :: 0 <= i < |level| ==> all[i + 1] == level[i];
    assert forall i :: 1 <= i < |all| ==> all[i] == level[i - 1];
  }

  lemma ConsIsSingleton(c: byte, level: Bytes, d: byte)
    ensures [c] + level == [d] <==> c == d && level == []
  {
    assert ([c] + level)[0] == c;
    assert [d][0] == d;
    assert [c] + [] == [c];
  }

  /** The character scanner accepts exactly the level language. */
  lemma {:induction false} ScannerIsLevelLanguage(state: ParseState, s: Bytes)
    ensures Accepts(state, s) <==> Demands(state, Levels(s))
    decreases |s|
  {
    if s == [] {
      WellFormedOne([]);
    } else {
      var c, tail := s[0], Levels(s[1..]);
      var next := Transition(state, c);
      if next.Some? {
        ScannerIsLevelLanguage(next.value, s[1..]);
      }
      if c == SEPARATOR {
        assert ([[]] + tail)[1..] == tail;
        WellFormedTail([], tail);
      } else {
        var levels := [[c] + tail[0]] + tail[1..];
        assert Levels(s) == levels && levels[1..] == tail[1..];
        PlainHead(c, tail[0]);
        if |tail| == 1 {
          WellFormedOne([c] + tail[0]);
        } else {
          WellFormedTail([c] + tail[0], tail[1..]);
        }
        ConsIsSingleton(c, tail[0], SINGLE);
        ConsIsSingleton(c, tail[0], MULTI);
      }
    }
  }

  /** The scanning loop of `Filter::new`. */
  method Scan(filter: Bytes) returns (accepted: bool)
    ensures accepted <==> WellFormedLevels(Levels(filter))
  {
    ScannerIsLevelLanguage(AtSeparator, filter);
    var state, i := AtSeparator, 0;
    while i < |filter|
      invariant 0 <= i <= |filter|
      invariant Accepts(AtSeparator, filter) == Accepts(state, filter[i..])
    {
      var next := Transition(state, filter[i]);
      if next.None? {
        return false;
      }
      assert filter[i..][1..] == filter[i + 1..];
      state := next.value;
      i := i + 1;
    }
    return true;
  }

  /** Position of the first of `/`, `+` and `#`, or the length. */
  function Delimiter(s: Bytes): (i: nat)
    ensures i <= |s|
    ensures Plain(s[..i]) && HasNo(s[..i], SEPARATOR)
    ensures i < |s| ==> s[i] in {SEPARATOR, SINGLE, MULTI}
  {
    if s == [] || s[0] in {SEPARATOR, SINGLE, MULTI} then 0
    else
      var i := Delimiter(s[1..]);
      assert s[..i + 1] == [s[0]] + s[1..][..i];
      i + 1
  }

  /** `$share/<group>/<filter>` with a non-empty, wildcard-free group. */
  predicate SharedAt(s: Bytes, split: nat) {
    && SHARE_PREFIX <= s
    && |SHARE_PREFIX| < split < |s|
    && s[split] == SEPARATOR
    && Plain(s[|SHARE_PREFIX|..split])
    && HasNo(s[|SHARE_PREFIX|..split], SEPARATOR)
  }

  lemma SharedSplitIsDelimiter(s: Bytes, split: nat)
    requires SharedAt(s, split)
    ensures split == |SHARE_PREFIX| + Delimiter(s[|SHARE_PREFIX|..])
  {
    var rest := s[|SHARE_PREFIX|..];
    var i, d := split - |SHARE_PREFIX|, Delimiter(rest);
    assert rest[i] == s[split];
    assert forall k :: 0 <= k < i ==> rest[k] == s[|SHARE_PREFIX|..split][k];
    assert forall k :: 0 <= k < d ==> rest[k] == rest[..d][k];
  }

  /** Section 4.8.2 and 4.7.1 together: what a caller may subscribe to. */
  ghost predicate ValidFilterText(s: Bytes) {
    if !(SHARE_PREFIX <= s) then WellFormedLevels(Levels(s))
    else exists split: nat :: SharedAt(s, split) && split + 1 < |s| && WellFormedLevels(Levels(s[split + 1..]))
  }

  function KindOf(s: Bytes): Kind
    requires s != []
  {
    if s[0] != DOLLAR then Regular
    else if SHARE_PREFIX <= s then Shared(|SHARE_PREFIX| + Delimiter(s[|SHARE_PREFIX|..]))
    else Dollar
  }

  /** `Filter::new` as a value: the checks in the order in which they are made. */
  function ParseFilter(ok: Bytes -> bool, s: Bytes): (r: Result<Filter, Error>)
    ensures r.Success? ==> r.value.text == s
  {
    if s == [] then Failure(EmptyFilter)
    else if |s| > MAX_STRING then Failure(InvalidByteStr)
    else if !ok(s) then Failure(InvalidByteStr)
    else if !(SHARE_PREFIX <= s) then
      if Accepts(AtSeparator, s) then Success(Filter(s, KindOf(s))) else Failure(InvalidFilter)
    else
      var rest := s[|SHARE_PREFIX|..];
      var i := Delimiter(rest);
      if i == |rest| || rest[i] != SEPARATOR || i == 0 then Failure(InvalidFilter)
      else if i + 1 == |rest| then Failure(EmptyFilter)
      else if Accepts(AtSeparator, rest[i + 1..]) then Success(Filter(s, Shared(|SHARE_PREFIX| + i)))
      else Failure(InvalidFilter)
  }

  /** Past emptiness, length and string validity, exactly the texts of the filter language are accepted. */
  lemma ParseFilterExactly(ok: Bytes -> bool, s: Bytes)
    ensures ParseFilter(ok, s).Success? <==> s != [] && |s| <= MAX_STRING && ok(s) && ValidFilterText(s)
    ensures ParseFilter(ok, s).Success? ==> ParseFilter(ok, s).value == Filter(s, KindOf(s))
  {
    if s != [] && |s| <= MAX_STRING && ok(s) {
      if !(SHARE_PREFIX <= s) {
        ScannerIsLevelLanguage(AtSeparator, s);
      } else {
        var rest := s[|SHARE_PREFIX|..];
        var i := Delimiter(rest);
        var split := |SHARE_PREFIX| + i;
        if 0 < i < |rest| && rest[i] == SEPARATOR {
          assert s[|SHARE_PREFIX|..split] == rest[..i];
          assert SharedAt(s, split);
          assert rest[i + 1..] == s[split + 1..];
          ScannerIsLevelLanguage(AtSeparator, rest[i + 1..]);
        }
        forall at | SharedAt(s, at)
          ensures at == split && 0 < i < |rest| && rest[i] == SEPARATOR
        {
          SharedSplitIsDelimiter(s, at);
        }
        if ParseFilter(ok, s).Success? {
          assert SharedAt(s, split) && split + 1 < |s| && WellFormedLevels(Levels(s[split + 1..]));
        }
      }
    }
  }

  /** `Filter::new`, with its two loops. */
  method NewFilter(ok: Bytes -> bool, s: Bytes) returns (r: Result<Filter, Error>)
    ensures r == ParseFilter(ok, s)
  {
    if s == [] {
      return Failure(EmptyFilter);
    }
    if |s| > MAX_STRING {
      return Failure(InvalidByteStr);
    }
    if !ok(s) {
      return Failure(InvalidByteStr);
    }
    var kind, filter := Regular, s;
    if s[0] == DOLLAR {
      if SHARE_PREFIX <= s {
        var rest := s[|SHARE_PREFIX|..];
        var at: Option<nat> := None;
        var i := 0;
        while i < |rest| && at.None?
          invariant 0 <= i <= |rest|
          invariant at.None? ==> Delimiter(rest) == i + Delimiter(rest[i..])
          invariant at.Some? ==> at.value == Delimiter(rest) < |rest| && rest[at.value] == SEPARATOR
          decreases |rest| - i, at.None?
        {
          if rest[i] == SINGLE || rest[i] == MULTI {
            return Failure(InvalidFilter);
          }
          if rest[i] == SEPARATOR {
            at := Some(i);
          } else {
            assert rest[i..][1..] == rest[i + 1..];
            i := i + 1;
          }
        }
        if at.None? || at.value == 0 {
          return Failure(InvalidFilter);
        }
        var split := |SHARE_PREFIX| + at.value;
        filter := s[split + 1..];
        assert filter == rest[at.value + 1..];
        if filter == [] {
          return Failure(EmptyFilter);
        }
        kind := Shared(split);
      } else {
        kind := Dollar;
      }
    }
    var accepted := Scan(filter);
    ScannerIsLevelLanguage(AtSeparator, filter);
    return if accepted then Success(Filter(s, kind)) else Failure(InvalidFilter);
  }

  /** `Topic::new`. */
  function ParseTopic(ok: Bytes -> bool, s: Bytes): (r: Result<Bytes, Error>)
    ensures r.Success? <==> ValidTopic(ok, s)
    ensures r.Success? ==> r.value == s
  {
    if s == [] then Failure(EmptyTopic)
    else if |s| > MAX_STRING || !ok(s) then Failure(InvalidByteStr)
    else if !Plain(s) then Failure(InvalidTopic)
    else Success(s)
  }

  predicate ValidTopic(ok: Bytes -> bool, s: Bytes) {
    s != [] && |s| <= MAX_STRING && ok(s) && Plain(s)
  }

  // --- Classification ---

  ghost predicate ValidFilter(f: Filter) {
    f.text != [] && ValidFilterText(f.text) && f.kind == KindOf(f.text)
  }

  /** `Filter::classify`. */
  function Classify(f: Filter): Classified
    requires ValidFilter(f)
  {
    match f.kind
    case Regular => RegularFilter(f.text)
    case Dollar => DollarFilter(f.text)
    case Shared(split) =>
      SharedSplitInRange(f);
      SharedFilter(f.text[|SHARE_PREFIX|..split], Filter(f.text[split + 1..], Regular))
  }

  lemma SharedSplitInRange(f: Filter)
    requires ValidFilter(f) && f.kind.Shared?
    ensures SharedAt(f.text, f.kind.split) && f.kind.split + 1 < |f.text|
    ensures WellFormedLevels(Levels(f.text[f.kind.split + 1..]))
  {
    var split: nat :| SharedAt(f.text, split) && split + 1 < |f.text| && WellFormedLevels(Levels(f.text[split + 1..]));
    SharedSplitIsDelimiter(f.text, split);
  }

  /** A shared filter is its prefix, group, `/` and inner filter; the inner filter is in the level language. */
  lemma ClassifyReassembles(f: Filter)
    requires ValidFilter(f)
    ensures match Classify(f)
      case RegularFilter(t) => t == f.text && WellFormedLevels(Levels(t)) && t[0] != DOLLAR
      case DollarFilter(t) => t == f.text && WellFormedLevels(Levels(t)) && t[0] == DOLLAR
      case SharedFilter(g, inner) =>
        && f.text == SHARE_PREFIX + g + [SEPARATOR] + inner.text
        && g != [] && Plain(g) && HasNo(g, SEPARATOR)
        && inner.text != [] && WellFormedLevels(Levels(inner.text))
  {
    if f.kind.Shared? {
      SharedSplitInRange(f);
      var split := f.kind.split;
      var n := |SHARE_PREFIX|;
      assert f.text == f.text[..n] + f.text[n..split] + [f.text[split]] + f.text[split + 1..];
    } else {
      assert !(SHARE_PREFIX <= f.text);
    }
  }

  // --- Matching ---

  predicate StartsWithDollar(level: Bytes) {
    level != [] && level[0] == DOLLAR
  }

  predicate Wildcard(level: Bytes) {
    level == [SINGLE] || level == [MULTI]
  }

  /** `match_levels` on lists of levels. */
  predicate Matches(filter: seq<Bytes>, topic: seq<Bytes>) {
    if filter == [] || topic == [] then filter == topic
    else if !StartsWithDollar(topic[0]) && filter[0] == [MULTI] then true
    else if !StartsWithDollar(topic[0]) && filter[0] == [SINGLE] then Matches(filter[1..], topic[1..])
    else filter[0] == topic[0] && Matches(filter[1..], topic[1..])
  }

  /** `match_levels`: the loop over the two iterators. */
  method MatchLevels(filter: seq<Bytes>, topic: seq<Bytes>) returns (matched: bool)
    ensures matched == Matches(filter, topic)
  {
    var i := 0;
    while true
      invariant i <= |filter| && i <= |topic|
      invariant Matches(filter, topic) == Matches(filter[i..], topic[i..])
      decreases |filter| - i
    {
      if i < |filter| && i < |topic| {
        var f, t := filter[i], topic[i];
        assert filter[i..][1..] == filter[i + 1..] && topic[i..][1..] == topic[i + 1..];
        i := i + 1;
        if !StartsWithDollar(t) {
          if f == [MULTI] {
            return true;
          }
          if f == [SINGLE] {
            continue;
          }
        }
        if f != t {
          return false;
        }
      } else {
        return i == |filter| && i == |topic|;
      }
    }
  }

  /** Sections 4.7.1.2 and 4.7.1.3: `+` is one level, a final `#` is its parent and everything below. */
  ghost predicate LevelsMatch(filter: seq<Bytes>, topic: seq<Bytes>) {
    if filter == [] then topic == []
    else if filter[0] == [MULTI] then true
    else topic != [] && (filter[0] == [SINGLE] || filter[0] == topic[0]) && LevelsMatch(filter[1..], topic[1..])
  }

  /** Section 4.7.2: a filter that starts with a wildcard does not match a topic that starts with `$`. */
  ghost predicate StandardMatch(filter: seq<Bytes>, topic: seq<Bytes>)
    requires filter != [] && topic != []
  {
    LevelsMatch(filter, topic) && !(Wildcard(filter[0]) && StartsWithDollar(topic[0]))
  }

  /** The filter ends in `#` and the topic is just the level above. */
  ghost predicate OnlyParent(filter: seq<Bytes>, topic: seq<Bytes>) {
    filter != [] && filter[|filter| - 1] == [MULTI] && |topic| == |filter| - 1
  }

  /** A wildcard stands against a level that starts with `$`, at or after position `from`. */
  ghost predicate WildcardMeetsDollar(filter: seq<Bytes>, topic: seq<Bytes>, from: nat) {
    exists i :: from <= i < |filter| && i < |topic| && Wildcard(filter[i]) && StartsWithDollar(topic[i])
  }

  predicate TopicLevels(topic: seq<Bytes>) {
    forall i :: 0 <= i < |topic| ==> Plain(topic[i])
  }

  lemma WildcardMeetsDollarStep(filter: seq<Bytes>, topic: seq<Bytes>)
    requires filter != [] && topic != []
    ensures WildcardMeetsDollar(filter, topic, 0) <==>
      (Wildcard(filter[0]) && StartsWithDollar(topic[0])) || WildcardMeetsDollar(filter[1..], topic[1..], 0)
    ensures WildcardMeetsDollar(filter, topic, 1) <==> WildcardMeetsDollar(filter[1..], topic[1..], 0)
  {
  }

  lemma WildcardIsNotPlain(level: Bytes)
    ensures Wildcard(level) ==> !Plain(level)
  {
    if Wildcard(level) {
      assert level[0] == SINGLE || level[0] == MULTI;
    }
  }

  lemma WellFormedRest(levels: seq<Bytes>)
    requires levels != [] && WellFormedLevels(levels)
    ensures WellFormedLevels(levels[1..])
    ensures levels[0] == [MULTI] ==> |levels| == 1
  {
    var tail := levels[1..];
    assert forall i :: 0 <= i < |tail| ==> tail[i] == levels[i + 1];
    WildcardIsNotPlain(levels[0]);
  }

  /** The loop agrees with 4.7.1 except below a wildcard that meets `$` and at the parent of a final `#`. */
  lemma {:induction false} MatchesIsLevelsMatchWithout(filter: seq<Bytes>, topic: seq<Bytes>)
    requires WellFormedLevels(filter) && TopicLevels(topic)
    ensures Matches(filter, topic) <==>
      LevelsMatch(filter, topic) && !OnlyParent(filter, topic) && !WildcardMeetsDollar(filter, topic, 0)
  {
    if filter != [] && topic != [] {
      WildcardMeetsDollarStep(filter, topic);
      WellFormedRest(filter);
      assert Plain(topic[0]);
      assert forall i :: 0 <= i < |topic[1..]| ==> topic[1..][i] == topic[i + 1];
      WildcardIsNotPlain(filter[0]);
      if filter[0] == [MULTI] {
        assert filter[1..] == [];
      } else {
        MatchesIsLevelsMatchWithout(filter[1..], topic[1..]);
        if |filter| > 1 {
          assert filter[1..][|filter| - 2] == filter[|filter| - 1];
        }
      }
    } else if filter != [] {
      WellFormedRest(filter);
      if |filter| == 1 {
        assert LevelsMatch(filter, topic) ==> OnlyParent(filter, topic);
      }
    }
  }

  /** A topic matched by the code is matched by the standard, and the two differ exactly in the two named cases. */
  lemma MatchingGap(filter: seq<Bytes>, topic: seq<Bytes>)
    requires filter != [] && topic != []
    requires WellFormedLevels(filter) && TopicLevels(topic)
    ensures Matches(filter, topic) ==> StandardMatch(filter, topic)
    ensures StandardMatch(filter, topic) && !Matches(filter, topic) <==>
      StandardMatch(filter, topic) && (OnlyParent(filter, topic) || WildcardMeetsDollar(filter, topic, 1))
  {
    MatchesIsLevelsMatchWithout(filter, topic);
    WildcardMeetsDollarStep(filter, topic);
  }

  /** The levels a topic is compared with: all of them, or those behind `$share/<group>/`. */
  function EffectiveLevels(f: Filter): (levels: seq<Bytes>)
    requires ValidFilter(f)
    ensures levels != [] && WellFormedLevels(levels)
  {
    ClassifyReassembles(f);
    match Classify(f)
    case RegularFilter(_) => Levels(f.text)
    case DollarFilter(_) => Levels(f.text)
    case SharedFilter(_, inner) => Levels(inner.text)
  }

  lemma {:induction false} PlainTextHasPlainLevels(s: Bytes)
    requires Plain(s)
    ensures TopicLevels(Levels(s))
  {
    if s != [] {
      assert forall i :: 0 <= i < |s[1..]| ==> s[1..][i] == s[i + 1];
      PlainTextHasPlainLevels(s[1..]);
      PlainHead(s[0], Levels(s[1..])[0]);
    }
  }

  /** The text `$share/<group>/<inner>` with a group name that is not empty and has no `/`, `+` or `#`. */
  ghost predicate SharedText(text: Bytes, group: Bytes, inner: Bytes) {
    && text == [0x24, 0x73, 0x68, 0x61, 0x72, 0x65, 0x2F] + group + [0x2F] + inner
    && group != [] && forall i :: 0 <= i < |group| ==> group[i] !in {0x2F, 0x2B, 0x23}
  }

  /** Every valid filter that starts with `$share/` is such a text, and its topics are compared with the inner filter. */
  lemma SharedByInner(f: Filter, group: Bytes, inner: Bytes)
    requires ValidFilter(f) && SharedText(f.text, group, inner)
    ensures EffectiveLevels(f) == Levels(inner)
  {
    var split := |SHARE_PREFIX| + |group|;
    assert f.text[|SHARE_PREFIX|..split] == group && f.text[split + 1..] == inner;
    assert SharedAt(f.text, split);
    SharedSplitIsDelimiter(f.text, split);
  }

  lemma SharedHasParts(f: Filter)
    requires ValidFilter(f) && SHARE_PREFIX <= f.text
    ensures exists group, inner :: SharedText(f.text, group, inner)
  {
    ClassifyReassembles(f);
    var c := Classify(f);
    assert SharedText(f.text, c.group, c.inner.text);
  }

  /** The matcher's answer: section 4.7, but not for the parent of a final `#` nor past a wildcard that meets `$`. */
  ghost predicate Decided(matched: bool, filter: seq<Bytes>, topic: seq<Bytes>)
    requires filter != [] && topic != []
  {
    matched <==> StandardMatch(filter, topic) && !OnlyParent(filter, topic) && !WildcardMeetsDollar(filter, topic, 1)
  }

  /**
   * `Filter::matches_topic`, for every filter and topic that the constructors accept: a shared subscription matches by
   * its inner filter, any other filter by its whole text.
   */
  method MatchesTopic(ok: Bytes -> bool, f: Filter, topic: Bytes) returns (matched: bool)
    requires ValidFilter(f) && ValidTopic(ok, topic)
    ensures forall group, inner :: SharedText(f.text, group, inner) ==> Decided(matched, Levels(inner), Levels(topic))
    ensures (exists group, inner :: SharedText(f.text, group, inner)) || Decided(matched, Levels(f.text), Levels(topic))
  {
    var levels := EffectiveLevels(f);
    matched := MatchLevels(levels, Levels(topic));
    PlainTextHasPlainLevels(topic);
    MatchingGap(levels, Levels(topic));
    forall group, inner | SharedText(f.text, group, inner)
      ensures Decided(matched, Levels(inner), Levels(topic))
    {
      SharedByInner(f, group, inner);
    }
    if SHARE_PREFIX <= f.text {
      SharedHasParts(f);
    }
  }

  /** Both halves of the gap are inhabited: `a/#` against `a`, and `a/+` against `a/$b`. */
  lemma MatchingGapIsReal()
    ensures StandardMatch([[0x61], [0x23]], [[0x61]]) && !Matches([[0x61], [0x23]], [[0x61]])
    ensures StandardMatch([[0x61], [0x2B]], [[0x61], [0x24, 0x62]]) && !Matches([[0x61], [0x2B]], [[0x61], [0x24, 0x62]])
  {
  }

  // --- The characters ---

  /** Levels are what stands between slashes. */
  lemma {:induction false} LevelsBetweenSlashes(level: Bytes, rest: Bytes)
    requires forall i :: 0 <= i < |level| ==> level[i] != 0x2F
    ensures Levels(level) == [level] && Levels(level + [0x2F] + rest) == [level] + Levels(rest)
  {
    var s := level + [0x2F] + rest;
    if level == [] {
      assert s[1..] == rest;
    } else {
      LevelsBetweenSlashes(level[1..], rest);
      assert s[1..] == level[1..] + [0x2F] + rest;
      assert [level[0]] + level[1..] == level;
    }
  }

  /** A level is `+`, or `#` in last place, or has neither character; a topic has neither. */
  lemma WildcardCharacters(levels: seq<Bytes>, ok: Bytes -> bool, topic: Bytes)
    ensures WellFormedLevels(levels) <==> forall i :: 0 <= i < |levels| ==>
      || levels[i] == [0x2B] || (levels[i] == [0x23] && i == |levels| - 1)
      || (0x2B !in levels[i] && 0x23 !in levels[i])
    ensures ValidTopic(ok, topic) <==> 1 <= |topic| <= 65535 && ok(topic) && 0x2B !in topic && 0x23 !in topic
  {
  }
}
