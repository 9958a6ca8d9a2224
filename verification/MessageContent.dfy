/** message-content.ts: cutting a message into plain text and links without losing a character.
    Strings are sequences of characters; parsing a URL is a function the module is given. */
module MessageContent {
  import opened Wrappers

  // ---------- Trimming ----------

  predicate IsSimplePunctuation(c: char) { c in ".,!?;:\"'" }

  function Opener(c: char): Option<char> {
    if c == ')' then Some('(') else if c == ']' then Some('[') else if c == '}' then Some('{') else None
  }

  function Occurrences(s: string, c: char): nat {
    if s == "" then 0 else Occurrences(s[..|s| - 1], c) + (if s[|s| - 1] == c then 1 else 0)
  }

  /** The last character does not belong to a URL: simple punctuation, or a closing bracket
      that outnumbers its opening one. */
  predicate Trimmable(s: string)
    requires s != ""
  {
    var last := s[|s| - 1];
    IsSimplePunctuation(last) || (Opener(last).Some? && Occurrences(s, last) > Occurrences(s, Opener(last).value))
  }

  /** White space as `\s` and `trim` know it. */
  predicate IsSpace(c: char) {
    || c in " \t\n\r" || c == '\U{000B}' || c == '\U{000C}' || c == '\U{00A0}' || c == '\U{1680}'
    || '\U{2000}' <= c <= '\U{200A}' || c == '\U{2028}' || c == '\U{2029}' || c == '\U{202F}' || c == '\U{205F}'
    || c == '\U{3000}' || c == '\U{FEFF}'
  }

  predicate IsSpaceless(s: string) { forall c :: c in s ==> !IsSpace(c) }

  function Strip(s: string): string {
    if s != "" && IsSpace(s[0]) then Strip(s[1..])
    else if s != "" && IsSpace(s[|s| - 1]) then Strip(s[..|s| - 1])
    else s
  }

  /** What is left of a string is its longest prefix that ends well. */
  predicate IsTrimmed(s: string, t: string) {
    && t <= s && (t == "" || !Trimmable(t))
    && forall n :: |t| < n <= |s| ==> Trimmable(s[..n])
  }

  lemma TrimmedIsUnique(s: string, t: string, u: string)
    requires IsTrimmed(s, t) && IsTrimmed(s, u)
    ensures t == u
  {
    assert t == s[..|t|] && u == s[..|u|];
  }

  method TrimUrlPunctuation(value: string) returns (normalized: string)
    ensures IsTrimmed(Strip(value), normalized) && normalized == UrlText(value)
    ensures IsSpaceless(value) ==> IsTrimmed(value, normalized)
  {
    normalized := Strip(value);
    ghost var stripped := normalized;
    if IsSpaceless(value) { StripIsIdle(value); }
    while normalized != ""
      invariant normalized <= stripped && forall n :: |normalized| < n <= |stripped| ==> Trimmable(stripped[..n])
      decreases |normalized|
    {
      assert normalized == stripped[..|normalized|];
      var last := normalized[|normalized| - 1];
      if IsSimplePunctuation(last) {
        normalized := normalized[..|normalized| - 1];
        continue;
      }
      var opener := Opener(last);
      if opener.Some? && Occurrences(normalized, last) > Occurrences(normalized, opener.value) {
        normalized := normalized[..|normalized| - 1];
        continue;
      }
      break;
    }
    TrimmedIsUnique(stripped, normalized, Trimmed(stripped));
  }

  lemma StripIsIdle(s: string)
    requires IsSpaceless(s)
    ensures Strip(s) == s
  {
  }

  /** The longest well-ending prefix, as a function. */
  function Trimmed(s: string): (t: string)
    ensures IsTrimmed(s, t)
  {
    if s == "" || !Trimmable(s) then s
    else
      var t := Trimmed(s[..|s| - 1]);
      assert forall n :: |t| < n < |s| ==> s[..n] == s[..|s| - 1][..n];
      assert s[..|s|] == s;
      t
  }

  /** What `TrimUrlPunctuation` returns. */
  function UrlText(s: string): string { Trimmed(Strip(s)) }

  lemma {:induction false} StripIsTight(s: string)
    ensures var t := Strip(s); t != "" ==> !IsSpace(t[0]) && !IsSpace(t[|t| - 1])
    ensures |Strip(s)| <= |s| && (Strip(s) == s <==> s == "" || (!IsSpace(s[0]) && !IsSpace(s[|s| - 1])))
    decreases |s|
  {
    if s != "" && IsSpace(s[0]) { StripIsTight(s[1..]); }
    else if s != "" && IsSpace(s[|s| - 1]) { StripIsTight(s[..|s| - 1]); }
  }

  /** The first `n` characters end in white space, and after it comes only what trimming takes off. */
  predicate IsSpaceBeforeTail(s: string, n: nat) {
    0 < n <= |s| && IsSpace(s[n - 1]) && forall m :: n < m <= |s| ==> Trimmable(s[..m])
  }

  predicate LeavesSpace(s: string) { exists n :: 0 <= n <= |s| && IsSpaceBeforeTail(s, n) }

  /** White space in the middle comes to the end of a trimmed text exactly if only trimmable
      characters follow it. */
  lemma TrimmedEndsInSpace(s: string)
    ensures var t := Trimmed(s); t != "" && IsSpace(t[|t| - 1]) <==> LeavesSpace(s)
  {
    var t := Trimmed(s);
    if LeavesSpace(s) {
      var n: nat :| n <= |s| && IsSpaceBeforeTail(s, n);
      assert s[..n][n - 1] == s[n - 1] && !Trimmable(s[..n]);
      TrimmedIsUnique(s, t, s[..n]);
    }
    if t != "" && IsSpace(t[|t| - 1]) { assert IsSpaceBeforeTail(s, |t|); }
  }

  /** Trimming a second time changes nothing exactly if the stripped text has no white space
      followed only by what trimming takes off; a text without white space has none. */
  lemma TrimmingTwice(s: string)
    ensures UrlText(UrlText(s)) == UrlText(s) <==> !LeavesSpace(Strip(s))
    ensures IsSpaceless(s) ==> UrlText(UrlText(s)) == UrlText(s)
  {
    var t := UrlText(s);
    StripIsTight(s);
    TrimmedEndsInSpace(Strip(s));
    StripIsTight(t);
    if t != "" && Strip(t) == t { TrimmedIsUnique(t, Trimmed(t), t); }
    if IsSpaceless(s) { StripIsIdle(s); }
  }

  /** "a ." is trimmed to "a ", and that to "a". */
  lemma TrimmingTwiceDiffers()
    ensures UrlText("a .") == "a " && UrlText("a ") == "a"
  {
    assert "a ."[..2] == "a " && "a "[..1] == "a";
    assert Strip("a .") == "a ." && Strip("a ") == "a";
    assert !Trimmable("a ") && !Trimmable("a");
  }

  // ---------- Candidates ----------

  predicate IsUrlChar(c: char) { !IsSpace(c) && c !in "<>\"'" }

  predicate At(text: string, i: nat, lower: char, upper: char) { i < |text| && (text[i] == lower || text[i] == upper) }

  predicate IsHttp(text: string, i: nat) {
    At(text, i, 'h', 'H') && At(text, i + 1, 't', 'T') && At(text, i + 2, 't', 'T') && At(text, i + 3, 'p', 'P')
  }

  predicate IsColonSlashSlash(text: string, i: nat) {
    At(text, i, ':', ':') && At(text, i + 1, '/', '/') && At(text, i + 2, '/', '/')
  }

  predicate IsWww(text: string, i: nat) {
    At(text, i, 'w', 'W') && At(text, i + 1, 'w', 'W') && At(text, i + 2, 'w', 'W') && At(text, i + 3, '.', '.')
  }

  /** The length of `https://`, `http://` or `www.` at `i`, in any case; 0 if there is none. */
  function SchemeLength(text: string, i: nat): (n: nat)
    ensures n > 0 ==> i + n <= |text| && IsLetter(text[i]) && forall k :: i <= k < i + n ==> IsUrlChar(text[k])
  {
    if IsHttp(text, i) && At(text, i + 4, 's', 'S') && IsColonSlashSlash(text, i + 5) then 8
    else if IsHttp(text, i) && IsColonSlashSlash(text, i + 4) then 7
    else if IsWww(text, i) then 4
    else 0
  }

  predicate IsLetter(c: char) { 'a' <= c <= 'z' || 'A' <= c <= 'Z' }

  function RunEnd(text: string, i: nat): (end: nat)
    requires i <= |text|
    ensures i <= end <= |text|
    ensures forall k :: i <= k < end ==> IsUrlChar(text[k])
    ensures end < |text| ==> !IsUrlChar(text[end])
    decreases |text| - i
  {
    if i < |text| && IsUrlChar(text[i]) then RunEnd(text, i + 1) else i
  }

  predicate IsCandidateAt(text: string, i: nat) {
    var n := SchemeLength(text, i);
    n > 0 && i + n < |text| && IsUrlChar(text[i + n])
  }

  function Lower(c: char): char { if 'A' <= c <= 'Z' then ((c - 'A') + 'a') else c }

  /** The text goes on with the scheme at `i`, in any case, and then with a character of a URL. */
  predicate GoesOnWith(text: string, i: nat, scheme: string) {
    && i + |scheme| < |text| && IsUrlChar(text[i + |scheme|])
    && forall k :: 0 <= k < |scheme| ==> Lower(text[i + k]) == scheme[k]
  }

  lemma HttpIs(text: string, i: nat)
    ensures IsHttp(text, i) && At(text, i + 4, 's', 'S') && IsColonSlashSlash(text, i + 5) && i + 8 < |text| && IsUrlChar(text[i + 8])
            <==> GoesOnWith(text, i, "https://")
    ensures IsHttp(text, i) && IsColonSlashSlash(text, i + 4) && i + 7 < |text| && IsUrlChar(text[i + 7]) <==> GoesOnWith(text, i, "http://")
  {
    hide IsUrlChar;
    if GoesOnWith(text, i, "https://") {
      var s := "https://";
      assert Lower(text[i]) == s[0] && Lower(text[i + 1]) == s[1] && Lower(text[i + 2]) == s[2] && Lower(text[i + 3]) == s[3];
      assert Lower(text[i + 4]) == s[4] && Lower(text[i + 5]) == s[5] && Lower(text[i + 6]) == s[6] && Lower(text[i + 7]) == s[7];
    }
    if GoesOnWith(text, i, "http://") {
      var s := "http://";
      assert Lower(text[i]) == s[0] && Lower(text[i + 1]) == s[1] && Lower(text[i + 2]) == s[2] && Lower(text[i + 3]) == s[3];
      assert Lower(text[i + 4]) == s[4] && Lower(text[i + 5]) == s[5] && Lower(text[i + 6]) == s[6];
    }
  }

  lemma WwwIs(text: string, i: nat)
    ensures IsWww(text, i) && i + 4 < |text| && IsUrlChar(text[i + 4]) <==> GoesOnWith(text, i, "www.")
  {
    hide IsUrlChar;
    if GoesOnWith(text, i, "www.") {
      var s := "www.";
      assert Lower(text[i]) == s[0] && Lower(text[i + 1]) == s[1] && Lower(text[i + 2]) == s[2] && Lower(text[i + 3]) == s[3];
    }
  }

  /** The candidate pattern: a scheme and at least one more character of a URL, and as many of them
      as there are. */
  lemma CandidatesAre(text: string, i: nat)
    ensures IsCandidateAt(text, i) <==> GoesOnWith(text, i, "https://") || GoesOnWith(text, i, "http://") || GoesOnWith(text, i, "www.")
    ensures IsCandidateAt(text, i) ==>
              && (forall k :: i <= k < CandidateEnd(text, i) ==> IsUrlChar(text[k]))
              && (CandidateEnd(text, i) < |text| ==> !IsUrlChar(text[CandidateEnd(text, i)]))
  {
    HttpIs(text, i);
    WwwIs(text, i);
    if IsCandidateAt(text, i) { CandidateChars(text, i); }
    hide GoesOnWith, IsUrlChar, CandidateEnd;
  }

  /** The first candidate at or after `from`, or the end of the text. */
  function NextCandidate(text: string, from: nat): (i: nat)
    requires from <= |text|
    ensures from <= i <= |text|
    ensures i < |text| ==> IsCandidateAt(text, i)
    ensures forall k :: from <= k < i ==> !IsCandidateAt(text, k)
    decreases |text| - from
  {
    if from == |text| || IsCandidateAt(text, from) then from else NextCandidate(text, from + 1)
  }

  function CandidateEnd(text: string, i: nat): (end: nat)
    requires i < |text| && IsCandidateAt(text, i)
    ensures i + SchemeLength(text, i) < end <= |text|
  {
    var first := i + SchemeLength(text, i);
    RunEnd(text, first + 1)
  }

  /** A candidate holds no white space and no quote or angle bracket, and it begins with a letter. */
  lemma CandidateChars(text: string, i: nat)
    requires i < |text| && IsCandidateAt(text, i)
    ensures forall k :: i <= k < CandidateEnd(text, i) ==> IsUrlChar(text[k])
    ensures CandidateEnd(text, i) < |text| ==> !IsUrlChar(text[CandidateEnd(text, i)])
    ensures IsSpaceless(text[i..CandidateEnd(text, i)]) && IsLetter(text[i])
  {
  }

  /** So trimming leaves something of it. */
  lemma LettersSurvive(candidate: string)
    requires candidate != "" && IsLetter(candidate[0])
    ensures Trimmed(candidate) != "" && Trimmed(candidate)[0] == candidate[0]
  {
    assert !Trimmable(candidate[..1]);
  }

  // ---------- Parts ----------

  datatype Part = Part(value: string, url: Option<string>)

  function Joined(parts: seq<Part>): string {
    if parts == [] then "" else Joined(parts[..|parts| - 1]) + parts[|parts| - 1].value
  }

  lemma JoinedGrows(parts: seq<Part>, p: Part)
    ensures Joined(parts + [p]) == Joined(parts) + p.value
  {
    assert (parts + [p])[..|parts|] == parts;
  }

  function Plain(value: string): seq<Part> { if value == "" then [] else [Part(value, None)] }

  /** The parts one candidate `text[i..end]` adds: the plain text before it, the candidate
      without its trailing punctuation, and that punctuation as plain text. */
  function RoundParts(before: string, candidate: string, parse: string -> Option<string>): seq<Part> {
    var cleaned := Trimmed(candidate);
    Plain(before) + [Part(cleaned, parse(cleaned))] + Plain(candidate[|cleaned|..])
  }

  function PartsFrom(text: string, cursor: nat, parse: string -> Option<string>): seq<Part>
    requires cursor <= |text|
    decreases |text| - cursor
  {
    var i := NextCandidate(text, cursor);
    if i == |text| then Plain(text[cursor..])
    else RoundParts(text[cursor..i], text[i..CandidateEnd(text, i)], parse) + PartsFrom(text, CandidateEnd(text, i), parse)
  }

  lemma {:induction false} JoinedJoins(a: seq<Part>, b: seq<Part>)
    ensures Joined(a + b) == Joined(a) + Joined(b)
  {
    if b == [] {
      assert a + b == a;
      assert Joined(b) == "";
    } else {
      hide Joined;
      var rest, last := b[..|b| - 1], b[|b| - 1];
      assert a + b == (a + rest) + [last] && b == rest + [last];
      JoinedJoins(a, rest);
      JoinedGrows(a + rest, last);
      JoinedGrows(rest, last);
      assert (Joined(a) + Joined(rest)) + last.value == Joined(a) + (Joined(rest) + last.value);
    }
  }

  lemma PlainJoins(value: string)
    ensures Joined(Plain(value)) == value
  {
  }

  lemma ThreeJoin(before: string, link: Part, after: string)
    ensures Joined(Plain(before) + [link] + Plain(after)) == before + link.value + after
  {
    hide Joined, Plain;
    PlainJoins(before);
    PlainJoins(after);
    JoinedGrows(Plain(before), link);
    JoinedJoins(Plain(before) + [link], Plain(after));
  }

  lemma PrefixJoins(before: string, candidate: string, cleaned: string)
    requires cleaned <= candidate
    ensures before + cleaned + candidate[|cleaned|..] == before + candidate
  {
  }

  /** The pieces of a round give back the text they were cut from. */
  lemma RoundJoins(before: string, candidate: string, parse: string -> Option<string>)
    ensures Joined(RoundParts(before, candidate, parse)) == before + candidate
  {
    var cleaned := Trimmed(candidate);
    assert cleaned <= candidate;
    hide Trimmed, Joined, Plain, IsTrimmed;
    ThreeJoin(before, Part(cleaned, parse(cleaned)), candidate[|cleaned|..]);
    PrefixJoins(before, candidate, cleaned);
  }

  /** Nothing of the text is lost, added or reordered. */
  lemma {:induction false} PartsAreLossless(text: string, cursor: nat, parse: string -> Option<string>)
    requires cursor <= |text|
    ensures Joined(PartsFrom(text, cursor, parse)) == text[cursor..]
    decreases |text| - cursor
  {
    var i := NextCandidate(text, cursor);
    if i == |text| {
      PlainJoins(text[cursor..]);
    } else {
      var end := CandidateEnd(text, i);
      hide CandidateEnd, RoundParts, IsCandidateAt, Joined;
      RoundJoins(text[cursor..i], text[i..end], parse);
      PartsAreLossless(text, end, parse);
      JoinedJoins(RoundParts(text[cursor..i], text[i..end], parse), PartsFrom(text, end, parse));
      SlicesJoin(text, cursor, i, end);
    }
  }

  lemma SlicesJoin(text: string, a: nat, b: nat, c: nat)
    requires a <= b <= c <= |text|
    ensures text[a..b] + text[b..c] + text[c..] == text[a..]
  {
    assert text[a..b] + text[b..c] == text[a..c];
    assert text[a..c] + text[c..] == text[a..];
  }

  /** A part is never empty, and a link is exactly what is left of a candidate: it holds no
      white space, begins with a letter and ends in a character that belongs to it. */
  predicate IsGoodPart(p: Part, parse: string -> Option<string>) {
    && p.value != ""
    && (p.url.Some? ==> p.url == parse(p.value) && IsSpaceless(p.value) && IsLetter(p.value[0]) && !Trimmable(p.value))
  }

  lemma RoundIsGood(before: string, candidate: string, parse: string -> Option<string>)
    requires candidate != "" && IsLetter(candidate[0]) && IsSpaceless(candidate)
    ensures forall p :: p in RoundParts(before, candidate, parse) ==> IsGoodPart(p, parse)
  {
    LettersSurvive(candidate);
    var cleaned := Trimmed(candidate);
    assert IsSpaceless(cleaned) by { assert forall c :: c in cleaned ==> c in candidate; }
    hide IsSpaceless, IsLetter;
  }

  lemma {:induction false} PartsAreGood(text: string, cursor: nat, parse: string -> Option<string>)
    requires cursor <= |text|
    ensures forall p :: p in PartsFrom(text, cursor, parse) ==> IsGoodPart(p, parse)
    decreases |text| - cursor
  {
    var i := NextCandidate(text, cursor);
    if i < |text| {
      CandidateChars(text, i);
      var end := CandidateEnd(text, i);
      hide CandidateEnd, NextCandidate, RoundParts, IsCandidateAt, IsGoodPart, IsLetter, IsSpaceless;
      RoundIsGood(text[cursor..i], text[i..end], parse);
      PartsAreGood(text, end, parse);
    }
  }

  lemma LastParts(text: string, cursor: nat, parse: string -> Option<string>)
    requires cursor <= |text| && NextCandidate(text, cursor) == |text|
    ensures PartsFrom(text, cursor, parse) == Plain(text[cursor..])
  {
  }

  lemma NextParts(text: string, cursor: nat, parse: string -> Option<string>, parts: seq<Part>)
    requires cursor <= |text| && NextCandidate(text, cursor) < |text|
    ensures var i := NextCandidate(text, cursor);
            var end := CandidateEnd(text, i);
            parts + PartsFrom(text, cursor, parse)
            == (parts + RoundParts(text[cursor..i], text[i..end], parse)) + PartsFrom(text, end, parse)
  {
    hide RoundParts, NextCandidate, CandidateEnd, IsCandidateAt;
  }

  // ---------- Where the links are ----------

  /** A match of the candidate pattern starts here: a candidate that no earlier match covers. */
  predicate IsMatchAt(text: string, i: nat)
    decreases i
  {
    i < |text| && IsCandidateAt(text, i) && forall j: nat :: j < i && IsMatchAt(text, j) ==> CandidateEnd(text, j) <= i
  }

  /** The part at offset `at` of the text is a link exactly if a match starts there: its value is
      the match without its trailing punctuation, and its url what that parses to. */
  predicate IsPartAt(text: string, at: nat, p: Part, parse: string -> Option<string>) {
    if IsMatchAt(text, at) then IsTrimmed(text[at..CandidateEnd(text, at)], p.value) && p.url == parse(p.value)
    else p.url.None?
  }

  function OffsetOf(parts: seq<Part>, k: nat): nat
    requires k <= |parts|
  {
    |Joined(parts[..k])|
  }

  /** Every part is what its place in the text says. */
  predicate ArePartsFrom(text: string, base: nat, parts: seq<Part>, parse: string -> Option<string>) {
    forall k :: 0 <= k < |parts| ==> IsPartAt(text, base + OffsetOf(parts, k), parts[k], parse)
  }

  /** Every match from `base` up to the end of the parts has a part of its own. */
  predicate MeetMatches(text: string, base: nat, parts: seq<Part>) {
    forall i :: base <= i < base + |Joined(parts)| && IsMatchAt(text, i) ==> exists k :: 0 <= k < |parts| && base + OffsetOf(parts, k) == i
  }

  predicate AreInPlace(text: string, base: nat, parts: seq<Part>, parse: string -> Option<string>) {
    ArePartsFrom(text, base, parts, parse) && MeetMatches(text, base, parts)
  }

  lemma OffsetsJoin(a: seq<Part>, b: seq<Part>, k: nat)
    requires k <= |a| + |b|
    ensures OffsetOf(a + b, k) == if k <= |a| then OffsetOf(a, k) else |Joined(a)| + OffsetOf(b, k - |a|)
  {
    if k <= |a| { assert (a + b)[..k] == a[..k]; }
    else {
      assert (a + b)[..k] == a + b[..k - |a|];
      JoinedJoins(a, b[..k - |a|]);
    }
  }

  lemma PartsFromJoin(text: string, base: nat, a: seq<Part>, b: seq<Part>, parse: string -> Option<string>)
    requires ArePartsFrom(text, base, a, parse) && ArePartsFrom(text, base + |Joined(a)|, b, parse)
    ensures ArePartsFrom(text, base, a + b, parse)
  {
    hide IsPartAt, Joined, OffsetOf;
    forall k | 0 <= k < |a + b| ensures IsPartAt(text, base + OffsetOf(a + b, k), (a + b)[k], parse) {
      OffsetsJoin(a, b, k);
      if k == |a| { FirstOffset(a, b); }
    }
  }

  lemma FirstOffset(a: seq<Part>, b: seq<Part>)
    ensures OffsetOf(a, |a|) == |Joined(a)| && OffsetOf(b, 0) == 0
  {
    assert a[..|a|] == a && b[..0] == [];
  }

  lemma MeetingsJoin(text: string, base: nat, a: seq<Part>, b: seq<Part>)
    requires MeetMatches(text, base, a) && MeetMatches(text, base + |Joined(a)|, b)
    ensures MeetMatches(text, base, a + b)
  {
    hide Joined, OffsetOf, IsMatchAt;
    JoinedJoins(a, b);
    forall i | base <= i < base + |Joined(a + b)| && IsMatchAt(text, i)
      ensures exists k :: 0 <= k < |a + b| && base + OffsetOf(a + b, k) == i
    {
      if i < base + |Joined(a)| {
        var k :| 0 <= k < |a| && base + OffsetOf(a, k) == i;
        OffsetsJoin(a, b, k);
      } else {
        var k :| 0 <= k < |b| && base + |Joined(a)| + OffsetOf(b, k) == i;
        OffsetsJoin(a, b, |a| + k);
        if k == 0 { FirstOffset(a, b); }
        assert OffsetOf(a + b, |a| + k) == |Joined(a)| + OffsetOf(b, k);
      }
    }
  }

  /** No match before `cursor` reaches beyond it. */
  predicate IsClear(text: string, cursor: nat) {
    forall j: nat :: j < cursor && IsMatchAt(text, j) ==> CandidateEnd(text, j) <= cursor
  }

  /** The matches from a clear position on: none before the next candidate, which is one, and none
      within it. */
  lemma NextMatch(text: string, cursor: nat)
    requires cursor <= |text| && IsClear(text, cursor)
    ensures var i := NextCandidate(text, cursor);
            && (forall k :: cursor <= k < i ==> !IsMatchAt(text, k))
            && (i < |text| ==>
                  && IsMatchAt(text, i) && IsClear(text, CandidateEnd(text, i))
                  && forall k :: i < k < CandidateEnd(text, i) ==> !IsMatchAt(text, k))
  {
    var i := NextCandidate(text, cursor);
    hide IsCandidateAt, CandidateEnd;
    if i < |text| {
      assert forall j: nat :: j < i && IsMatchAt(text, j) ==> j < cursor;
      assert IsMatchAt(text, i);
    }
  }

  lemma PlainIsPlain(text: string, base: nat, value: string, parse: string -> Option<string>)
    requires forall k :: base <= k < base + |value| ==> !IsMatchAt(text, k)
    ensures AreInPlace(text, base, Plain(value), parse)
  {
    hide IsMatchAt;
    PlainJoins(value);
    if value != "" { FirstOffset([], Plain(value)); }
  }

  /** One link in its place. */
  lemma LinkIsInPlace(text: string, i: nat, link: Part, parse: string -> Option<string>)
    requires IsPartAt(text, i, link, parse) && link.value != "" && forall k :: i < k < i + |link.value| ==> !IsMatchAt(text, k)
    ensures AreInPlace(text, i, [link], parse) && Joined([link]) == link.value
  {
    hide IsPartAt, IsMatchAt;
    FirstOffset([], [link]);
    JoinedGrows([], link);
    assert [] + [link] == [link] && Joined([]) == "";
  }

  /** What is left of a match is not empty. */
  lemma MatchesLeaveLinks(text: string, i: nat, parse: string -> Option<string>)
    requires i < |text| && IsMatchAt(text, i)
    ensures var cleaned := Trimmed(text[i..CandidateEnd(text, i)]);
            cleaned != "" && cleaned <= text[i..CandidateEnd(text, i)] && IsPartAt(text, i, Part(cleaned, parse(cleaned)), parse)
  {
    CandidateChars(text, i);
    var candidate := text[i..CandidateEnd(text, i)];
    assert candidate != "" && candidate[0] == text[i];
    hide CandidateEnd, IsCandidateAt, IsLetter;
    LettersSurvive(candidate);
  }

  lemma InPlaceJoins(text: string, base: nat, a: seq<Part>, b: seq<Part>, parse: string -> Option<string>)
    requires AreInPlace(text, base, a, parse) && AreInPlace(text, base + |Joined(a)|, b, parse)
    ensures AreInPlace(text, base, a + b, parse)
  {
    hide ArePartsFrom, MeetMatches, Joined;
    PartsFromJoin(text, base, a, b, parse);
    MeetingsJoin(text, base, a, b);
  }

  lemma ThreeInPlace(text: string, cursor: nat, before: string, link: Part, after: string, parse: string -> Option<string>)
    requires IsPartAt(text, cursor + |before|, link, parse) && link.value != ""
    requires forall k :: cursor <= k < cursor + |before| + |link.value| + |after| && k != cursor + |before| ==> !IsMatchAt(text, k)
    ensures AreInPlace(text, cursor, Plain(before) + [link] + Plain(after), parse)
  {
    hide IsPartAt, IsMatchAt, AreInPlace, Plain, Joined;
    var i := cursor + |before|;
    PlainIsPlain(text, cursor, before, parse);
    LinkIsInPlace(text, i, link, parse);
    PlainIsPlain(text, i + |link.value|, after, parse);
    PlainJoins(before);
    JoinedGrows(Plain(before), link);
    InPlaceJoins(text, cursor, Plain(before), [link], parse);
    InPlaceJoins(text, cursor, Plain(before) + [link], Plain(after), parse);
  }

  /** The parts of one match stand where it does. */
  lemma RoundIsInPlace(text: string, cursor: nat, i: nat, end: nat, parse: string -> Option<string>)
    requires cursor <= i < |text| && IsMatchAt(text, i) && end == CandidateEnd(text, i)
    requires forall k :: cursor <= k < end && k != i ==> !IsMatchAt(text, k)
    ensures AreInPlace(text, cursor, RoundParts(text[cursor..i], text[i..end], parse), parse)
  {
    MatchesLeaveLinks(text, i, parse);
    hide CandidateEnd, IsMatchAt, IsCandidateAt, IsPartAt, Trimmed, IsTrimmed, AreInPlace, Plain;
    var before, candidate := text[cursor..i], text[i..end];
    var cleaned := Trimmed(candidate);
    assert |before| == i - cursor && |cleaned| + |candidate[|cleaned|..]| == end - i;
    ThreeInPlace(text, cursor, before, Part(cleaned, parse(cleaned)), candidate[|cleaned|..], parse);
  }

  lemma {:induction false} PartsAreInPlace(text: string, cursor: nat, parse: string -> Option<string>)
    requires cursor <= |text| && IsClear(text, cursor)
    ensures AreInPlace(text, cursor, PartsFrom(text, cursor, parse), parse)
    decreases |text| - cursor
  {
    hide CandidateEnd, NextCandidate, IsCandidateAt, IsMatchAt, RoundParts, AreInPlace, Joined, IsClear, PartsFrom, Plain;
    var i := NextCandidate(text, cursor);
    NextMatch(text, cursor);
    if i == |text| {
      LastParts(text, cursor, parse);
      PlainIsPlain(text, cursor, text[cursor..], parse);
    } else {
      var end := CandidateEnd(text, i);
      var parts := RoundParts(text[cursor..i], text[i..end], parse);
      RoundIsInPlace(text, cursor, i, end, parse);
      RoundJoins(text[cursor..i], text[i..end], parse);
      PartsAreInPlace(text, end, parse);
      InPlaceJoins(text, cursor, parts, PartsFrom(text, end, parse), parse);
      NextParts(text, cursor, parse, []);
      assert [] + parts == parts && [] + PartsFrom(text, cursor, parse) == PartsFrom(text, cursor, parse);
    }
  }

  lemma StartIsClear(text: string)
    ensures IsClear(text, 0)
  {
  }

  /** An empty text has one part, and no link. */
  lemma EmptyIsInPlace(parse: string -> Option<string>)
    ensures AreInPlace("", 0, [Part("", None)], parse)
  {
    FirstOffset([], [Part("", None)]);
  }

  method AppendPlain(parts: seq<Part>, value: string) returns (parts': seq<Part>)
    ensures parts' == parts + Plain(value)
  {
    parts' := parts;
    if value != "" { parts' := parts' + [Part(value, None)]; }
  }

  lemma EmptyText(parse: string -> Option<string>)
    ensures PartsFrom("", 0, parse) == []
  {
  }

  /** One round of the loop: the pieces are appended one after the other. */
  method AppendRound(parts: seq<Part>, before: string, candidate: string, parse: string -> Option<string>) returns (parts': seq<Part>)
    requires IsSpaceless(candidate)
    ensures parts' == parts + RoundParts(before, candidate, parse)
  {
    parts' := AppendPlain(parts, before);
    var cleaned := TrimUrlPunctuation(candidate);
    TrimmedIsUnique(candidate, cleaned, Trimmed(candidate));
    parts' := parts' + [Part(cleaned, parse(cleaned))];
    parts' := AppendPlain(parts', candidate[|cleaned|..]);
  }

  method MessageTextParts(text: string, parse: string -> Option<string>) returns (parts: seq<Part>)
    ensures parts == if text == "" then [Part("", None)] else PartsFrom(text, 0, parse)
    ensures Joined(parts) == text
    // A part is a link exactly if a match starts at its place, and every match has its part.
    ensures AreInPlace(text, 0, parts, parse)
    ensures text != "" ==> forall p :: p in parts ==> IsGoodPart(p, parse)
  {
    hide AreInPlace, NextCandidate, CandidateEnd, RoundParts, IsCandidateAt, IsGoodPart, IsLetter, PartsFrom, Joined, Plain, IsSpaceless,
         IsUrlChar, IsClear;
    parts := [];
    var cursor := 0;
    var i := NextCandidate(text, 0);
    PartsAreLossless(text, 0, parse);
    PartsAreGood(text, 0, parse);
    PlainJoins(text);
    StartIsClear(text);
    PartsAreInPlace(text, 0, parse);
    EmptyIsInPlace(parse);
    if text == "" { EmptyText(parse); }
    while i < |text|
      invariant cursor <= |text| && i == NextCandidate(text, cursor)
      invariant parts + PartsFrom(text, cursor, parse) == PartsFrom(text, 0, parse)
      decreases |text| - cursor
    {
      var end := CandidateEnd(text, i);
      CandidateChars(text, i);
      NextParts(text, cursor, parse, parts);
      parts := AppendRound(parts, text[cursor..i], text[i..end], parse);
      cursor := end;
      i := NextCandidate(text, cursor);
    }
    LastParts(text, cursor, parse);
    parts := AppendPlain(parts, text[cursor..]);
    if parts == [] {
      NoParts(text, parse);
      parts := [Part(text, None)];
    }
  }

  /** Only an empty text has no parts; it becomes one empty part. */
  lemma NoParts(text: string, parse: string -> Option<string>)
    requires PartsFrom(text, 0, parse) == []
    ensures text == "" && Joined([Part(text, None)]) == text
  {
    PartsAreLossless(text, 0, parse);
  }
}
