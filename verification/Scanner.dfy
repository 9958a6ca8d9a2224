/** telegram/scanner.py: pages, the fetch below an offset, the page cut short by the preview
    deadline, and what a sequence of pages imports from a source that may change meanwhile. The
    loop is in SavedMessages. */
module Scanner {
  import opened Wrappers
  import opened ScanRows

  // ---------- The source ----------

  /** Saved Messages as Telegram lists them: distinct positive ids, newest first. */
  predicate Descending(source: seq<int>) {
    && (forall i :: 0 <= i < |source| ==> 0 < source[i])
    && (forall i, j :: 0 <= i < j < |source| ==> source[j] < source[i])
  }

  /** The ids older than the offset; offset 0 is the top. */
  function Below(source: seq<int>, offset: int): seq<int> {
    if source == [] || offset == 0 || source[0] < offset then source else Below(source[1..], offset)
  }

  function Offset(start: Option<int>): int { if start.Some? then start.value else 0 }

  predicate IsBelow(t: int, offset: int) { offset == 0 || t < offset }

  function IdSet(ids: seq<int>): set<int> { set t | t in ids }

  function Take(s: seq<int>, n: nat): seq<int> { if n <= |s| then s[..n] else s }

  /** What `iter_messages(limit, offset_id)` yields. */
  function Fetch(source: seq<int>, offset: int, limit: nat): seq<int> { Take(Below(source, offset), limit) }

  // ---------- Pages ----------

  function PageCapacity(pageSize: nat, remaining: nat): nat { if pageSize <= remaining then pageSize else remaining }

  function Ids(messages: seq<Scanned>): seq<int> { seq(|messages|, i requires 0 <= i < |messages| => messages[i].tid) }

  function Minimum(messages: seq<Scanned>): int
    requires messages != []
  {
    var last := messages[|messages| - 1].tid;
    if |messages| == 1 then last
    else
      var rest := Minimum(messages[..|messages| - 1]);
      if last < rest then last else rest
  }

  function MinimumId(messages: seq<Scanned>): Option<int> {
    if messages == [] then None else Some(Minimum(messages))
  }

  /** The page built from an answer of the client: at most `capacity` messages; one message
      more in the answer says that the source goes on. */
  function BuildPage(raw: seq<Scanned>, capacity: nat): (page: ScanPage)
    ensures |page.messages| <= capacity && page.messages <= raw
    ensures page.hasMore ==> |page.messages| == capacity < |raw|
    ensures page.messages != [] ==> page.next.Some?
  {
    var messages := if |raw| <= capacity then raw else raw[..capacity];
    ScanPage(messages, |raw| > capacity && messages != [], MinimumId(messages))
  }

  /** The page persisted when the preview deadline is reached at message `keep`. */
  function CutPage(page: ScanPage, keep: nat): (cut: ScanPage)
    requires keep <= |page.messages|
    ensures cut.messages == page.messages[..keep]
    ensures keep < |page.messages| ==> cut.hasMore && cut.next == MinimumId(cut.messages)
  {
    if keep == |page.messages| then page
    else ScanPage(page.messages[..keep], true, MinimumId(page.messages[..keep]))
  }

  // ---------- Facts about the source ----------

  /** `Below` is a suffix of the source: it drops some `n` newest ids, all at or above the offset. */
  lemma {:induction false} BelowIsSuffix(source: seq<int>, offset: int) returns (n: nat)
    ensures n <= |source| && Below(source, offset) == source[n..]
    ensures forall i :: 0 <= i < n ==> offset != 0 && offset <= source[i]
    ensures n < |source| ==> offset == 0 || source[n] < offset
  {
    if source == [] || offset == 0 || source[0] < offset {
      n := 0;
    } else {
      var m := BelowIsSuffix(source[1..], offset);
      n := m + 1;
      assert source[1..][m..] == source[n..];
      forall i | 0 <= i < n ensures offset <= source[i] {
        if i > 0 { assert source[i] == source[1..][i - 1]; }
      }
    }
  }

  /** `Below` is the filter its name says, and keeps the order of the source. */
  lemma {:induction false} BelowIsFilter(source: seq<int>, offset: int)
    requires Descending(source)
    ensures Descending(Below(source, offset))
    ensures forall x :: x in Below(source, offset) <==> x in source && (offset == 0 || x < offset)
  {
    var n := BelowIsSuffix(source, offset);
    var kept := source[n..];
    forall x ensures x in kept <==> x in source && (offset == 0 || x < offset) {
      if x in source && (offset == 0 || x < offset) {
        var i :| 0 <= i < |source| && source[i] == x;
        assert kept[i - n] == x;
      }
      if x in kept {
        var i :| 0 <= i < |kept| && kept[i] == x;
        assert source[i + n] == x && source[i + n] <= source[n];
      }
    }
  }

  lemma {:induction false} MinimumOfDescending(messages: seq<Scanned>)
    requires messages != [] && Descending(Ids(messages))
    ensures Minimum(messages) == messages[|messages| - 1].tid
  {
    var n := |messages|;
    if n > 1 {
      var rest := messages[..n - 1];
      assert Ids(rest) == Ids(messages)[..n - 1];
      MinimumOfDescending(rest);
      assert Ids(messages)[n - 1] < Ids(messages)[n - 2];
    }
  }

  /** A page built, and possibly cut, from a descending answer is its first `keep` messages,
      and its cursor is the last of them. */
  lemma PageOfAnswer(raw: seq<Scanned>, capacity: nat, keep: nat)
    requires Descending(Ids(raw)) && keep <= |BuildPage(raw, capacity).messages|
    ensures var page := CutPage(BuildPage(raw, capacity), keep);
            && |page.messages| == keep <= |Ids(raw)| && Ids(page.messages) == Ids(raw)[..keep]
            && (keep > 0 ==> page.next == Some(Ids(raw)[keep - 1]))
            && (keep == |BuildPage(raw, capacity).messages| && !page.hasMore && 0 < capacity ==> keep == |Ids(raw)| <= capacity)
  {
    var page := CutPage(BuildPage(raw, capacity), keep);
    assert |raw| == |Ids(raw)| && page.messages == raw[..keep];
    assert Ids(page.messages) == Ids(raw)[..keep];
    if keep > 0 { MinimumOfDescending(page.messages); }
  }

  // ---------- Imports from a source that changes ----------

  /** What the owner of an import could have seen of its source: the ids listed all the time,
      and those listed at some time. While the source stays as it is, both are its ids. */
  datatype View = View(always: set<int>, ever: set<int>)

  /** Time passes: less was listed all the time, more at some time. */
  predicate Widens(view: View, view': View) { view'.always <= view.always && view.ever <= view'.ever }

  /** An answer to a fetch of at most `limit` messages below `offset`: newest first, nothing that
      was never listed, and nothing left out above its end that was listed all the time. */
  predicate IsAnswer(ids: seq<int>, view: View, offset: int, limit: nat) {
    && Descending(ids) && |ids| <= limit
    && (forall t :: t in ids ==> IsBelow(t, offset) && t in view.ever)
    && (forall t :: t in view.always && IsBelow(t, offset) ==>
          t in ids || (|ids| == limit > 0 && t < ids[|ids| - 1]))
  }

  /** Where a scan from `start` that imported `d` resumes. */
  function Resume(d: seq<int>, start: int): int { if d == [] then start else d[|d| - 1] }

  /** `d` is what a scan from `start` has imported: newest first and hence each id once, nothing
      that was never listed, and no gap down to the last of it. */
  predicate IsImport(d: seq<int>, start: int, view: View) {
    && Descending(d)
    && (forall t :: t in d ==> IsBelow(t, start) && t in view.ever)
    && (forall t :: t in view.always && IsBelow(t, start) && d != [] && d[|d| - 1] <= t ==> t in d)
  }

  predicate IsComplete(d: seq<int>, start: int, view: View) {
    forall t :: t in view.always && IsBelow(t, start) ==> t in d
  }

  /** Importing the first `keep` ids of an answer extends an import; an answer that was not cut
      and is shorter than asked for completes it. */
  lemma ImportGrows(d: seq<int>, start: int, view: View, ids: seq<int>, limit: nat, keep: nat)
    requires IsImport(d, start, view) && IsAnswer(ids, view, Resume(d, start), limit) && 0 < keep <= |ids|
    ensures IsImport(d + ids[..keep], start, view) && Resume(d + ids[..keep], start) == ids[keep - 1]
    ensures 0 < ids[keep - 1] && ids[keep - 1] != Resume(d, start)
    ensures keep == |ids| < limit ==> IsComplete(d + ids[..keep], start, view)
  {
    var d' := d + ids[..keep];
    assert ids[keep - 1] in ids;
    forall i, j | 0 <= i < j < |d'| ensures d'[j] < d'[i] {
      if i < |d| <= j { assert ids[j - |d|] in ids && d[|d| - 1] <= d[i]; }
    }
    forall t | t in view.always && IsBelow(t, start) && (ids[keep - 1] <= t || keep == |ids| < limit) ensures t in d' {
      if !IsBelow(t, Resume(d, start)) {
        assert t in d;
      } else {
        assert t in ids;
        var i :| 0 <= i < |ids| && ids[i] == t;
        assert i < keep;
        assert d'[|d| + i] == t;
      }
    }
    forall t | t in d' ensures IsBelow(t, start) && t in view.ever {
      if t !in d {
        assert t in ids;
        if d != [] { assert d[|d| - 1] in d; }
      }
    }
  }

  /** An empty answer completes an import. */
  lemma NothingLeftCompletes(d: seq<int>, start: int, view: View, limit: nat)
    requires IsImport(d, start, view) && IsAnswer([], view, Resume(d, start), limit) && 0 < limit
    ensures IsComplete(d, start, view)
  {
  }

  /** Imports, complete imports and answers stay what they are as time passes: an answer may be
      as old as it likes when its page is persisted. */
  lemma WideningKeeps(d: seq<int>, start: int, limit: nat, view: View, view': View)
    requires Widens(view, view')
    ensures IsImport(d, start, view) ==> IsImport(d, start, view')
    ensures IsComplete(d, start, view) ==> IsComplete(d, start, view')
    ensures IsAnswer(d, view, start, limit) ==> IsAnswer(d, view', start, limit)
  {
  }

  /** A fetch of the source as it is at some moment is an answer. */
  lemma FetchIsAnswer(source: seq<int>, view: View, offset: int, limit: nat)
    requires Descending(source) && view.always <= IdSet(source) <= view.ever && 0 < limit
    ensures IsAnswer(Fetch(source, offset, limit), view, offset, limit)
  {
    BelowIsFilter(source, offset);
    var below := Below(source, offset);
    var ids := Fetch(source, offset, limit);
    forall t | t in ids ensures IsBelow(t, offset) && t in view.ever { assert t in below && t in IdSet(source); }
    forall t | t in view.always && IsBelow(t, offset) && t !in ids ensures |ids| == limit && t < ids[|ids| - 1] {
      assert t in IdSet(source) && t in below;
      var i :| 0 <= i < |below| && below[i] == t;
    }
  }

  // ---------- A source that stays as it is ----------

  /** A descending list that holds exactly the top of another is a prefix of it. */
  lemma {:induction false} TopIsPrefix(d: seq<int>, below: seq<int>, n: nat)
    requires Descending(d) && Descending(below) && n <= |d|
    requires forall t :: t in d ==> t in below
    requires forall t :: t in below && d != [] && d[|d| - 1] <= t ==> t in d
    ensures n <= |below| && d[..n] == below[..n]
  {
    if n > 0 {
      var m := n - 1;
      TopIsPrefix(d, below, m);
      assert forall i :: 0 <= i < m ==> d[i] == d[..m][i] && below[i] == below[..m][i];
      assert d[m] in below;
      var j :| 0 <= j < |below| && below[j] == d[m];
      assert below[m] in d;
      var i :| 0 <= i < |d| && d[i] == below[m];
    }
  }

  /** An import from a source that stays as it is, is the newest part of it below the start, and
      a complete one is all of it. */
  lemma SteadyImport(source: seq<int>, d: seq<int>, start: int)
    requires Descending(source) && IsImport(d, start, View(IdSet(source), IdSet(source)))
    ensures |d| <= |Below(source, start)| && d == Below(source, start)[..|d|]
    ensures IsComplete(d, start, View(IdSet(source), IdSet(source))) <==> d == Below(source, start)
  {
    var below := Below(source, start);
    BelowIsFilter(source, start);
    forall t | t in d ensures t in below { assert t in IdSet(source); }
    TopIsPrefix(d, below, |d|);
    assert d[..|d|] == d;
    forall t | t in IdSet(source) && IsBelow(t, start) ensures t in below {}
    if |d| < |below| { assert below[|d|] in IdSet(source) && below[|d|] !in d; }
  }
}
