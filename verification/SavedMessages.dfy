/** `SavedMessagesScanner.scan` as a loop over a mutable progress record: pages of Saved
    Messages are fetched newest first, enriched with previews, handed on and counted, until
    the source, a limit, the clock or the user ends the slice. The client may answer anything;
    what is delivered is proved to be an import if it answers honestly, and every round is
    proved to be a step the protocol allows. */
module SavedMessages {
  import opened Wrappers
  import opened ScanRows
  import opened Scanner
  import opened ScanTransactions
  import opened ScanProtocol

  // ---------- The client ----------

  /** `iter_messages` as it answers in each round: offset, limit and round give the messages. */
  type Client = (int, nat, nat) -> seq<Scanned>

  /** Every answer is one from what is listed. */
  ghost predicate IsHonestClient(client: Client, view: View) {
    forall offset: int, limit: nat, round: nat :: 0 < limit ==> IsAnswer(Ids(client(offset, limit, round)), view, offset, limit)
  }

  /** A client that answers each round from what is listed in that round is honest, whatever
      arrives and disappears in between. */
  lemma ListingsAreHonest(client: Client, listings: nat -> seq<int>, view: View)
    requires forall offset: int, limit: nat, round: nat :: Ids(client(offset, limit, round)) == Fetch(listings(round), offset, limit)
    requires forall round: nat :: Descending(listings(round)) && view.always <= IdSet(listings(round)) <= view.ever
    ensures IsHonestClient(client, view)
  {
    hide Descending, Fetch, IsAnswer, Ids;
    forall offset: int, limit: nat, round: nat | 0 < limit ensures IsAnswer(Ids(client(offset, limit, round)), view, offset, limit) {
      FetchIsAnswer(listings(round), view, offset, limit);
    }
  }

  // ---------- Previews ----------

  /** How the download of one message's preview ends; `NotPlanned` when there is nothing to
      download or the message already carries its media. */
  datatype Download = NotPlanned | Downloaded(media: nat) | Unusable | OutOfTime

  function DownloadAt(downloads: seq<Download>, i: nat): Download { if i < |downloads| then downloads[i] else NotPlanned }

  predicate Stalls(m: Scanned, d: Download) { m.media.None? && d.OutOfTime? }

  /** A downloaded preview is kept, media that are there already stay, and nothing else changes. */
  function Preview(m: Scanned, d: Download): (r: Scanned)
    ensures r.tid == m.tid && (m.media.Some? ==> r == m)
    ensures r.media == if m.media.Some? then m.media else if d.Downloaded? then Some(d.media) else None
    ensures r.(media := m.media) == m
  {
    if m.media.None? && d.Downloaded? then m.(media := Some(d.media)) else m
  }

  function Previews(messages: seq<Scanned>, downloads: seq<Download>): (r: seq<Scanned>)
    ensures |r| == |messages| && forall i :: 0 <= i < |r| ==> r[i] == Preview(messages[i], DownloadAt(downloads, i))
  {
    seq(|messages|, i requires 0 <= i < |messages| => Preview(messages[i], DownloadAt(downloads, i)))
  }

  /** The first message whose preview runs out of time, or the length of the page. */
  function FirstStall(messages: seq<Scanned>, downloads: seq<Download>, i: nat): (keep: nat)
    requires i <= |messages|
    ensures i <= keep <= |messages|
    ensures forall k :: i <= k < keep ==> !Stalls(messages[k], DownloadAt(downloads, k))
    ensures keep < |messages| ==> Stalls(messages[keep], DownloadAt(downloads, keep))
    decreases |messages| - i
  {
    if i == |messages| || Stalls(messages[i], DownloadAt(downloads, i)) then i else FirstStall(messages, downloads, i + 1)
  }

  lemma NextStall(messages: seq<Scanned>, downloads: seq<Download>, i: nat)
    requires i < |messages|
    ensures FirstStall(messages, downloads, i) == if Stalls(messages[i], DownloadAt(downloads, i)) then i else FirstStall(messages, downloads, i + 1)
  {
  }

  lemma NoMoreStalls(messages: seq<Scanned>, downloads: seq<Download>)
    ensures FirstStall(messages, downloads, |messages|) == |messages|
  {
  }

  lemma CutBeforeStall(page: ScanPage, downloads: seq<Download>)
    ensures var keep := FirstStall(page.messages, downloads, 0);
            && |CutPage(page.(messages := Previews(page.messages, downloads)), keep).messages| == keep
            && (forall i :: 0 <= i < keep ==> !(page.messages[i].media.None? && DownloadAt(downloads, i).OutOfTime?))
            && (keep < |page.messages| ==> page.messages[keep].media.None? && DownloadAt(downloads, keep).OutOfTime?)
  {
    hide FirstStall, MinimumId;
  }

  /** Downloads previews message by message; at the first one that runs out of time the page
      is cut before it. */
  method CacheMediaPreviews(page: ScanPage, downloads: seq<Download>) returns (cached: ScanPage, deadlineReached: bool)
    ensures var keep := FirstStall(page.messages, downloads, 0);
            cached == CutPage(page.(messages := Previews(page.messages, downloads)), keep)
            && (deadlineReached <==> keep < |page.messages|)
    // The page ends before the first message without media whose download runs out of time.
    ensures forall i :: 0 <= i < |cached.messages| ==> !(page.messages[i].media.None? && DownloadAt(downloads, i).OutOfTime?)
    ensures if deadlineReached
            then |cached.messages| < |page.messages| && page.messages[|cached.messages|].media.None?
                 && DownloadAt(downloads, |cached.messages|).OutOfTime?
            else |cached.messages| == |page.messages|
  {
    hide MinimumId, FirstStall, Previews;
    CutBeforeStall(page, downloads);
    var enriched: seq<Scanned> := [];
    var i := 0;
    while i < |page.messages|
      invariant i <= |page.messages| && enriched == Previews(page.messages, downloads)[..i]
      invariant FirstStall(page.messages, downloads, 0) == FirstStall(page.messages, downloads, i)
    {
      var scanned := page.messages[i];
      NextStall(page.messages, downloads, i);
      if scanned.media.Some? {
        enriched := enriched + [scanned];
      } else {
        match DownloadAt(downloads, i) {
          case OutOfTime =>
            return ScanPage(enriched, true, MinimumId(enriched)), true;
          case Downloaded(media) =>
            enriched := enriched + [scanned.(media := Some(media))];
          case NotPlanned =>
            enriched := enriched + [scanned];
          case Unusable =>
            enriched := enriched + [scanned];
        }
      }
      i := i + 1;
    }
    NoMoreStalls(page.messages, downloads);
    assert enriched == Previews(page.messages, downloads);
    return page.(messages := enriched), false;
  }

  // ---------- Pages ----------

  function FetchLimit(capacity: nat, lookahead: bool): nat { if lookahead then capacity + 1 else capacity }

  /** The page of one round. With a message limit the answer holds a message to look ahead. */
  function PageOf(raw: seq<Scanned>, capacity: nat, lookahead: bool): (page: ScanPage)
    ensures page.messages == BuildPage(raw, capacity).messages && page.next == BuildPage(raw, capacity).next
    ensures page.hasMore ==> page.messages != []
  {
    var page := BuildPage(raw, capacity);
    if lookahead then page else page.(hasMore := |raw| >= capacity && page.messages != [])
  }

  lemma {:induction false} SameIdsSameMinimum(a: seq<Scanned>, b: seq<Scanned>)
    requires |a| == |b| && forall i :: 0 <= i < |a| ==> a[i].tid == b[i].tid
    ensures MinimumId(a) == MinimumId(b)
  {
    if |a| > 1 { SameIdsSameMinimum(a[..|a| - 1], b[..|b| - 1]); }
  }

  /** Previews change nothing about a page but the media of its messages. */
  lemma PreviewedPage(raw: seq<Scanned>, capacity: nat, lookahead: bool, downloads: seq<Download>)
    ensures var built := PageOf(raw, capacity, lookahead);
            PageOf(Previews(raw, downloads), capacity, lookahead) == built.(messages := Previews(built.messages, downloads))
    ensures Ids(Previews(raw, downloads)) == Ids(raw)
  {
    var built := PageOf(raw, capacity, lookahead);
    var previewed := PageOf(Previews(raw, downloads), capacity, lookahead);
    assert previewed.messages == Previews(built.messages, downloads);
    SameIdsSameMinimum(built.messages, previewed.messages);
  }

  /** Why the loop ends after a page, if it does. */
  function EndAfter(page: ScanPage, cut: bool, offset: int): Option<Reason> {
    if cut then Some(SliceTimeLimit)
    else if !page.hasMore || page.next.None? || page.next.value == offset then Some(SourceExhausted)
    else None
  }

  // ---------- Rounds ----------

  /** What the environment does in one round of the loop. `late` and `lateCache` are the
      deadline passing before the fetch and before the cached media are loaded; `fails` is an
      error of the page's consumer. */
  datatype Moment = Moment(stop: bool, late: bool, lateCache: bool, downloads: seq<Download>, fails: bool)

  datatype Result = Finished | InvalidArguments | AlreadyRunning | PageFailed

  predicate Ran(result: Result) { result.Finished? || result.PageFailed? }

  predicate Positive(limit: Option<int>) { limit.Some? ==> 0 < limit.value }

  predicate Within(limit: Option<int>, count: nat) { limit.Some? ==> count <= limit.value }

  /** No stop, no deadline and no failing consumer. */
  predicate IsCalm(moment: Moment) {
    !moment.stop && !moment.late && !moment.lateCache && !moment.fails && forall d :: d in moment.downloads ==> !d.OutOfTime?
  }

  lemma FailingIsNotCalm(moment: Moment)
    requires moment.fails
    ensures !IsCalm(moment)
  {
  }

  const QUIET := Moment(false, false, false, [], false)

  /** What happens in a round; after the script nothing does. */
  function MomentAt(moments: seq<Moment>, round: nat): Moment { if round < |moments| then moments[round] else QUIET }

  predicate AllCalm(moments: seq<Moment>) { forall m :: m in moments ==> IsCalm(m) }

  lemma CalmAt(moments: seq<Moment>, round: nat)
    requires AllCalm(moments)
    ensures IsCalm(MomentAt(moments, round))
  {
  }

  lemma CalmNeverStalls(moment: Moment, messages: seq<Scanned>)
    requires IsCalm(moment)
    ensures FirstStall(messages, moment.downloads, 0) == |messages|
  {
  }

  /** A calm scan ends because of the source or a limit. */
  predicate CalmReason(why: Reason) { why.SourceExhausted? || why.MessageLimitReached? || why.SlicePageLimit? }

  datatype Limits = Limits(pageSize: nat, maxMessages: Option<int>, maxPages: Option<int>)

  /** Where the loop is at the beginning of a round. */
  datatype Position = Position(scanned: nat, pages: nat, offset: int)

  /** An answer with its previews, and how many of its messages were handed on. */
  datatype Taken = Taken(raw: seq<Scanned>, keep: nat)

  predicate GoodLimits(limits: Limits) { 0 < limits.pageSize && Positive(limits.maxMessages) && Positive(limits.maxPages) }

  predicate WithinLimits(limits: Limits, p: Position) { Within(limits.maxMessages, p.scanned) && Within(limits.maxPages, p.pages) }

  predicate HasRoom(limits: Limits, p: Position) {
    && (limits.maxMessages.Some? ==> p.scanned < limits.maxMessages.value)
    && (limits.maxPages.Some? ==> p.pages < limits.maxPages.value)
  }

  function RoundCapacity(limits: Limits, p: Position): nat
    requires WithinLimits(limits, p)
  {
    if limits.maxMessages.Some? then PageCapacity(limits.pageSize, limits.maxMessages.value - p.scanned) else limits.pageSize
  }

  function RoundLimit(limits: Limits, p: Position): nat
    requires WithinLimits(limits, p)
  {
    FetchLimit(RoundCapacity(limits, p), limits.maxMessages.Some?)
  }

  function Built(limits: Limits, p: Position, raw: seq<Scanned>): ScanPage
    requires WithinLimits(limits, p)
  {
    PageOf(raw, RoundCapacity(limits, p), limits.maxMessages.Some?)
  }

  /** A page holds as many of the messages answered as the page size and the message limit allow. */
  lemma PagesAreFull(limits: Limits, p: Position, raw: seq<Scanned>)
    requires WithinLimits(limits, p)
    ensures var n := |Built(limits, p, raw).messages|;
            && n <= |raw| && n <= limits.pageSize && (limits.maxMessages.Some? ==> n <= limits.maxMessages.value - p.scanned)
            && (n == |raw| || n == limits.pageSize || (limits.maxMessages.Some? && n == limits.maxMessages.value - p.scanned))
            && Built(limits, p, raw).messages == raw[..n]
  {
    hide MinimumId;
  }

  predicate IsTaken(limits: Limits, p: Position, answer: seq<Scanned>, t: Taken) {
    && WithinLimits(limits, p) && HasRoom(limits, p)
    && t.raw != [] && Ids(t.raw) == Ids(answer) && t.keep <= |Built(limits, p, t.raw).messages|
  }

  function PageTaken(limits: Limits, p: Position, t: Taken): ScanPage
    requires WithinLimits(limits, p) && t.keep <= |Built(limits, p, t.raw).messages|
  {
    CutPage(Built(limits, p, t.raw), t.keep)
  }

  function EndTaken(limits: Limits, p: Position, t: Taken): Option<Reason>
    requires WithinLimits(limits, p) && t.keep <= |Built(limits, p, t.raw).messages|
  {
    EndAfter(PageTaken(limits, p, t), t.keep < |Built(limits, p, t.raw).messages|, p.offset)
  }

  /** The messages handed on in a round. */
  function NewPages(limits: Limits, p: Position, taken: Option<Taken>): seq<ScanPage>
    requires taken.Some? ==> WithinLimits(limits, p) && taken.value.keep <= |Built(limits, p, taken.value.raw).messages|
  {
    if taken.Some? && PageTaken(limits, p, taken.value).messages != [] then [PageTaken(limits, p, taken.value)] else []
  }

  /** A reason to end before anything is taken. */
  predicate EndsEmpty(limits: Limits, p: Position, answer: seq<Scanned>, why: Reason) {
    match why
    case StoppedByUser => true
    case SliceTimeLimit => true
    case MessageLimitReached => limits.maxMessages.Some? && limits.maxMessages.value <= p.scanned
    case SlicePageLimit => limits.maxPages.Some? && limits.maxPages.value <= p.pages
    case SourceExhausted => HasRoom(limits, p) && answer == []
    case RuntimeLimitReached => false
  }

  /** One round from `p` to `q`: it ends before anything is taken, or takes a page off the answer. */
  predicate IsRound(limits: Limits, p: Position, answer: seq<Scanned>, taken: Option<Taken>, why: Option<Reason>, q: Position) {
    match taken
    case None => q == p && why.Some? && EndsEmpty(limits, p, answer, why.value)
    case Some(t) =>
      && IsTaken(limits, p, answer, t) && why == EndTaken(limits, p, t)
      && var page := PageTaken(limits, p, t);
         q == Position(p.scanned + |page.messages|, p.pages + (if page.messages == [] then 0 else 1),
                       if why.None? then page.next.value else p.offset)
  }

  // ---------- What rounds deliver ----------

  /** The ids of the pages handed on, in order. */
  function Delivered(pages: seq<ScanPage>): seq<int> {
    if pages == [] then [] else Delivered(pages[..|pages| - 1]) + Ids(pages[|pages| - 1].messages)
  }

  lemma DeliveredGrows(pages: seq<ScanPage>, page: ScanPage)
    ensures Delivered(pages + [page]) == Delivered(pages) + Ids(page.messages)
  {
    assert (pages + [page])[..|pages|] == pages;
  }

  /** There is more to come than was delivered. */
  predicate GoesOn(d: seq<int>, start: int, view: View) {
    exists t :: t in view.ever && IsBelow(t, Resume(d, start)) && IsBelow(t, start) && t !in d
  }

  /** A page taken off an honest answer extends an import; if the loop ends after it because of
      the source, the import is complete, and if the loop goes on, it gets further. */
  lemma PageExtends(limits: Limits, p: Position, answer: seq<Scanned>, t: Taken, d: seq<int>, start: int, view: View)
    requires IsTaken(limits, p, answer, t) && GoodLimits(limits)
    requires IsImport(d, start, view) && p.offset == Resume(d, start)
    requires IsAnswer(Ids(answer), view, p.offset, RoundLimit(limits, p))
    ensures var page := PageTaken(limits, p, t);
            var d' := d + Ids(page.messages);
            && IsImport(d', start, view) && (page.messages != [] ==> page.next == Some(Resume(d', start)))
            && (EndTaken(limits, p, t) == Some(SourceExhausted) ==> IsComplete(d', start, view))
            && (EndTaken(limits, p, t).None? ==>
                  && page.messages != [] && 0 < page.next.value && (p.offset != 0 ==> page.next.value < p.offset)
                  && (limits.maxMessages.Some? ==> GoesOn(d', start, view)))
  {
    var page, capacity := PageTaken(limits, p, t), RoundCapacity(limits, p);
    var ids := Ids(answer);
    PageOfAnswer(t.raw, capacity, t.keep);
    PageIds(limits, p, t);
    if t.keep == 0 {
      assert ids[..0] == [] && d + [] == d;
      hide Ids, IsAnswer, IsImport, IsComplete, MinimumId, GoesOn;
    } else {
      ImportGrows(d, start, view, ids, RoundLimit(limits, p), t.keep);
      assert ids[t.keep - 1] in ids;
      if EndTaken(limits, p, t).None? && limits.maxMessages.Some? {
        LookaheadGoesOn(d, start, view, ids, RoundLimit(limits, p), t.keep);
      }
      hide IsAnswer, IsImport, IsComplete, MinimumId, GoesOn, Descending;
    }
  }

  lemma PageIds(limits: Limits, p: Position, t: Taken)
    requires WithinLimits(limits, p) && t.keep <= |Built(limits, p, t.raw).messages|
    ensures var page := PageTaken(limits, p, t);
            && page.messages == CutPage(BuildPage(t.raw, RoundCapacity(limits, p)), t.keep).messages
            && (t.keep > 0 ==> page.next == CutPage(BuildPage(t.raw, RoundCapacity(limits, p)), t.keep).next)
            && |t.raw| == |Ids(t.raw)| && |page.messages| == |Ids(page.messages)| == t.keep
  {
  }

  lemma LookaheadGoesOn(d: seq<int>, start: int, view: View, ids: seq<int>, limit: nat, keep: nat)
    requires IsImport(d, start, view) && IsAnswer(ids, view, Resume(d, start), limit) && 0 < keep < |ids|
    ensures GoesOn(d + ids[..keep], start, view)
  {
    var t := ids[keep];
    var d' := d + ids[..keep];
    assert t in ids && t < ids[keep - 1];
    assert forall x :: x in d ==> x in d';
    forall x | x in d ensures x != t { var i :| 0 <= i < |d| && d[i] == x; }
    forall i | 0 <= i < keep ensures ids[..keep][i] != t {}
    if d != [] { assert d[|d| - 1] in d; }
  }

  /** The cursor of the last page is where the next slice resumes. */
  predicate LastPageResumes(pages: seq<ScanPage>, start: int) {
    pages != [] ==> pages[|pages| - 1].next == Some(Resume(Delivered(pages), start))
  }

  /** What a reason to end means for what an honest client made the scan deliver. */
  predicate EndsHonestly(why: Reason, d: seq<int>, start: int, view: View) {
    && (why.SourceExhausted? ==> IsComplete(d, start, view))
    && (why.MessageLimitReached? ==> GoesOn(d, start, view))
  }

  lemma NoMessagesNoIds(d: seq<int>, page: ScanPage)
    requires page.messages == []
    ensures d + Ids(page.messages) == d
  {
  }

  lemma NothingLeftToTake(limits: Limits, p: Position, answer: seq<Scanned>, d: seq<int>, start: int, view: View)
    requires GoodLimits(limits) && WithinLimits(limits, p) && HasRoom(limits, p) && answer == []
    requires IsAnswer(Ids(answer), view, p.offset, RoundLimit(limits, p)) && IsImport(d, start, view) && p.offset == Resume(d, start)
    ensures IsComplete(d, start, view)
  {
    hide IsAnswer, IsImport, IsComplete, Resume;
    assert Ids(answer) == [];
    NothingLeftCompletes(d, start, view, RoundLimit(limits, p));
  }

  lemma LimitMeansDelivered(limits: Limits, p: Position)
    requires GoodLimits(limits) && limits.maxMessages.Some? && limits.maxMessages.value <= p.scanned
    ensures 0 < p.scanned
  {
  }

  /** One round with an honest client. */
  lemma RoundImports(limits: Limits, p: Position, answer: seq<Scanned>, taken: Option<Taken>, why: Option<Reason>, q: Position,
                     pages: seq<ScanPage>, start: int, view: View)
    requires GoodLimits(limits) && WithinLimits(limits, p) && IsRound(limits, p, answer, taken, why, q)
    requires IsAnswer(Ids(answer), view, p.offset, RoundLimit(limits, p))
    requires IsImport(Delivered(pages), start, view) && p.offset == Resume(Delivered(pages), start)
    requires limits.maxMessages.Some? && p.scanned > 0 ==> GoesOn(Delivered(pages), start, view)
    requires LastPageResumes(pages, start)
    ensures LastPageResumes(pages + NewPages(limits, p, taken), start)
    ensures var d' := Delivered(pages + NewPages(limits, p, taken));
            && IsImport(d', start, view)
            && (why.Some? ==> EndsHonestly(why.value, d', start, view))
            && (why.None? ==> q.offset == Resume(d', start) && (limits.maxMessages.Some? ==> GoesOn(d', start, view))
                              && 0 < q.offset && (p.offset != 0 ==> q.offset < p.offset))
  {
    hide IsImport, GoesOn, IsAnswer, Delivered, Ids, PageTaken, Resume, RoundLimit, BuildPage, PageOf, GoodLimits;
    match taken {
      case Some(t) =>
        PageExtends(limits, p, answer, t, Delivered(pages), start, view);
        hide IsComplete;
        if PageTaken(limits, p, t).messages != [] { DeliveredGrows(pages, PageTaken(limits, p, t)); }
        else {
          assert pages + [] == pages;
          NoMessagesNoIds(Delivered(pages), PageTaken(limits, p, t));
        }
      case None =>
        assert pages + [] == pages;
        if why.value.SourceExhausted? { NothingLeftToTake(limits, p, answer, Delivered(pages), start, view); }
        if why.value.MessageLimitReached? { LimitMeansDelivered(limits, p); }
        hide IsComplete;
    }
  }

  /** One round within the limits stays within them, and one that goes on has delivered a page. */
  lemma RoundCounts(limits: Limits, p: Position, answer: seq<Scanned>, taken: Option<Taken>, why: Option<Reason>, q: Position)
    requires GoodLimits(limits) && WithinLimits(limits, p) && IsRound(limits, p, answer, taken, why, q)
    ensures WithinLimits(limits, q)
    ensures why.None? ==> p.scanned < q.scanned && p.pages < q.pages
    ensures why == Some(MessageLimitReached) ==> limits.maxMessages == Some(q.scanned)
    ensures why == Some(SlicePageLimit) ==> limits.maxPages == Some(q.pages)
    ensures why != Some(RuntimeLimitReached)
  {
    if taken.Some? { PageIds(limits, p, taken.value); }
    hide MinimumId;
  }

  /** The page with its previews, cut at the first that ran out of time, is one taken off the answer. */
  lemma PreviewedIsTaken(limits: Limits, p: Position, answer: seq<Scanned>, downloads: seq<Download>)
    requires WithinLimits(limits, p) && HasRoom(limits, p) && answer != []
    ensures var built := Built(limits, p, answer);
            var t := Taken(Previews(answer, downloads), FirstStall(built.messages, downloads, 0));
            && IsTaken(limits, p, answer, t) && |Built(limits, p, t.raw).messages| == |built.messages|
            && PageTaken(limits, p, t) == CutPage(built.(messages := Previews(built.messages, downloads)), t.keep)
            && (PageTaken(limits, p, t).messages != [] ==> PageTaken(limits, p, t).next.Some?)
            && EndTaken(limits, p, t) == EndAfter(PageTaken(limits, p, t), t.keep < |built.messages|, p.offset)
  {
    PreviewedPage(answer, RoundCapacity(limits, p), limits.maxMessages.Some?, downloads);
    hide RoundCapacity, FirstStall;
  }

  lemma NewPagesAre(limits: Limits, p: Position, answer: seq<Scanned>, t: Taken)
    requires IsTaken(limits, p, answer, t)
    ensures NewPages(limits, p, Some(t)) == if PageTaken(limits, p, t).messages == [] then [] else [PageTaken(limits, p, t)]
  {
    hide Built, PageTaken;
  }

  /** What the bookkeeping after a page must come to. */
  lemma TakenIsRound(limits: Limits, p: Position, answer: seq<Scanned>, t: Taken, page: ScanPage, next: int)
    requires IsTaken(limits, p, answer, t) && page == PageTaken(limits, p, t)
    requires next == if EndTaken(limits, p, t).None? then page.next.value else p.offset
    ensures NewPages(limits, p, Some(t)) == if page.messages == [] then [] else [page]
    ensures IsRound(limits, p, answer, Some(t), EndTaken(limits, p, t),
                    Position(p.scanned + |page.messages|, p.pages + (if page.messages == [] then 0 else 1), next))
  {
    hide Built, PageTaken, EndTaken;
  }

  // ---------- Rounds are steps of the protocol ----------

  /** The worker's own progress is that of the loop. */
  predicate Tracks(v: Worker, p: Position) {
    v.Slice? && v.ending.None? && v.local == p.scanned && v.pages == p.pages && v.offset == p.offset
  }

  /** The arguments a worker calls the scanner with. */
  function LimitsOf(s: World, v: Worker): Limits
    requires v.Slice?
  {
    Limits(v.lease.pageSize, Some(Budget(v.lease)), Some(s.settings.slicePages))
  }

  /** A round that takes nothing is a conclusion the protocol allows, or an answered look at the
      stop flag. A round that takes a page is the commit of that page: if the page is persisted,
      the worker and the loop agree on where they are and whether they go on. */
  lemma RoundIsAStep(s: World, w: WorkerId, now: int, p: Position, answer: seq<Scanned>, taken: Option<Taken>, why: Option<Reason>, q: Position)
    requires Tracks(WorkerOf(s, w), p) && var limits := LimitsOf(s, WorkerOf(s, w));
             GoodLimits(limits) && WithinLimits(limits, p) && IsRound(limits, p, answer, taken, why, q)
    ensures taken.None? && why.value.StoppedByUser? ==> Enabled(s, LookForStop(w), now)
    ensures taken.None? && !why.value.StoppedByUser? ==> Enabled(s, Conclude(w, why.value), now)
    ensures taken.Some? ==>
              var v, t, page := WorkerOf(s, w), taken.value, PageTaken(LimitsOf(s, WorkerOf(s, w)), p, taken.value);
              && Enabled(s, CommitPage(w, t.raw, t.keep), now) && page == PageFor(v, t.raw, t.keep)
              && var s' := Commit(s, w, t.raw, t.keep, now);
                 (page.messages == [] || PersistOutcome(s.store, v.lease, page, now) == PagePersisted ==>
                    && (why.None? ==> Tracks(WorkerOf(s', w), q))
                    && (why.Some? ==> WorkerOf(s', w).ending == Some(Ended(why.value)) && WorkerOf(s', w).local == q.scanned
                                      && WorkerOf(s', w).pages == q.pages))
  {
    hide BuildPage, CutPage, PersistPage, PersistOutcome, OnlyScans, AfterPage, Built, PageTaken, EndTaken;
    if taken.Some? { TakenIsPageFor(s, WorkerOf(s, w), p, taken.value); }
  }

  lemma TakenIsPageFor(s: World, v: Worker, p: Position, t: Taken)
    requires Tracks(v, p) && var limits := LimitsOf(s, v);
             GoodLimits(limits) && WithinLimits(limits, p) && HasRoom(limits, p) && t.keep <= |Built(limits, p, t.raw).messages|
    ensures MayFetch(v) && t.keep <= |BuildPage(t.raw, Capacity(v)).messages|
    ensures PageTaken(LimitsOf(s, v), p, t) == PageFor(v, t.raw, t.keep)
    ensures var page, why, v' := PageFor(v, t.raw, t.keep), EndTaken(LimitsOf(s, v), p, t), AfterPage(v, t.raw, t.keep);
            && v'.local == v.local + |page.messages| && v'.pages == v.pages + 1
            && v'.ending == (if why.Some? then Some(Ended(why.value)) else None)
            && (why.None? ==> page.next == Some(v'.offset) && page.messages != [])
            && (t.raw != [] && page.messages == [] ==> why == Some(SliceTimeLimit))
  {
    hide MinimumId;
  }

  // ---------- The progress record ----------

  /** The progress record of a scan from `start` that handed `pages` on. */
  predicate Tally(start: Option<int>, pages: seq<ScanPage>, scanned: nat, pageCount: nat, last: Option<int>) {
    && scanned == |Delivered(pages)| && pageCount == |pages|
    && last == (if pages == [] then start else pages[|pages| - 1].next)
    && forall p :: p in pages ==> p.messages != [] && p.next.Some?
  }

  lemma TallyGrows(start: Option<int>, pages: seq<ScanPage>, scanned: nat, pageCount: nat, last: Option<int>, page: ScanPage)
    requires Tally(start, pages, scanned, pageCount, last) && page.messages != [] && page.next.Some?
    ensures Tally(start, pages + [page], scanned + |page.messages|, pageCount + 1, page.next)
  {
    DeliveredGrows(pages, page);
    assert |Ids(page.messages)| == |page.messages|;
  }

  /** What a scan is known to have done when it ended. */
  predicate ScanEnds(limits: Limits, scanned: nat, pageCount: nat, why: Reason, stopped: bool) {
    && (stopped <==> why.StoppedByUser?)
    && (why.MessageLimitReached? ==> limits.maxMessages == Some(scanned))
    && (why.SlicePageLimit? ==> limits.maxPages == Some(pageCount))
    && !why.RuntimeLimitReached?
  }

  // ---------- A source that stays as it is ----------

  /** The end of a calm scan of a source that stays as it is, without a page limit, is
      determined by the source and the message limit. */
  lemma SteadyScanIsExact(source: seq<int>, start: int, d: seq<int>, why: Reason, limits: Limits)
    requires Descending(source) && var view := View(IdSet(source), IdSet(source)); IsImport(d, start, view) && EndsHonestly(why, d, start, view)
    requires CalmReason(why) && !why.SlicePageLimit? && Within(limits.maxMessages, |d|)
    requires why.MessageLimitReached? ==> limits.maxMessages == Some(|d|)
    ensures var n, max := |Below(source, start)|, limits.maxMessages;
            && |d| == (if max.Some? && max.value < n then max.value else n) && d == Below(source, start)[..|d|]
            && (why == SourceExhausted <==> max.None? || n <= max.value)
            && (why == MessageLimitReached <==> max.Some? && max.value < n)
  {
    hide Descending, Below;
    SteadyImport(source, d, start);
    if why.MessageLimitReached? {
      var t :| t in IdSet(source) && IsBelow(t, Resume(d, start)) && IsBelow(t, start) && t !in d;
      BelowIsFilter(source, start);
      assert t in Below(source, start);
    }
  }

  lemma LateIsNotCalm(moment: Moment)
    requires moment.lateCache
    ensures !IsCalm(moment)
  {
  }

  lemma NothingImported(start: int, view: View)
    ensures IsImport(Delivered([]), start, view) && Resume(Delivered([]), start) == start
  {
  }

  lemma AnswersHonestly(client: Client, view: View, limits: Limits, p: Position, round: nat)
    requires IsHonestClient(client, view) && GoodLimits(limits) && WithinLimits(limits, p)
    ensures IsAnswer(Ids(client(p.offset, RoundLimit(limits, p), round)), view, p.offset, RoundLimit(limits, p))
  {
  }

  // ---------- Cut and resume ----------

  function NextCursor(cursor: Option<int>, d: seq<int>): Option<int> { if d == [] then cursor else Some(d[|d| - 1]) }

  /** What slices delivered that resume one another, wherever each of them was cut. */
  predicate AreSlices(view: View, cursor: Option<int>, slices: seq<seq<int>>)
    decreases |slices|
  {
    slices == [] || (IsImport(slices[0], Offset(cursor), view) && AreSlices(view, NextCursor(cursor, slices[0]), slices[1..]))
  }

  function Joined(slices: seq<seq<int>>): seq<int> { if slices == [] then [] else slices[0] + Joined(slices[1..]) }

  function LastCursor(cursor: Option<int>, slices: seq<seq<int>>): Option<int>
    decreases |slices|
  {
    if slices == [] then cursor else LastCursor(NextCursor(cursor, slices[0]), slices[1..])
  }

  /** An import resumed where another ended continues it. */
  lemma ImportsJoin(d: seq<int>, e: seq<int>, start: int, view: View)
    requires IsImport(d, start, view) && IsImport(e, Resume(d, start), view)
    ensures IsImport(d + e, start, view)
    ensures IsComplete(e, Resume(d, start), view) ==> IsComplete(d + e, start, view)
  {
    var all := d + e;
    forall i, j | 0 <= i < j < |all| ensures all[j] < all[i] {
      if i < |d| <= j { assert e[j - |d|] in e && d[|d| - 1] <= d[i]; }
    }
    forall t | t in all ensures IsBelow(t, start) && t in view.ever {
      if t !in d {
        assert t in e;
        if d != [] { assert d[|d| - 1] in d; }
      }
    }
    forall t | t in view.always && IsBelow(t, start) && (IsComplete(e, Resume(d, start), view) || (all != [] && all[|all| - 1] <= t))
      ensures t in all
    {
      if !IsBelow(t, Resume(d, start)) { assert t in d; } else { assert t in e; }
    }
  }

  /** Cut and resume: any sequence of slices delivers one import, as an uncut scan would have,
      and it is complete if its last slice is; the next slice resumes after the last id of it. */
  lemma {:induction false} SlicesJoin(view: View, cursor: Option<int>, slices: seq<seq<int>>)
    requires AreSlices(view, cursor, slices)
    ensures IsImport(Joined(slices), Offset(cursor), view) && LastCursor(cursor, slices) == NextCursor(cursor, Joined(slices))
    ensures slices != [] && IsComplete(slices[|slices| - 1], Offset(LastCursor(cursor, slices[..|slices| - 1])), view) ==>
              IsComplete(Joined(slices), Offset(cursor), view)
    decreases |slices|
  {
    if slices == [] {
      NothingImported(Offset(cursor), view);
    } else {
      hide IsImport, IsComplete;
      var d, rest := slices[0], slices[1..];
      NextCursorResumes(cursor, d);
      SlicesJoin(view, NextCursor(cursor, d), rest);
      hide AreSlices;
      ImportsJoin(d, Joined(rest), Offset(cursor), view);
      CursorsJoin(cursor, d, Joined(rest));
      if rest == [] {
        assert d + [] == d && slices[..0] == [];
      } else {
        assert slices[..|slices| - 1][0] == d && slices[..|slices| - 1][1..] == rest[..|rest| - 1];
      }
    }
  }

  lemma CursorsJoin(cursor: Option<int>, d: seq<int>, e: seq<int>)
    ensures NextCursor(NextCursor(cursor, d), e) == NextCursor(cursor, d + e)
  {
    if e == [] { assert d + e == d; }
  }

  lemma NextCursorResumes(cursor: Option<int>, d: seq<int>)
    ensures Offset(NextCursor(cursor, d)) == Resume(d, Offset(cursor))
  {
  }

  /** The last id in the progress record is the cursor the next slice resumes from. */
  lemma TallyGivesCursor(start: Option<int>, pages: seq<ScanPage>, scanned: nat, pageCount: nat, last: Option<int>)
    requires Tally(start, pages, scanned, pageCount, last) && LastPageResumes(pages, Offset(start))
    ensures last == NextCursor(start, Delivered(pages))
  {
    if pages != [] {
      var page := pages[|pages| - 1];
      assert page in pages && |Ids(page.messages)| == |page.messages|;
    }
  }

  class SavedMessagesScanner {
    var isRunning: bool
    var isComplete: bool
    var stopRequested: bool
    var messagesScanned: nat
    var pagesScanned: nat
    var lastMessageId: Option<int>
    var failed: bool
    var reason: Option<Reason>
    /** The pages handed to the consumer in the current scan. */
    var delivered: seq<ScanPage>

    constructor ()
      ensures !isRunning && messagesScanned == 0 && delivered == []
    {
      isRunning, isComplete, stopRequested, failed := false, false, false, false;
      messagesScanned, pagesScanned, lastMessageId, reason, delivered := 0, 0, None, None, [];
    }

    method RequestStop()
      modifies this`stopRequested
      ensures stopRequested
    {
      stopRequested := true;
    }

    method BeginScan(start: Option<int>) returns (ok: bool)
      modifies this
      ensures ok == !old(isRunning)
      ensures ok ==> isRunning && !stopRequested && messagesScanned == 0 && pagesScanned == 0 && lastMessageId == start && delivered == []
      ensures !ok ==> unchanged(this)
    {
      if isRunning { return false; }
      isRunning, isComplete, stopRequested, failed := true, false, false, false;
      messagesScanned, pagesScanned, lastMessageId, reason, delivered := 0, 0, start, None, [];
      return true;
    }

    method RecordPage(page: ScanPage)
      modifies this`messagesScanned, this`pagesScanned, this`lastMessageId
      ensures messagesScanned == old(messagesScanned) + |page.messages| && pagesScanned == old(pagesScanned) + 1
      ensures lastMessageId == page.next
    {
      messagesScanned := messagesScanned + |page.messages|;
      pagesScanned := pagesScanned + 1;
      lastMessageId := page.next;
    }

    method FinishScan(error: bool, why: Option<Reason>)
      modifies this`isRunning, this`isComplete, this`failed, this`reason
      ensures !isRunning && failed == error && reason == why
      ensures isComplete <==> !error && !stopRequested && (why == Some(SourceExhausted) || why == Some(MessageLimitReached))
    {
      isRunning := false;
      isComplete := !error && !stopRequested && (why == Some(SourceExhausted) || why == Some(MessageLimitReached));
      failed := error;
      reason := why;
    }

    /** The progress record counts the pages delivered so far. */
    ghost predicate Counts(start: Option<int>)
      reads this`delivered, this`messagesScanned, this`pagesScanned, this`lastMessageId
    {
      Tally(start, delivered, messagesScanned, pagesScanned, lastMessageId)
    }

    lemma CursorIsKept(start: Option<int>)
      requires Counts(start) && LastPageResumes(delivered, Offset(start))
      ensures lastMessageId == NextCursor(start, Delivered(delivered))
    {
      TallyGivesCursor(start, delivered, messagesScanned, pagesScanned, lastMessageId);
    }

    ghost function At(offset: int): Position
      reads this`messagesScanned, this`pagesScanned
    {
      Position(messagesScanned, pagesScanned, offset)
    }

    /** The stop flag, the limits and the deadline, in this order, before anything is fetched. */
    method EndBeforeFetch(limits: Limits, offset: int, moment: Moment) returns (why: Option<Reason>)
      requires !stopRequested
      modifies this`stopRequested
      ensures stopRequested <==> why == Some(StoppedByUser)
      ensures moment.stop <==> why == Some(StoppedByUser)
      ensures why.Some? ==> EndsEmpty(limits, At(offset), [], why.value) && !why.value.SourceExhausted?
      ensures !moment.stop && HasRoom(limits, At(offset)) ==> why == if moment.late then Some(SliceTimeLimit) else None
      ensures why.None? ==> HasRoom(limits, At(offset))
      ensures IsCalm(moment) && why.Some? ==> CalmReason(why.value)
    {
      if moment.stop {
        RequestStop();
        return Some(StoppedByUser);
      }
      if limits.maxMessages.Some? && messagesScanned >= limits.maxMessages.value { return Some(MessageLimitReached); }
      if limits.maxPages.Some? && pagesScanned >= limits.maxPages.value { return Some(SlicePageLimit); }
      if moment.late { return Some(SliceTimeLimit); }
      return None;
    }

    /** Hands a page that is not empty on and records it; `false` when its consumer fails. */
    method HandOn(page: ScanPage, fails: bool, ghost start: Option<int>) returns (ok: bool)
      requires Counts(start) && (page.messages != [] ==> page.next.Some?)
      modifies this`delivered, this`messagesScanned, this`pagesScanned, this`lastMessageId
      ensures ok <==> page.messages == [] || !fails
      ensures ok ==>
                && delivered == old(delivered) + (if page.messages == [] then [] else [page])
                && messagesScanned == old(messagesScanned) + |page.messages|
                && pagesScanned == old(pagesScanned) + (if page.messages == [] then 0 else 1)
      ensures !ok ==> unchanged(this)
      ensures Counts(start)
    {
      if page.messages != [] {
        if fails { return false; }
        TallyGrows(start, delivered, messagesScanned, pagesScanned, lastMessageId, page);
        hide Tally;
        delivered := delivered + [page];
        RecordPage(page);
      }
      return true;
    }

    /** Whether the loop goes on after a page, and where. */
    method EndRound(page: ScanPage, deadlineReached: bool, offset: int) returns (why: Option<Reason>, next: int)
      ensures why == EndAfter(page, deadlineReached, offset)
      ensures next == if why.None? then page.next.value else offset
      ensures why != Some(StoppedByUser) && (!deadlineReached && why.Some? ==> CalmReason(why.value))
    {
      if deadlineReached { return Some(SliceTimeLimit), offset; }
      if !page.hasMore || page.next.None? { return Some(SourceExhausted), offset; }
      if page.next.value == offset { return Some(SourceExhausted), offset; }
      return None, page.next.value;
    }

    /** Caches the previews of a page, hands the page on and decides whether to go on. */
    method TakePage(limits: Limits, answer: seq<Scanned>, built: ScanPage, offset: int, ghost start: Option<int>, moment: Moment)
      returns (why: Option<Reason>, next: int, broke: bool, ghost t: Taken)
      requires Counts(start) && WithinLimits(limits, At(offset)) && HasRoom(limits, At(offset)) && answer != []
      requires built == Built(limits, At(offset), answer)
      modifies this`delivered, this`messagesScanned, this`pagesScanned, this`lastMessageId
      ensures IsTaken(limits, old(At(offset)), answer, t)
      ensures t == Taken(Previews(answer, moment.downloads), FirstStall(built.messages, moment.downloads, 0))
      ensures broke <==> moment.fails && NewPages(limits, old(At(offset)), Some(t)) != []
      ensures broke ==> why.None? && !IsCalm(moment) && unchanged(this)
      ensures why != Some(StoppedByUser)
      ensures !broke ==>
                && IsRound(limits, old(At(offset)), answer, Some(t), why, At(next))
                && delivered == old(delivered) + NewPages(limits, old(At(offset)), Some(t))
      ensures Counts(start)
      ensures IsCalm(moment) && why.Some? ==> CalmReason(why.value)
    {
      hide WithinLimits, HasRoom, Built, Counts, CutPage, Previews, FirstStall, IsCalm, RoundCapacity, IsTaken, PageTaken, IsRound, NewPages,
           CalmReason, EndTaken, EndAfter;
      var page, deadlineReached := CacheMediaPreviews(built, moment.downloads);
      t := Taken(Previews(answer, moment.downloads), FirstStall(built.messages, moment.downloads, 0));
      ghost var p := At(offset);
      PreviewedIsTaken(limits, p, answer, moment.downloads);
      if IsCalm(moment) { CalmNeverStalls(moment, built.messages); }
      NewPagesAre(limits, p, answer, t);
      var ok := HandOn(page, moment.fails, start);
      if !ok {
        FailingIsNotCalm(moment);
        return None, offset, true, t;
      }
      broke := false;
      why, next := EndRound(page, deadlineReached, offset);
      assert why == EndTaken(limits, p, t);
      TakenIsRound(limits, p, answer, t, page, next);
    }

    /** One round of the loop: the reason to end, if there is one, and the next offset. */
    method Round(client: Client, round: nat, limits: Limits, offset: int, ghost start: Option<int>, moment: Moment)
      returns (why: Option<Reason>, next: int, broke: bool, ghost taken: Option<Taken>)
      requires !stopRequested && Counts(start) && GoodLimits(limits) && WithinLimits(limits, At(offset))
      modifies this`stopRequested, this`delivered, this`messagesScanned, this`pagesScanned, this`lastMessageId
      ensures var answer := client(offset, RoundLimit(limits, old(At(offset))), round);
              && (taken.Some? ==> IsTaken(limits, old(At(offset)), answer, taken.value))
              && (!broke ==> IsRound(limits, old(At(offset)), answer, taken, why, At(next))
                             && delivered == old(delivered) + NewPages(limits, old(At(offset)), taken))
      ensures broke ==> why.None? && !IsCalm(moment) && unchanged(this)
      ensures Counts(start) && (stopRequested <==> why == Some(StoppedByUser))
      // A stop is obeyed, a deadline ends the slice before anything is taken, a consumer's error ends the scan.
      ensures moment.stop <==> why == Some(StoppedByUser)
      ensures !moment.stop && HasRoom(limits, old(At(offset))) && moment.late ==> why == Some(SliceTimeLimit) && taken.None?
      ensures broke <==> moment.fails && taken.Some? && NewPages(limits, old(At(offset)), taken) != []
      ensures IsCalm(moment) && why.Some? ==> CalmReason(why.value)
    {
      hide Ids, Counts, Tally, PageOf, IsTaken, IsCalm, EndTaken, PageTaken;
      why := EndBeforeFetch(limits, offset, moment);
      if why.Some? { return why, offset, false, None; }
      var capacity := limits.pageSize;
      if limits.maxMessages.Some? && limits.maxMessages.value - messagesScanned < capacity {
        capacity := limits.maxMessages.value - messagesScanned;
      }
      var limit := if limits.maxMessages.Some? then capacity + 1 else capacity;
      assert capacity == RoundCapacity(limits, At(offset));
      var answer := client(offset, limit, round);
      if answer == [] { return Some(SourceExhausted), offset, false, None; }
      var built := PageOf(answer, capacity, limits.maxMessages.Some?);
      if moment.lateCache { LateIsNotCalm(moment); return Some(SliceTimeLimit), offset, false, None; }
      ghost var t;
      why, next, broke, t := TakePage(limits, answer, built, offset, start, moment);
      taken := Some(t);
    }

    /** The loop: rounds until there is a reason to end, or a page could not be handed on. */
    method RunRounds(client: Client, ghost view: View, limits: Limits, start: Option<int>, moments: seq<Moment>) returns (why: Option<Reason>)
      requires GoodLimits(limits) && (limits.maxMessages.Some? || limits.maxPages.Some? || IsHonestClient(client, view))
      requires !stopRequested && messagesScanned == pagesScanned == 0 && delivered == [] && Counts(start)
      modifies this`stopRequested, this`delivered, this`messagesScanned, this`pagesScanned, this`lastMessageId
      ensures Counts(start) && WithinLimits(limits, At(0))
      ensures why.Some? ==> ScanEnds(limits, messagesScanned, pagesScanned, why.value, stopRequested)
      ensures IsHonestClient(client, view) ==>
                && IsImport(Delivered(delivered), Offset(start), view) && LastPageResumes(delivered, Offset(start))
                && (why.Some? ==> EndsHonestly(why.value, Delivered(delivered), Offset(start), view))
      ensures AllCalm(moments) ==> why.Some? && CalmReason(why.value)
    {
      hide Counts, Tally, IsCalm, AllCalm, CalmReason, MomentAt, IsImport, IsHonestClient, EndsHonestly, GoesOn, IsRound, NewPages,
           RoundLimit, IsTaken, Ids, IsAnswer;
      var offset := Offset(start);
      var round: nat := 0;
      why := None;
      NothingImported(Offset(start), view);
      while why.None?
        invariant Counts(start) && WithinLimits(limits, At(offset))
        invariant why.None? ==> !stopRequested
        invariant why.Some? ==> ScanEnds(limits, messagesScanned, pagesScanned, why.value, stopRequested)
        invariant IsHonestClient(client, view) ==>
                    IsImport(Delivered(delivered), Offset(start), view) && LastPageResumes(delivered, Offset(start))
        invariant IsHonestClient(client, view) && why.Some? ==> EndsHonestly(why.value, Delivered(delivered), Offset(start), view)
        invariant IsHonestClient(client, view) && why.None? ==>
                    && offset == Resume(Delivered(delivered), Offset(start))
                    && (limits.maxMessages.Some? && messagesScanned > 0 ==> GoesOn(Delivered(delivered), Offset(start), view))
        invariant AllCalm(moments) && why.Some? ==> CalmReason(why.value)
        decreases if why.None? then 1 else 0,
                  if limits.maxMessages.Some? then limits.maxMessages.value - messagesScanned
                  else if limits.maxPages.Some? then limits.maxPages.value - pagesScanned
                  else if offset == 0 then 1 else 0,
                  if limits.maxMessages.Some? || limits.maxPages.Some? then 0 else offset
      {
        if AllCalm(moments) { CalmAt(moments, round); }
        ghost var p, pages := At(offset), delivered;
        var next, broke;
        ghost var taken;
        why, next, broke, taken := Round(client, round, limits, offset, start, MomentAt(moments, round));
        if broke { return None; }
        ghost var answer := client(p.offset, RoundLimit(limits, p), round);
        RoundCounts(limits, p, answer, taken, why, At(next));
        if IsHonestClient(client, view) {
          AnswersHonestly(client, view, limits, p, round);
          RoundImports(limits, p, answer, taken, why, At(next), pages, Offset(start), view);
        }
        offset, round := next, round + 1;
      }
    }

    /** One scan, whatever the client answers and whatever interrupts it: its progress record
        counts what it handed on, within its limits, and each way of ending means what its name
        says. If the client answers honestly, what it handed on is an import of what was below
        its start: newest first, none twice, nothing left out that was listed all the time. */
    method Scan(client: Client, ghost view: View, pageSize: int, start: Option<int>, maxMessages: Option<int>, maxPages: Option<int>,
                moments: seq<Moment>) returns (result: Result)
      requires maxMessages.Some? || maxPages.Some? || IsHonestClient(client, view)
      modifies this
      ensures result.InvalidArguments? <==> pageSize <= 0 || !Positive(maxMessages) || !Positive(maxPages)
      ensures !result.InvalidArguments? ==> (result.AlreadyRunning? <==> old(isRunning))
      ensures !Ran(result) ==> unchanged(this)
      ensures Ran(result) ==> !isRunning && Counts(start) && Within(maxMessages, messagesScanned) && Within(maxPages, pagesScanned)
      ensures Ran(result) && IsHonestClient(client, view) ==>
                IsImport(Delivered(delivered), Offset(start), view) && lastMessageId == NextCursor(start, Delivered(delivered))
      ensures result.PageFailed? ==> failed && !isComplete && reason.None?
      ensures result.Finished? ==>
                && !failed && reason.Some?
                && ScanEnds(Limits(pageSize, maxMessages, maxPages), messagesScanned, pagesScanned, reason.value, stopRequested)
                && (isComplete <==> reason.value.SourceExhausted? || reason.value.MessageLimitReached?)
                && (IsHonestClient(client, view) ==> EndsHonestly(reason.value, Delivered(delivered), Offset(start), view))
      ensures AllCalm(moments) ==> !result.PageFailed? && (result.Finished? ==> CalmReason(reason.value))
    {
      if pageSize <= 0 || (maxMessages.Some? && maxMessages.value <= 0) || (maxPages.Some? && maxPages.value <= 0) {
        return InvalidArguments;
      }
      var ok := BeginScan(start);
      if !ok { return AlreadyRunning; }
      var limits := Limits(pageSize, maxMessages, maxPages);
      assert Counts(start);
      hide Counts, Tally, IsCalm, CalmReason, IsHonestClient, IsImport, EndsHonestly;
      var why := RunRounds(client, view, limits, start, moments);
      if IsHonestClient(client, view) { CursorIsKept(start); }
      if why.None? {
        FinishScan(true, None);
        return PageFailed;
      }
      FinishScan(false, why);
      return Finished;
    }
  }

  /** Undisturbed, without a page limit and over a list that stays as it is, a scan hands on
      exactly the first min(n, limit) of the n messages below its start, and says why it ended. */
  method ScanSteadily(scanner: SavedMessagesScanner, client: Client, ghost source: seq<int>, pageSize: int, start: Option<int>,
                      maxMessages: Option<int>, moments: seq<Moment>) returns (result: Result)
    requires Descending(source) && AllCalm(moments)
    requires forall offset: int, limit: nat, round: nat :: Ids(client(offset, limit, round)) == Fetch(source, offset, limit)
    modifies scanner
    ensures result.Finished? <==> 0 < pageSize && Positive(maxMessages) && !old(scanner.isRunning)
    ensures result.Finished? ==>
              var below := Below(source, Offset(start));
              var n := if maxMessages.Some? && maxMessages.value < |below| then maxMessages.value else |below|;
              && Delivered(scanner.delivered) == below[..n] && scanner.messagesScanned == n && scanner.isComplete
              && (scanner.reason == Some(SourceExhausted) <==> maxMessages.None? || |below| <= maxMessages.value)
              && (scanner.reason == Some(MessageLimitReached) <==> maxMessages.Some? && maxMessages.value < |below|)
  {
    ghost var view := View(IdSet(source), IdSet(source));
    SteadyListingIsHonest(client, source);
    hide Descending, Below, Fetch, Ids, IsHonestClient, AllCalm, IsImport;
    result := scanner.Scan(client, view, pageSize, start, maxMessages, None, moments);
    if result.Finished? {
      SteadyScanIsExact(source, Offset(start), Delivered(scanner.delivered), scanner.reason.value, Limits(pageSize, maxMessages, None));
    }
  }

  lemma SteadyListingIsHonest(client: Client, source: seq<int>)
    requires Descending(source)
    requires forall offset: int, limit: nat, round: nat :: Ids(client(offset, limit, round)) == Fetch(source, offset, limit)
    ensures IsHonestClient(client, View(IdSet(source), IdSet(source)))
  {
    hide Descending, Fetch, Ids, IsHonestClient;
    ListingsAreHonest(client, (round: nat) => source, View(IdSet(source), IdSet(source)));
  }
}
