/** What rescans leave of what the user made of the library. As long as a cached message
    survives it keeps its row, its category and its tags, whatever scans run in between; but a
    text the user edited is lost with the next page that imports the message with another one. */
module Organization {
  import opened Wrappers
  import opened ScanRows
  import opened TelegramAuth
  import opened ScanTransactions
  import opened StoreRules
  import opened Scanner
  import opened ScanProtocol
  import opened ProtocolInvariant
  import opened Fencing
  import opened ExactlyOnce
  import opened JobLibraries

  /** Rows that appear take row ids never used before. */
  predicate FreshRows(s: Store, s': Store) {
    && s.nextMessage <= s'.nextMessage
    && forall k :: k in s'.messages && k !in s.messages ==> s.nextMessage <= s'.messages[k].id
  }

  lemma UserActionsInsertNothing(s: World, a: Action, now: int)
    requires Enabled(s, a, now) && IsUserAction(a)
    ensures DoUser(s, a, now).store.nextMessage == s.store.nextMessage
  {
    hide CancelJobs, BoundJobs, ClearUserMarkers, ClearAllUserMarkers, RequestEffect, DeleteRemote, ValidateForScan, HasActiveJob, DoUser,
         Plausible, MayConclude, BuildPage, Conflicts, ReusesSession;
    UserTransaction(s, a, now);
  }

  lemma WorkersInsertOnlyPages(s: World, a: Action, now: int)
    requires Enabled(s, a, now) && !IsUserAction(a) && !a.CommitPage?
    ensures DoWorker(s, a, now).store.nextMessage == s.store.nextMessage
  {
    hide CancelJobs, BoundJobs, ClearUserMarkers, ClearMarkers, MayConclude, Holds, ConnectionMatches, KeepsHistory, OnlyScans, BuildPage,
         Plausible, Claim, Snapshot, Beat, ReadStop, Finish, Fail, GiveBack, Commit, ExpiredStopping;
  }

  lemma RowsAreFresh(s: World, a: Action, s': World)
    requires Inv(s) && Next(s, a, s')
    ensures FreshRows(s.store, s'.store)
  {
    hide Inv, Enabled, DoUser, DoWorker, Commit, BuildPage, Imports;
    if a.CommitPage? {
      CommitIs(s, a, s');
      if PersistsPage(s, a.w, a.raw, a.keep, s'.clock) {
        CommitImports(s, a.w, a.raw, a.keep, s'.clock);
        ImportedRowsAreFresh(s, a.w, a.raw, a.keep, s'.clock);
      } else {
        UnpersistedPageKeeps(s, a.w, a.raw, a.keep, s'.clock);
      }
    } else {
      NothingElseAppears(s, a, s');
      if IsUserAction(a) { UserActionsInsertNothing(s, a, s'.clock); } else { WorkersInsertOnlyPages(s, a, s'.clock); }
    }
  }

  lemma NothingElseAppears(s: World, a: Action, s': World)
    requires Inv(s) && Next(s, a, s') && !a.CommitPage?
    ensures forall k :: k in s'.store.messages ==> k in s.store.messages
  {
    hide Next, Inv, IsSweep;
    NothingElseImports(s, a, s');
  }

  lemma ImportedRowsAreFresh(s: World, w: WorkerId, raw: seq<Scanned>, keep: nat, now: int)
    requires Inv(s) && MayFetch(WorkerOf(s, w)) && keep <= |BuildPage(raw, Capacity(WorkerOf(s, w))).messages|
    requires PersistsPage(s, w, raw, keep, now)
    ensures FreshRows(s.store, Commit(s, w, raw, keep, now).store)
  {
    CommitImports(s, w, raw, keep, now);
    hide Inv, Commit, BuildPage, PersistsPage, KeepsOrganization;
  }

  predicate ReorganizesRow(a: Action, k: Key) { (a.SetCategory? || a.SetTags?) && a.key == k }

  /** The same row with the same organization. */
  predicate SameOrganization(m: Message, m': Message) { m'.id == m.id && m'.category == m.category && m'.tags == m.tags }

  lemma StepKeepsOrganization(s: World, a: Action, s': World, k: Key)
    requires Inv(s) && Next(s, a, s') && !ReorganizesRow(a, k) && k in s.store.messages && k in s'.store.messages
    ensures SameOrganization(s.store.messages[k], s'.store.messages[k])
  {
    hide Next, Inv, RowsEvolve, Administrative;
    InvStep(s, a, s');
    if Organizes(a) { OrganizingIs(s, a, s'); }
  }

  /** Over any stretch of any run in which the user does not reorganize message `k`: if it is
      there at the end, either it is the row that was there at the beginning, with the same
      category and tags, or that row was deleted in between and a new one was imported. */
  lemma {:induction false} SurvivorsKeepOrganization(run: seq<World>, actions: seq<Action>, i: nat, m: nat, k: Key)
    requires IsRun(run, actions) && i <= m < |run| && k in run[i].store.messages && k in run[m].store.messages
    requires forall n :: i <= n < m ==> !ReorganizesRow(actions[n], k)
    ensures var row, row' := run[i].store.messages[k], run[m].store.messages[k];
            SameOrganization(row, row') || run[i].store.nextMessage <= row'.id
    ensures run[i].store.nextMessage <= run[m].store.nextMessage
  {
    hide Next, Inv, Init;
    if i < m {
      InvAlways(run, actions, m - 1);
      RowsAreFresh(run[m - 1], actions[m - 1], run[m]);
      NextRowOnlyGrows(run, actions, i, m - 1);
      NextRowOnlyGrows(run, actions, i, m);
      if k in run[m - 1].store.messages {
        SurvivorsKeepOrganization(run, actions, i, m - 1, k);
        StepKeepsOrganization(run[m - 1], actions[m - 1], run[m], k);
      }
    }
  }

  lemma {:induction false} NextRowOnlyGrows(run: seq<World>, actions: seq<Action>, i: nat, m: nat)
    requires IsRun(run, actions) && i <= m < |run|
    ensures run[i].store.nextMessage <= run[m].store.nextMessage
  {
    hide Next, Inv, Init;
    if i < m {
      NextRowOnlyGrows(run, actions, i, m - 1);
      InvAlways(run, actions, m - 1);
      RowsAreFresh(run[m - 1], actions[m - 1], run[m]);
    }
  }

  /** One row per user, principal and Telegram id, each with its own row id, in every world of every run. */
  lemma RowsAreDistinct(run: seq<World>, actions: seq<Action>, i: nat, k: Key, k': Key)
    requires IsRun(run, actions) && i < |run| && k in run[i].store.messages && k' in run[i].store.messages
    ensures run[i].store.messages[k].id == run[i].store.messages[k'].id <==> k == k'
    ensures run[i].store.messages[k].id < run[i].store.nextMessage
  {
    hide Next, Init, FreshTokens, WorkersFit, GoodJobs, MarkersAreLive;
    InvAlways(run, actions, i);
  }

  // ---------- What an import writes ----------

  lemma {:induction false} OtherRowsStay(t: Table, l: Lease, messages: seq<Scanned>, k: Key)
    requires k !in PageKeys(l, messages)
    ensures k in UpsertAll(t, l, messages).rows <==> k in t.rows
    ensures k in t.rows ==> UpsertAll(t, l, messages).rows[k] == t.rows[k]
  {
    if messages != [] {
      PageKeysGrow(l, messages);
      OtherRowsStay(t, l, messages[..|messages| - 1], k);
    }
  }

  /** The last message of a page with a given id decides what its row says: its copied content,
      and its media unless it is an image whose preview is missing. A row that is new has its
      category and no tags. */
  lemma {:induction false} LastMessageWins(t: Table, l: Lease, messages: seq<Scanned>, i: nat)
    requires i < |messages| && forall j :: i < j < |messages| ==> messages[j].tid != messages[i].tid
    ensures var m, k := messages[i], KeyOf(l, messages[i].tid);
            var rows := UpsertAll(t, l, messages).rows;
            && k in rows && rows[k].content == m.content && rows[k].body == m.body
            && (m.media.Some? || !m.image ==> rows[k].media == m.media)
            && (m.media.None? && m.image && k in t.rows && (forall j :: 0 <= j < i ==> messages[j].tid != m.tid) ==>
                  rows[k].media == t.rows[k].media)
            && (k !in t.rows && (forall j :: 0 <= j < i ==> messages[j].tid != m.tid) ==>
                  rows[k].category == m.category && rows[k].tags == {} && rows[k].media == m.media)
  {
    var n := |messages| - 1;
    if i < n {
      assert messages[..n][i] == messages[i];
      LastMessageWins(t, l, messages[..n], i);
    } else {
      UpsertAllKeys(t, l, messages[..n]);
      if KeyOf(l, messages[n].tid) in PageKeys(l, messages[..n]) {
        var j :| 0 <= j < n && KeyOf(l, messages[..n][j].tid) == KeyOf(l, messages[n].tid);
        assert messages[j].tid == messages[n].tid;
      } else {
        OtherRowsStay(t, l, messages[..n], KeyOf(l, messages[n].tid));
      }
    }
  }

  // ---------- Texts the user edited ----------

  /** The last message of a page with the given id. */
  function LastWith(messages: seq<Scanned>, t: int): (i: nat)
    requires t in Ids(messages)
    ensures i < |messages| && messages[i].tid == t && forall j :: i < j < |messages| ==> messages[j].tid != t
  {
    var n := |messages| - 1;
    assert Ids(messages) == Ids(messages[..n]) + [messages[n].tid];
    if messages[n].tid == t then n else LastWith(messages[..n], t)
  }

  /** Some page of this step holds the message of row `k`. */
  predicate ImportsRow(s: World, a: Action, now: int, k: Key) {
    Persists(s, a, now) && k in PageKeys(WorkerOf(s, a.w).lease, PageFor(WorkerOf(s, a.w), a.raw, a.keep).messages)
  }

  lemma PageKeysAreIds(l: Lease, messages: seq<Scanned>, k: Key)
    requires k in PageKeys(l, messages)
    ensures k.tid in Ids(messages) && k == KeyOf(l, k.tid)
  {
    var i :| 0 <= i < |messages| && k == KeyOf(l, messages[i].tid);
    assert Ids(messages)[i] == k.tid;
  }

  function ImportedText(s: World, a: Action, now: int, k: Key): nat
    requires ImportsRow(s, a, now, k)
  {
    var messages := PageFor(WorkerOf(s, a.w), a.raw, a.keep).messages;
    PageKeysAreIds(WorkerOf(s, a.w).lease, messages, k);
    messages[LastWith(messages, k.tid)].content
  }

  lemma PersistedText(s: World, a: Action, s': World, k: Key)
    requires Inv(s) && Next(s, a, s') && Persists(s, a, s'.clock) && k in s.store.messages && k in s'.store.messages
    ensures s'.store.messages[k].content ==
              if ImportsRow(s, a, s'.clock, k) then ImportedText(s, a, s'.clock, k) else s.store.messages[k].content
  {
    hide Next, Inv, BuildPage, CutPage, UpsertAll, Commit, KeepsOrganization, PersistsPage, PageKeys;
    PersistsIs(s, a, s'.clock);
    CommitIs(s, a, s');
    CommitImports(s, a.w, a.raw, a.keep, s'.clock);
    var l, messages := WorkerOf(s, a.w).lease, PageFor(WorkerOf(s, a.w), a.raw, a.keep).messages;
    if ImportsRow(s, a, s'.clock, k) {
      PageKeysAreIds(l, messages, k);
      LastMessageWins(Table(s.store.messages, s.store.nextMessage), l, messages, LastWith(messages, k.tid));
      PersistedRows(s, a, s');
    }
  }

  lemma PersistedRows(s: World, a: Action, s': World)
    requires Next(s, a, s') && Persists(s, a, s'.clock)
    ensures s'.store.messages ==
              UpsertAll(Table(s.store.messages, s.store.nextMessage), WorkerOf(s, a.w).lease,
                        PageFor(WorkerOf(s, a.w), a.raw, a.keep).messages).rows
  {
    hide Next, BuildPage, CutPage, UpsertAll, AfterPage, RepeatsNewMessage, ConnectionMatches, OnlyScans;
    CommitIs(s, a, s');
  }

  /** The text of a row after a step: the edit, if it is an edit; the text of the last such
      message, if a page with the message is persisted; else what it was. */
  lemma TextAfterStep(s: World, a: Action, s': World, k: Key)
    requires Inv(s) && Next(s, a, s') && k in s.store.messages && k in s'.store.messages
    ensures s'.store.messages[k].content ==
              if a.EditContent? && a.key == k then a.content
              else if ImportsRow(s, a, s'.clock, k) then ImportedText(s, a, s'.clock, k)
              else s.store.messages[k].content
  {
    hide Next, Inv, Persists, IsSweep, Commit, BuildPage, PersistsPage;
    if Persists(s, a, s'.clock) {
      PersistsIs(s, a, s'.clock);
      PersistedText(s, a, s', k);
    } else if a.CommitPage? {
      UnpersistedCommitIs(s, a, s');
    } else {
      NothingElseImports(s, a, s');
    }
  }

  predicate IsLastImport(run: seq<World>, actions: seq<Action>, n: nat, m: nat, k: Key)
    requires |run| == |actions| + 1 && n < m < |run|
  {
    && ImportsRow(run[n], actions[n], run[n + 1].clock, k)
    && forall q :: n < q < m ==> !ImportsRow(run[q], actions[q], run[q + 1].clock, k)
  }

  /** Over any stretch of any run in which a row stays and is not edited, its text is lost
      exactly if a page with its message is persisted and the last such page has another text. */
  lemma {:induction false} TextIsLostExactly(run: seq<World>, actions: seq<Action>, i: nat, m: nat, k: Key)
    requires IsRun(run, actions) && i <= m < |run| && forall n :: i <= n <= m ==> k in run[n].store.messages
    requires forall n :: i <= n < m ==> !(actions[n].EditContent? && actions[n].key == k)
    ensures run[m].store.messages[k].content != run[i].store.messages[k].content <==>
              exists n :: i <= n < m && IsLastImport(run, actions, n, m, k)
                          && ImportedText(run[n], actions[n], run[n + 1].clock, k) != run[i].store.messages[k].content
  {
    hide Next, Inv, Init, ImportsRow, ImportedText;
    if i < m {
      var s, a, s' := run[m - 1], actions[m - 1], run[m];
      TextIsLostExactly(run, actions, i, m - 1, k);
      InvAlways(run, actions, m - 1);
      TextAfterStep(s, a, s', k);
      if ImportsRow(s, a, s'.clock, k) {
        assert IsLastImport(run, actions, m - 1, m, k);
      } else {
        forall n | i <= n < m - 1 ensures IsLastImport(run, actions, n, m, k) <==> IsLastImport(run, actions, n, m - 1, k) {
          NoLaterImport(run, actions, n, m, k);
        }
      }
    }
  }

  lemma NoLaterImport(run: seq<World>, actions: seq<Action>, n: nat, m: nat, k: Key)
    requires |run| == |actions| + 1 && n < m - 1 && m < |run|
    requires !ImportsRow(run[m - 1], actions[m - 1], run[m].clock, k)
    ensures IsLastImport(run, actions, n, m, k) <==> IsLastImport(run, actions, n, m - 1, k)
  {
  }

  /** The user corrects a cached message, and a rescan brings the old text back. */
  lemma EditedThenRescanned(l: Lease, row: Message, m: Scanned, correction: nat)
    requires m.content == row.content != correction
    ensures var k := KeyOf(l, m.tid);
            var edited := Table(map[k := row.(content := correction)], row.id + 1);
            UpsertAll(edited, l, [m]).rows[k].content == row.content != edited.rows[k].content
  {
    assert [m][..0] == [];
  }

  // ---------- Importing the same page again ----------

  /** The row of `k` after the messages with that key refreshed it one after the other. */
  function Refold(row: Message, l: Lease, messages: seq<Scanned>, k: Key): (r: Message)
    ensures r.id == row.id && r.category == row.category && r.tags == row.tags
    ensures k !in PageKeys(l, messages) ==> r == row
    ensures !l.replace ==> r.marker == row.marker
  {
    if messages == [] then row
    else
      var n := |messages| - 1;
      PageKeysGrow(l, messages);
      var before := Refold(row, l, messages[..n], k);
      if KeyOf(l, messages[n].tid) == k then Refreshed(before, l, messages[n]) else before
  }

  /** A refold forgets everything of its row but the identity and, at most, media and marker. */
  lemma {:induction false} RefoldForgets(x: Message, y: Message, l: Lease, messages: seq<Scanned>, k: Key)
    requires SameOrganization(x, y) && (l.replace || x.marker == y.marker)
    ensures var x', y' := Refold(x, l, messages, k), Refold(y, l, messages, k);
            && (k in PageKeys(l, messages) ==> x'.(media := None) == y'.(media := None))
            && (x'.media == y'.media || (x'.media == x.media && y'.media == y.media))
  {
    if messages != [] {
      RefoldForgets(x, y, l, messages[..|messages| - 1], k);
      PageKeysGrow(l, messages);
    }
  }

  lemma RefoldTwice(x: Message, l: Lease, messages: seq<Scanned>, k: Key)
    ensures Refold(Refold(x, l, messages, k), l, messages, k) == Refold(x, l, messages, k)
  {
    var x' := Refold(x, l, messages, k);
    RefoldForgets(x, x', l, messages, k);
    if k in PageKeys(l, messages) {
      var x'' := Refold(x', l, messages, k);
      assert x'.(media := None) == x''.(media := None) && x'.media == x''.media;
    }
  }

  /** The row of an imported key is a refold: of the old row, or of the row its first message inserted. */
  lemma {:induction false} UpsertedRow(t: Table, l: Lease, messages: seq<Scanned>, k: Key) returns (row: Message)
    requires k in t.rows || k in PageKeys(l, messages)
    ensures k in UpsertAll(t, l, messages).rows && UpsertAll(t, l, messages).rows[k] == Refold(row, l, messages, k)
    ensures k in t.rows ==> row == t.rows[k]
  {
    if messages == [] {
      row := t.rows[k];
    } else {
      var n := |messages| - 1;
      var before := UpsertAll(t, l, messages[..n]);
      PageKeysGrow(l, messages);
      if k in t.rows || k in PageKeys(l, messages[..n]) {
        row := UpsertedRow(t, l, messages[..n], k);
      } else {
        UpsertAllKeys(t, l, messages[..n]);
        row := Inserted(before.next, l, messages[n]);
        assert Refold(row, l, messages[..n], k) == row;
      }
    }
  }

  /** Importing a page is idempotent on the table: importing it again, by the same scan,
      changes no row and uses up no row id. */
  lemma UpsertAllTwice(t: Table, l: Lease, messages: seq<Scanned>)
    ensures UpsertAll(UpsertAll(t, l, messages), l, messages) == UpsertAll(t, l, messages)
  {
    var t1 := UpsertAll(t, l, messages);
    var t2 := UpsertAll(t1, l, messages);
    UpsertAllKeys(t, l, messages);
    UpsertAllKeys(t1, l, messages);
    forall k | k in t1.rows ensures t2.rows[k] == t1.rows[k] {
      var row := UpsertedRow(t, l, messages, k);
      var row' := UpsertedRow(t1, l, messages, k);
      RefoldTwice(row, l, messages, k);
    }
    assert t2.rows == t1.rows;
  }
}
