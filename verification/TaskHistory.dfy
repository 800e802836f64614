/** The per-generation history log: bounded appends, trimming, and reading it page by page through cursors. */
module TaskHistory {
  import opened Basics

  type Payload(==, !new, 0)
  // Identifiers the storage server gives stream entries: each append gets a larger one than any before, 0 comes first.
  type StreamId = nat

  datatype StreamEntry = StreamEntry(id: StreamId, sequence: nat, data: Payload)
  // A reader's place: after this many entries, the last of them having this identifier.
  datatype Position = Position(sequence: nat, id: StreamId)
  datatype Cursor = Cursor(owner: Owner, position: Position)
  type Owner(==, !new, 0)

  datatype Page = Page(entries: seq<StreamEntry>, cursor: Cursor, hasMore: bool, truncated: bool)
  datatype Reading = Read(page: Page) | Expired(earliest: Cursor) | Invalid | Corrupt

  const MAX_SEQUENCE: nat := 9007199254740991
  const MAX_PAGE: nat := 1000

  // ---- what was ever appended --------------------------------------------------------------

  // Every entry ever appended: numbered from one, identifiers increasing.
  ghost predicate Chronicle(all: seq<StreamEntry>) {
    && (forall n :: 0 <= n < |all| ==> all[n].sequence == n + 1 && 0 < all[n].id)
    && (forall m, n :: 0 <= m < n < |all| ==> all[m].id < all[n].id)
  }

  // The identifier a reader has seen last after n entries.
  function IdAt(all: seq<StreamEntry>, n: nat): StreamId
    requires n <= |all|
  {
    if n == 0 then 0 else all[n - 1].id
  }

  // The position names an entry that was really appended, or the very beginning.
  predicate Genuine(all: seq<StreamEntry>, p: Position) {
    p.sequence <= |all| && p.id == IdAt(all, p.sequence)
  }

  lemma {:induction false} LaterChronicle(all: seq<StreamEntry>, m: nat, n: nat)
    requires Chronicle(all) && m <= n <= |all|
    ensures IdAt(all, m) <= IdAt(all, n) && (m < n ==> IdAt(all, m) < IdAt(all, n))
  {
  }

  // ---- range queries over the stream ---------------------------------------------------------

  // The entry with this very identifier.
  function Find(stream: seq<StreamEntry>, id: StreamId): Option<StreamEntry> {
    if stream == [] then None
    else if stream[0].id == id then Some(stream[0])
    else Find(stream[1..], id)
  }

  // The entries after this identifier, oldest first.
  function After(stream: seq<StreamEntry>, id: StreamId): seq<StreamEntry> {
    if stream == [] then []
    else if id < stream[0].id then stream
    else After(stream[1..], id)
  }

  function Take(entries: seq<StreamEntry>, count: nat): seq<StreamEntry> {
    if count <= |entries| then entries[..count] else entries
  }

  lemma {:induction false} FindInSuffix(all: seq<StreamEntry>, from: nat, id: StreamId)
    requires Chronicle(all) && from <= |all|
    ensures Find(all[from..], id).Some? <==> exists n :: from <= n < |all| && all[n].id == id
    ensures forall n :: from <= n < |all| && all[n].id == id ==> Find(all[from..], id) == Some(all[n])
    decreases |all| - from
  {
    if from < |all| {
      assert all[from..][1..] == all[from + 1..];
      FindInSuffix(all, from + 1, id);
    }
  }

  lemma {:induction false} AfterInSuffix(all: seq<StreamEntry>, from: nat, n: nat)
    requires Chronicle(all) && from <= n <= |all|
    ensures After(all[from..], IdAt(all, n)) == all[n..]
    decreases n - from
  {
    if from == n {
      if n < |all| {
        LaterChronicle(all, n, n + 1);
      }
    } else {
      LaterChronicle(all, from + 1, n);
      assert all[from..][1..] == all[from + 1..];
      AfterInSuffix(all, from + 1, n);
    }
  }

  lemma ChronicleGrows(all: seq<StreamEntry>, e: StreamEntry)
    requires Chronicle(all) && e.sequence == |all| + 1 && IdAt(all, |all|) < e.id
    ensures Chronicle(all + [e])
  {
    forall m | 0 <= m < |all| ensures all[m].id < e.id {
      assert all[m].id <= all[|all| - 1].id;
    }
  }

  // The newest entry joins what is kept, and the last identifier trimmed stays what it was.
  lemma Appended(all: seq<StreamEntry>, e: StreamEntry, trimmed: nat)
    requires trimmed <= |all|
    ensures all[trimmed..] + [e] == (all + [e])[trimmed..] && IdAt(all + [e], trimmed) == IdAt(all, trimmed)
  {
  }

  lemma OneFurther(found: seq<StreamEntry>, all: seq<StreamEntry>, from: nat, i: nat)
    requires i < |found| && from + i < |all| && found[..i] == all[from..from + i] && found[i] == all[from + i]
    ensures found[..i + 1] == all[from..from + i + 1]
  {
    assert found[..i + 1] == found[..i] + [found[i]];
    assert all[from..from + i + 1] == all[from..from + i] + [all[from + i]];
  }

  // Dropping the oldest entry kept moves the trim mark past exactly that entry.
  lemma Evicted(all: seq<StreamEntry>, trimmed: nat)
    requires trimmed < |all|
    ensures all[trimmed..][1..] == all[trimmed + 1..] && all[trimmed..][0].id == IdAt(all, trimmed + 1)
  {
  }

  class TaskHistory {
    const owner: Owner
    // The most entries kept; zero keeps all.
    const limit: nat
    var stream: seq<StreamEntry>
    var sequence: nat
    var trimmed: nat
    var trimmedId: StreamId
    // Everything ever appended, also what has been trimmed.
    ghost var all: seq<StreamEntry>

    ghost predicate Valid()
      reads this
    {
      && Chronicle(all) && sequence == |all| <= MAX_SEQUENCE
      && trimmed <= sequence && stream == all[trimmed..] && trimmedId == IdAt(all, trimmed)
      && trimmed == if 0 < limit < sequence then sequence - limit else 0
    }

    // The log as a read finds it.
    ghost function Seen(): Snapshot
      reads this
    {
      Snapshot(all, trimmed)
    }

    constructor (o: Owner, max: nat)
      ensures Valid() && all == [] && owner == o && limit == max
    {
      owner, limit := o, max;
      stream, sequence, trimmed, trimmedId := [], 0, 0, 0;
      all := [];
    }

    // The consistency check before every use; it refuses a history that has run out of numbers, and no other reachable
    // one.
    predicate Consistent()
      reads this
    {
      sequence < MAX_SEQUENCE && trimmed <= sequence && |stream| == sequence - trimmed
    }

    lemma AssertionNeverFires()
      requires Valid() && sequence < MAX_SEQUENCE
      ensures Consistent()
    {
    }

    // Appends one entry and evicts the oldest when the cap is exceeded.
    method Append(id: StreamId, data: Payload) returns (ok: bool)
      requires Valid() && IdAt(all, |all|) < id
      modifies this
      ensures Valid() && ok == (old(sequence) < MAX_SEQUENCE)
      ensures all == if ok then old(all) + [StreamEntry(id, old(sequence) + 1, data)] else old(all)
      ensures trimmed == if ok && 0 < limit && limit < old(sequence) + 1 then old(sequence) + 1 - limit
        else old(trimmed)
      ensures Grows(old(Seen()), Seen())
    {
      hide Chronicle, Grows, IdAt;
      ok := Consistent();
      if !ok {
        GrowsByNothing(Seen());
        return;
      }
      ghost var seen := Seen();
      ghost var before := all;
      var entry := StreamEntry(id, sequence + 1, data);
      stream := stream + [entry];
      sequence := sequence + 1;
      all := all + [entry];
      ChronicleGrows(before, entry);
      Appended(before, entry, trimmed);
      if 0 < limit && limit < |stream| {
        var oldest := stream[0];
        Evicted(all, trimmed);
        stream := stream[|stream| - limit..];
        trimmed := sequence - limit;
        trimmedId := oldest.id;
      }
      GrowsByOne(seen, entry, trimmed);
    }

    // ---- reading -------------------------------------------------------------------------------

    // The right answer, as long as the history has not run out of numbers.
    ghost function Answer(position: Option<Position>, count: nat): Reading
      requires Valid()
      reads this
    {
      if sequence < MAX_SEQUENCE then PageAfter(owner, all, trimmed, position, count) else Corrupt
    }

    // The page after a position; without one, from the oldest entry kept.
    method ReadFrom(position: Option<Position>, count: nat) returns (reply: Reading)
      requires Valid() && 1 <= count <= MAX_PAGE
      ensures reply == Answer(position, count)
    {
      if !Consistent() {
        return Corrupt;
      }
      var p := if position.Some? then position.value else Position(trimmed, trimmedId);
      if sequence < p.sequence {
        return Invalid;
      }
      if p.sequence < trimmed {
        return Expired(Cursor(owner, Position(trimmed, trimmedId)));
      }
      if p.sequence == trimmed {
        if p.id != trimmedId {
          return Invalid;
        }
      } else {
        var entry := Find(stream, p.id);
        FindInSuffix(all, trimmed, p.id);
        GenuineByEntry(all, trimmed, p);
        if entry.None? || entry.value.sequence != p.sequence {
          return Invalid;
        }
      }
      assert Genuine(all, p);
      AfterInSuffix(all, trimmed, p.sequence);
      var found := Take(After(stream, p.id), count + 1);
      reply := Assemble(p, found, count);
    }

    // The client's side: at most count of the entries found, checked to be contiguous.
    method Assemble(start: Position, found: seq<StreamEntry>, count: nat) returns (reply: Reading)
      requires Valid() && Genuine(all, start) && trimmed <= start.sequence && 0 < count
      requires found == Take(all[start.sequence..], count + 1)
      ensures reply == Read(PageOf(owner, all, trimmed, start.sequence, count))
    {
      var entries := [];
      var at, last := start.sequence, start.id;
      var i := 0;
      while i < |found| && i < count
        invariant i <= |found| && i <= count && at == start.sequence + i && entries == found[..i]
        invariant at <= |all| && last == IdAt(all, at) && found[..i] == all[start.sequence..at]
      {
        assert found[i] == all[at];
        OneFurther(found, all, start.sequence, i);
        if found[i].sequence != at + 1 {
          return Corrupt;
        }
        entries := entries + [found[i]];
        at, last := found[i].sequence, found[i].id;
        i := i + 1;
      }
      reply := Read(Page(entries, Cursor(owner, Position(at, last)), count < |found|, 0 < trimmed));
    }

    // A cursor is bound to the history it came from, and served exactly if some read could have ended at it and nothing
    // after it is gone.
    method ReadHistory(after: Option<Cursor>, count: nat) returns (reply: Reading)
      requires Valid()
      ensures count < 1 || MAX_PAGE < count || (after.Some? && after.value.owner != owner) ==> reply == Invalid
      ensures 1 <= count <= MAX_PAGE && (after.Some? ==> after.value.owner == owner) ==>
        reply == Answer(if after.Some? then Some(after.value.position) else None, count)
      ensures 1 <= count <= MAX_PAGE && (after.Some? ==> after.value.owner == owner) && sequence < MAX_SEQUENCE ==>
        var from := if after.Some? then after.value.position else Position(trimmed, trimmedId);
        ServedRight(owner, Seen(), from, count, reply)
    {
      if count < 1 || MAX_PAGE < count {
        return Invalid;
      }
      if after.Some? && after.value.owner != owner {
        return Invalid;
      }
      reply := ReadFrom(if after.Some? then Some(after.value.position) else None, count);
      if sequence < MAX_SEQUENCE {
        AnswersRight(owner, Seen(), if after.Some? then Some(after.value.position) else None, count);
      }
    }

    // A reader passes on each cursor it is given until a page says that there is no more; a cursor that expired it
    // exchanges for the earliest. It gets everything kept after its place, once and in order.
    method ReadOut(after: Option<Cursor>, count: nat) returns (entries: seq<StreamEntry>, cursor: Cursor)
      requires Valid() && sequence < MAX_SEQUENCE && 1 <= count <= MAX_PAGE
      requires after.Some? ==> after.value.owner == owner && Givable(owner, all, after.value.position)
      ensures var from := if after.Some? && trimmed < after.value.position.sequence then after.value.position.sequence
        else trimmed;
        from <= |all| && entries == all[from..]
      ensures cursor == Cursor(owner, Position(|all|, IdAt(all, |all|)))
    {
      hide PageAfter, Givable, Chronicle;
      entries := [];
      var reply := ReadHistory(after, count);
      FirstReading(owner, Seen(), if after.Some? then Some(after.value.position) else None, count);
      if reply.Expired? {
        reply := ReadHistory(Some(reply.earliest), count);
        FirstReading(owner, Seen(), None, count);
      }
      ghost var from := if after.Some? && trimmed < after.value.position.sequence then after.value.position.sequence
        else trimmed;
      var page := reply.page;
      entries, cursor := page.entries, page.cursor;
      while page.hasMore
        invariant cursor == page.cursor && OnItsWay(owner, Seen(), from, entries, page)
        decreases |all| - cursor.position.sequence
      {
        NextReading(owner, Seen(), from, entries, page, count);
        reply := ReadHistory(Some(cursor), count);
        page := reply.page;
        entries, cursor := entries + page.entries, page.cursor;
      }
    }
  }

  // A position names its entry exactly when an entry kept has that identifier and that number.
  lemma GenuineByEntry(all: seq<StreamEntry>, trimmed: nat, p: Position)
    requires Chronicle(all) && trimmed < p.sequence <= |all|
    ensures Genuine(all, p) <==> exists n :: trimmed <= n < |all| && all[n].id == p.id && all[n].sequence == p.sequence
  {
    if Genuine(all, p) {
      assert all[p.sequence - 1].id == p.id;
    }
  }

  // ---- what reading promises ------------------------------------------------------------------------

  function PageOf(owner: Owner, all: seq<StreamEntry>, trimmed: nat, from: nat, count: nat): Page
    requires from <= |all|
  {
    var to := Min(from + count, |all|);
    Page(all[from..to], Cursor(owner, Position(to, IdAt(all, to))), from + count < |all|, 0 < trimmed)
  }

  // The right answer to a read, in terms of everything ever appended and how much of it is gone.
  ghost function PageAfter(owner: Owner, all: seq<StreamEntry>, trimmed: nat, position: Option<Position>,
                           count: nat): Reading
    requires trimmed <= |all|
  {
    var p := if position.Some? then position.value else Position(trimmed, IdAt(all, trimmed));
    if |all| < p.sequence then Invalid
    else if p.sequence < trimmed then Expired(Cursor(owner, Position(trimmed, IdAt(all, trimmed))))
    else if !Genuine(all, p) then Invalid
    else Read(PageOf(owner, all, trimmed, p.sequence, count))
  }

  // The log and its trim mark as one read found them.
  datatype Snapshot = Snapshot(all: seq<StreamEntry>, trimmed: nat)

  // Between two reads entries are appended and old ones trimmed; nothing else happens to the log.
  predicate Grows(before: Snapshot, after: Snapshot) {
    before.all <= after.all && before.trimmed <= after.trimmed <= |after.all|
  }

  lemma GrowsByNothing(s: Snapshot)
    requires s.trimmed <= |s.all|
    ensures Grows(s, s)
  {
  }

  lemma GrowsByOne(s: Snapshot, e: StreamEntry, trimmed: nat)
    requires s.trimmed <= trimmed <= |s.all| + 1
    ensures Grows(s, Snapshot(s.all + [e], trimmed))
  {
  }

  // A cursor that was genuine stays so whatever is appended.
  lemma GenuineStays(before: seq<StreamEntry>, after: seq<StreamEntry>, p: Position)
    requires before <= after && Genuine(before, p)
    ensures Genuine(after, p)
  {
  }

  // This reading of this log ends at the position, or offers it as the earliest one left.
  predicate Gives(reply: Reading, p: Position) {
    (reply.Read? && reply.page.cursor.position == p) || (reply.Expired? && reply.earliest.position == p)
  }

  // A reader could have been given this position: some read of the log, as it is or as it was after any of its appends,
  // trimmed anywhere, ends at it. Whether there was such a reader is nowhere recorded.
  ghost predicate Givable(owner: Owner, all: seq<StreamEntry>, p: Position) {
    exists s: Snapshot, q, count: nat :: GivenBy(owner, all, s, q, count, p)
  }

  ghost predicate GivenBy(owner: Owner, all: seq<StreamEntry>, s: Snapshot, q: Option<Position>, count: nat,
                          p: Position) {
    && s.all <= all && s.trimmed <= |s.all| && 0 < count
    && Gives(PageAfter(owner, s.all, s.trimmed, q, count), p)
  }

  lemma GivenIsGenuine(owner: Owner, all: seq<StreamEntry>, p: Position)
    requires Chronicle(all) && Givable(owner, all, p)
    ensures Genuine(all, p)
  {
    var s, q, count: nat :| GivenBy(owner, all, s, q, count, p);
    GenuineStays(s.all, all, p);
  }

  lemma GenuineIsGiven(owner: Owner, all: seq<StreamEntry>, p: Position)
    requires Chronicle(all) && Genuine(all, p)
    ensures Givable(owner, all, p)
  {
    var n := p.sequence;
    var s := Snapshot(all[..n], 0);
    if n == 0 {
      assert GivenBy(owner, all, s, None, 1, p);
    } else {
      var q := Position(n - 1, IdAt(all, n - 1));
      assert Genuine(s.all, q);
      assert GivenBy(owner, all, s, Some(q), 1, p);
    }
  }

  // The positions that name an entry really appended, or the beginning, are exactly those a reader could have been
  // given.
  lemma GivenExactly(owner: Owner, all: seq<StreamEntry>, p: Position)
    requires Chronicle(all)
    ensures Givable(owner, all, p) <==> Genuine(all, p)
  {
    if Givable(owner, all, p) {
      GivenIsGenuine(owner, all, p);
    }
    if Genuine(all, p) {
      GenuineIsGiven(owner, all, p);
    }
  }

  // A read from this position is a page exactly if the position could have been given and nothing after it is gone;
  // then it has the next entries in order, as many as asked for, and a cursor to go on from. It has expired exactly if
  // something after it is gone, and it is told of an earliest position that could have been given. Anything else no
  // read could have ended at.
  ghost predicate ServedRight(owner: Owner, s: Snapshot, p: Position, count: nat, reply: Reading) {
    && (reply.Read? <==> Givable(owner, s.all, p) && s.trimmed <= p.sequence)
    && (reply.Expired? <==> p.sequence < s.trimmed)
    && (reply.Invalid? <==> !Givable(owner, s.all, p) && s.trimmed <= p.sequence)
    && (reply.Read? ==> PageRight(owner, s, p, count, reply.page))
    && (reply.Expired? ==>
      Givable(owner, s.all, reply.earliest.position) && reply.earliest.position.sequence == s.trimmed)
  }

  ghost predicate PageRight(owner: Owner, s: Snapshot, p: Position, count: nat, page: Page) {
    var to := page.cursor.position.sequence;
    && p.sequence <= to <= |s.all| && page.entries == s.all[p.sequence..to] && |page.entries| <= count
    && page.cursor.owner == owner && Givable(owner, s.all, page.cursor.position)
    && (page.hasMore <==> to < |s.all|) && (page.hasMore ==> |page.entries| == count)
    && (page.truncated <==> 0 < s.trimmed)
  }

  lemma AnswersRight(owner: Owner, s: Snapshot, position: Option<Position>, count: nat)
    requires Chronicle(s.all) && s.trimmed <= |s.all| && 0 < count
    ensures var p := if position.Some? then position.value else Position(s.trimmed, IdAt(s.all, s.trimmed));
      ServedRight(owner, s, p, count, PageAfter(owner, s.all, s.trimmed, position, count))
  {
    hide Givable, Chronicle;
    var p := if position.Some? then position.value else Position(s.trimmed, IdAt(s.all, s.trimmed));
    var reply := PageAfter(owner, s.all, s.trimmed, position, count);
    GivenExactly(owner, s.all, p);
    if reply.Read? {
      GivenExactly(owner, s.all, reply.page.cursor.position);
    } else if reply.Expired? {
      GivenExactly(owner, s.all, reply.earliest.position);
    }
  }

  // A position that no read could have ended at is never served a page, however it was come by. One that names an entry
  // really appended is served even if it was guessed.
  lemma ForgedIsRefused(owner: Owner, s: Snapshot, p: Position, count: nat)
    requires Chronicle(s.all) && s.trimmed <= |s.all| && 0 < count && !Givable(owner, s.all, p)
    ensures var r := PageAfter(owner, s.all, s.trimmed, Some(p), count); r.Invalid? || r.Expired?
    ensures s.trimmed <= p.sequence ==> PageAfter(owner, s.all, s.trimmed, Some(p), count) == Invalid
  {
    AnswersRight(owner, s, Some(p), count);
  }

  // A cursor a reader may hold is never called invalid, however the log went on: it is served, or it has expired and is
  // told where to resume.
  lemma GivenIsServed(owner: Owner, before: Snapshot, s: Snapshot, p: Position, count: nat)
    requires Chronicle(s.all) && Grows(before, s) && before.trimmed <= |before.all| && 0 < count
    requires Givable(owner, before.all, p)
    ensures var r := PageAfter(owner, s.all, s.trimmed, Some(p), count);
      if p.sequence < s.trimmed
      then r.Expired? && r.earliest.position.sequence == s.trimmed && Givable(owner, s.all, r.earliest.position)
      else r.Read? && Givable(owner, s.all, r.page.cursor.position)
  {
    hide PageAfter;
    var earlier, q, n: nat :| GivenBy(owner, before.all, earlier, q, n, p);
    assert GivenBy(owner, s.all, earlier, q, n, p);
    AnswersRight(owner, s, Some(p), count);
  }

  // The earliest cursor of an expiry resumes at the oldest entry kept.
  lemma ExpiryResumes(owner: Owner, s: Snapshot, p: Position, count: nat)
    requires Chronicle(s.all) && s.trimmed < |s.all| && p.sequence < s.trimmed && 0 < count
    ensures var r := PageAfter(owner, s.all, s.trimmed, Some(p), count);
      && r.Expired?
      && var again := PageAfter(owner, s.all, s.trimmed, Some(r.earliest.position), count);
        again.Read? && again.page.entries != [] && again.page.entries[0] == s.all[s.trimmed]
  {
  }

  // ---- reading to the end --------------------------------------------------------------------------

  // The reader has everything from its place up to the cursor of its last page.
  ghost predicate OnItsWay(owner: Owner, s: Snapshot, from: nat, entries: seq<StreamEntry>, page: Page) {
    var p := page.cursor.position;
    && page.cursor.owner == owner && Genuine(s.all, p) && s.trimmed <= from <= p.sequence
    && entries == s.all[from..p.sequence] && (page.hasMore <==> p.sequence < |s.all|)
  }

  lemma FirstReading(owner: Owner, s: Snapshot, position: Option<Position>, count: nat)
    requires Chronicle(s.all) && s.trimmed <= |s.all| && 0 < count
    requires position.Some? ==> Givable(owner, s.all, position.value)
    ensures var r := PageAfter(owner, s.all, s.trimmed, position, count);
      var from := if position.Some? then position.value.sequence else s.trimmed;
      if from < s.trimmed then r == Expired(Cursor(owner, Position(s.trimmed, IdAt(s.all, s.trimmed))))
      else r.Read? && OnItsWay(owner, s, from, r.page.entries, r.page)
    ensures PageAfter(owner, s.all, s.trimmed, Some(Position(s.trimmed, IdAt(s.all, s.trimmed))), count)
      == PageAfter(owner, s.all, s.trimmed, None, count)
  {
    hide Givable, Chronicle;
    if position.Some? {
      GivenExactly(owner, s.all, position.value);
    }
  }

  lemma NextReading(owner: Owner, s: Snapshot, from: nat, entries: seq<StreamEntry>, page: Page, count: nat)
    requires Chronicle(s.all) && s.trimmed <= |s.all| && 0 < count && OnItsWay(owner, s, from, entries, page)
    requires page.hasMore
    ensures var r := PageAfter(owner, s.all, s.trimmed, Some(page.cursor.position), count);
      && r.Read? && OnItsWay(owner, s, from, entries + r.page.entries, r.page)
      && page.cursor.position.sequence < r.page.cursor.position.sequence
  {
  }

  // A reader follows the cursors it is given, while others append and trim between its reads.
  ghost predicate Follows(owner: Owner, snapshots: seq<Snapshot>, pages: seq<Page>, start: Position, count: nat) {
    && |snapshots| == |pages|
    && (forall i :: 0 <= i < |snapshots| ==> Chronicle(snapshots[i].all) && snapshots[i].trimmed <= |snapshots[i].all|)
    && (forall i, j :: 0 <= i < j < |snapshots| ==> Grows(snapshots[i], snapshots[j]))
    && (forall i :: 0 <= i < |pages| ==>
          PageAfter(owner, snapshots[i].all, snapshots[i].trimmed, Some(Before(pages, start, i)), count)
            == Read(pages[i]))
  }

  // Where the reader stands before its i-th read.
  function Before(pages: seq<Page>, start: Position, i: nat): Position
    requires i <= |pages|
  {
    if i == 0 then start else pages[i - 1].cursor.position
  }

  function Gathered(pages: seq<Page>): seq<StreamEntry> {
    if pages == [] then [] else Gathered(pages[..|pages| - 1]) + pages[|pages| - 1].entries
  }

  lemma FrontFollows(owner: Owner, snapshots: seq<Snapshot>, pages: seq<Page>, start: Position, count: nat)
    requires Follows(owner, snapshots, pages, start, count) && 1 < |pages|
    ensures var n := |pages| - 1; Follows(owner, snapshots[..n], pages[..n], start, count)
  {
    var n := |pages| - 1;
    forall i | 0 <= i < n
      ensures PageAfter(owner, snapshots[..n][i].all, snapshots[..n][i].trimmed, Some(Before(pages[..n], start, i)),
                        count) == Read(pages[..n][i])
    {
      assert Before(pages[..n], start, i) == Before(pages, start, i);
    }
  }

  // One page served from a genuine position: what is between it and the page's cursor, both in the log as it then was.
  lemma PageServes(owner: Owner, s: Snapshot, p: Position, count: nat, page: Page)
    requires Chronicle(s.all) && s.trimmed <= |s.all| && Genuine(s.all, p)
    requires PageAfter(owner, s.all, s.trimmed, Some(p), count) == Read(page)
    ensures Genuine(s.all, page.cursor.position) && p.sequence <= page.cursor.position.sequence
    ensures page.entries == s.all[p.sequence..page.cursor.position.sequence]
  {
  }

  lemma Joined(before: seq<StreamEntry>, after: seq<StreamEntry>, a: nat, b: nat, c: nat)
    requires before <= after && a <= b <= |before| && b <= c <= |after|
    ensures before[a..b] + after[b..c] == after[a..c]
  {
  }

  // What the reader has after its last read, given what it had before it.
  ghost predicate Caught(snapshots: seq<Snapshot>, pages: seq<Page>, start: Position)
    requires pages != [] && |snapshots| == |pages|
  {
    var all, end := snapshots[|snapshots| - 1].all, pages[|pages| - 1].cursor.position;
    Genuine(all, end) && start.sequence <= end.sequence && Gathered(pages) == all[start.sequence..end.sequence]
  }

  lemma CatchesFirst(owner: Owner, snapshots: seq<Snapshot>, pages: seq<Page>, start: Position, count: nat)
    requires Follows(owner, snapshots, pages, start, count) && |pages| == 1 && Genuine(snapshots[0].all, start)
    ensures Caught(snapshots, pages, start)
  {
    hide PageAfter, Chronicle;
    assert Before(pages, start, 0) == start && Gathered(pages[..0]) == [];
    PageServes(owner, snapshots[0], start, count, pages[0]);
  }

  lemma CatchesNext(owner: Owner, snapshots: seq<Snapshot>, pages: seq<Page>, start: Position, count: nat)
    requires Follows(owner, snapshots, pages, start, count) && 1 < |pages|
    requires Caught(snapshots[..|pages| - 1], pages[..|pages| - 1], start)
    ensures Caught(snapshots, pages, start)
  {
    hide PageAfter, Chronicle;
    var n := |pages| - 1;
    var last, before, middle := snapshots[n], snapshots[n - 1].all, pages[n - 1].cursor.position;
    assert Before(pages, start, n) == middle && Grows(snapshots[n - 1], last);
    GenuineStays(before, last.all, middle);
    PageServes(owner, last, middle, count, pages[n]);
    Joined(before, last.all, start.sequence, middle.sequence, pages[n].cursor.position.sequence);
  }

  // Following cursors yields every entry after the start once and in order, whatever is appended or trimmed meanwhile:
  // nothing is skipped, nothing is repeated, and a read that would skip something is an expiry instead of a page.
  lemma {:induction false} CursorsMissNothing(owner: Owner, snapshots: seq<Snapshot>, pages: seq<Page>,
                                              start: Position, count: nat)
    requires Follows(owner, snapshots, pages, start, count) && pages != [] && Genuine(snapshots[0].all, start)
    ensures var all := snapshots[|snapshots| - 1].all; var end := pages[|pages| - 1].cursor.position;
      && Genuine(all, end) && start.sequence <= end.sequence
      && Gathered(pages) == all[start.sequence..end.sequence]
    decreases |pages|
  {
    if |pages| == 1 {
      CatchesFirst(owner, snapshots, pages, start, count);
    } else {
      var n := |pages| - 1;
      FrontFollows(owner, snapshots, pages, start, count);
      CursorsMissNothing(owner, snapshots[..n], pages[..n], start, count);
      CatchesNext(owner, snapshots, pages, start, count);
    }
  }
}
