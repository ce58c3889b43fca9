/**
 The reaper's pass over the expired holds: pages in key order, each released in its own
 transaction, while other steps come between reading and releasing.
 */
module ReaperLoop {
  import opened Base
  import opened Slots
  import opened Inventory
  import opened InventoryInvariant
  import opened InventorySound

  // ---------------------------------------------------------------------- keyset pages

  datatype Cursor = Cursor(expiresAt: Time, id: Id)

  function KeyOf(s: Slot): Cursor
    requires s.holdExpiresAt.Some?
  {
    Cursor(s.holdExpiresAt.value, s.id)
  }

  predicate Before(a: Cursor, b: Cursor) {
    a.expiresAt < b.expiresAt || (a.expiresAt == b.expiresAt && a.id < b.id)
  }

  /** `expiredHoldFilter`. */
  predicate Listed(s: Slot, now: Time, cursor: Option<Cursor>) {
    ExpiredHold(s, now) && (cursor == None || Before(cursor.value, KeyOf(s)))
  }

  predicate Ascending(page: seq<Slot>) {
    && (forall k :: 0 <= k < |page| ==> page[k].holdExpiresAt.Some?)
    && (forall i, j :: 0 <= i < j < |page| ==> Before(KeyOf(page[i]), KeyOf(page[j])))
  }

  /** The first `n` rows of the filter after the cursor, in key order. */
  predicate IsPage(page: seq<Slot>, slots: Table, now: Time, cursor: Option<Cursor>, n: nat) {
    && |page| <= n && Ascending(page)
    && (forall k :: 0 <= k < |page| ==>
          page[k].id in slots && slots[page[k].id] == page[k] && Listed(page[k], now, cursor))
    && (forall id :: id in slots && Listed(slots[id], now, cursor) && slots[id] !in page ==>
          |page| == n && (n > 0 ==> Before(KeyOf(page[n - 1]), KeyOf(slots[id]))))
  }

  /** The least row of the filter after the cursor. */
  method LeastAfter(slots: Table, now: Time, cursor: Option<Cursor>) returns (least: Option<Slot>)
    requires Keyed(slots)
    ensures least.Some? ==> least.value.id in slots && slots[least.value.id] == least.value && Listed(least.value, now, cursor)
    ensures least.Some? ==> forall id :: id in slots && Listed(slots[id], now, cursor) && slots[id] != least.value ==>
              Before(KeyOf(least.value), KeyOf(slots[id]))
    ensures least == None ==> forall id :: id in slots ==> !Listed(slots[id], now, cursor)
  {
    least := None;
    var ids := slots.Keys;
    while ids != {}
      invariant ids <= slots.Keys
      invariant least.Some? ==> least.value.id in slots && slots[least.value.id] == least.value && Listed(least.value, now, cursor)
      invariant least.Some? ==> forall id :: id in slots && id !in ids && Listed(slots[id], now, cursor) && slots[id] != least.value ==>
                  Before(KeyOf(least.value), KeyOf(slots[id]))
      invariant least == None ==> forall id :: id in slots && id !in ids ==> !Listed(slots[id], now, cursor)
      decreases ids
    {
      var id :| id in ids;
      ids := ids - {id};
      if Listed(slots[id], now, cursor) && (least == None || Before(KeyOf(slots[id]), KeyOf(least.value))) {
        least := Some(slots[id]);
      }
    }
  }

  method ReadPage(slots: Table, now: Time, cursor: Option<Cursor>, n: nat) returns (page: seq<Slot>)
    requires Keyed(slots)
    ensures IsPage(page, slots, now, cursor, n)
  {
    page := [];
    var at := cursor;
    while |page| < n
      invariant |page| <= n && Ascending(page)
      invariant forall k :: 0 <= k < |page| ==>
                  page[k].id in slots && slots[page[k].id] == page[k] && Listed(page[k], now, cursor)
      invariant at == if page == [] then cursor else Some(KeyOf(page[|page| - 1]))
      invariant forall id :: id in slots && Listed(slots[id], now, cursor) && slots[id] !in page ==> Listed(slots[id], now, at)
    {
      var least := LeastAfter(slots, now, at);
      if least == None {
        return;
      }
      page := page + [least.value];
      at := Some(KeyOf(least.value));
    }
  }

  // ------------------------------------------------------------------- releasing a page

  /** How many candidates of a batch end in an outcome. */
  function Tally(slots: Table, candidates: seq<Slot>, outcome: Outcome): nat {
    if candidates == [] then 0
    else
      var n := |candidates| - 1;
      Tally(slots, candidates[..n], outcome)
      + if OutcomeOf(ReleaseAll(slots, candidates[..n]), candidates[n]) == outcome then 1 else 0
  }

  method ReleaseBatch(slots: Table, candidates: seq<Slot>) returns (after: Table, fixed: nat, open: nat)
    ensures after == ReleaseAll(slots, candidates)
    ensures fixed == Tally(slots, candidates, FixedReleased) && open == Tally(slots, candidates, OpenDeleted)
  {
    after, fixed, open := slots, 0, 0;
    for k := 0 to |candidates|
      invariant after == ReleaseAll(slots, candidates[..k])
      invariant fixed == Tally(slots, candidates[..k], FixedReleased) && open == Tally(slots, candidates[..k], OpenDeleted)
    {
      assert candidates[..k + 1][..k] == candidates[..k];
      var outcome := OutcomeOf(after, candidates[k]);
      after := ReleaseExpired(after, candidates[k]);
      if outcome == FixedReleased { fixed := fixed + 1; }
      if outcome == OpenDeleted { open := open + 1; }
    }
    assert candidates[..|candidates|] == candidates;
  }

  // ----------------------------------------------------------------------- other steps

  /** What others commit before a page is read and between its reading and its release. */
  datatype Meanwhile = Meanwhile(beforeRead: seq<Step>, beforeRelease: seq<Step>)

  /** A step that cannot happen here does not happen. */
  function Follow(s: State, steps: seq<Step>): State {
    if steps == [] then s
    else
      var before := Follow(s, steps[..|steps| - 1]);
      var step := steps[|steps| - 1];
      if Possible(before, step) then After(before, step) else before
  }

  lemma FollowStep(s: State, step: Step)
    requires Sound(s)
    ensures var t := if Possible(s, step) then After(s, step) else s;
            Sound(t) && s.clock <= t.clock && s.readings <= t.readings
  {
    if Possible(s, step) {
      StepKeepsSound(s, step);
    }
  }

  lemma {:induction false} FollowKeeps(s: State, steps: seq<Step>)
    requires Sound(s)
    ensures Sound(Follow(s, steps)) && s.clock <= Follow(s, steps).clock && s.readings <= Follow(s, steps).readings
  {
    if steps != [] {
      FollowKeeps(s, steps[..|steps| - 1]);
      FollowStep(Follow(s, steps[..|steps| - 1]), steps[|steps| - 1]);
    }
  }

  /** The state in which a batch's transaction finds the rows it read. */
  function AtRelease(s: State, page: seq<Slot>, now: Time, m: Meanwhile): State {
    Follow(s.(readings := s.readings + {Reading(now, page)}), m.beforeRelease)
  }

  lemma ReadPossible(s: State, page: seq<Slot>, now: Time, cursor: Option<Cursor>, n: nat)
    requires IsPage(page, s.slots, now, cursor, n) && now <= s.clock
    ensures Possible(s, SRead(Reading(now, page)))
  {
  }

  /** One batch keeps the rows sound, whatever happens between its reading and its release. */
  lemma BatchKeeps(s: State, page: seq<Slot>, now: Time, m: Meanwhile, cursor: Option<Cursor>, n: nat)
    requires Sound(s) && IsPage(page, s.slots, now, cursor, n) && now <= s.clock
    ensures var at := AtRelease(s, page, now, m);
            Sound(at) && s.clock <= at.clock && Reading(now, page) in at.readings && DistinctSlots(page)
            && Sound(at.(slots := ReleaseAll(at.slots, page)))
  {
    ReadPossible(s, page, now, cursor, n);
    var read := s.(readings := s.readings + {Reading(now, page)});
    StepKeepsSound(s, SRead(Reading(now, page)));
    FollowKeeps(read, m.beforeRelease);
    var at := AtRelease(s, page, now, m);
    ReapKeepsSound(at, Reading(now, page), |page|);
    assert page[..|page|] == page;
  }

  // ------------------------------------------------------------- what a batch releases

  predicate StillAsRead(slots: Table, c: Slot) {
    c.id in slots && slots[c.id] == c
  }

  /** How many rows of a kind are still as they were read. */
  function Still(slots: Table, candidates: seq<Slot>, slotType: SlotType): nat {
    if candidates == [] then 0
    else
      var n := |candidates| - 1;
      Still(slots, candidates[..n], slotType) + if candidates[n].slotType == slotType && StillAsRead(slots, candidates[n]) then 1 else 0
  }

  /** Releasing one row makes no other held row what it was not, and takes none from what it was. */
  lemma OthersStill(slots: Table, c: Slot, other: Slot)
    requires c.id != other.id && Shape(other) && other.status == Held
    ensures StillAsRead(ReleaseExpired(slots, c), other) <==> StillAsRead(slots, other)
  {
  }

  lemma {:induction false} LaterStill(slots: Table, candidates: seq<Slot>, n: nat, k: nat)
    requires n <= k < |candidates| && DistinctSlots(candidates) && Shape(candidates[k]) && candidates[k].status == Held
    ensures StillAsRead(ReleaseAll(slots, candidates[..n]), candidates[k]) <==> StillAsRead(slots, candidates[k])
  {
    if n > 0 {
      LaterStill(slots, candidates, n - 1, k);
      assert candidates[..n][..n - 1] == candidates[..n - 1];
      OthersStill(ReleaseAll(slots, candidates[..n - 1]), candidates[n - 1], candidates[k]);
    }
  }

  /** The counters of a batch are the rows of each kind that nobody touched since they were read. */
  lemma {:induction false} TallyIsStill(s: State, r: Reading, n: nat)
    requires Sound(s) && r in s.readings && n <= |r.candidates| && DistinctSlots(r.candidates)
    ensures Tally(s.slots, r.candidates[..n], FixedReleased) == Still(s.slots, r.candidates[..n], FixedSlot)
    ensures Tally(s.slots, r.candidates[..n], OpenDeleted) == Still(s.slots, r.candidates[..n], OpenTime)
  {
    if n > 0 {
      var c := r.candidates[n - 1];
      TallyIsStill(s, r, n - 1);
      ReapKeepsSound(s, r, n - 1);
      assert r.candidates[..n][..n - 1] == r.candidates[..n - 1];
      var before := ReleaseAll(s.slots, r.candidates[..n - 1]);
      assert ReadingSound(r, before, s.clock, s.nextId);
      ReleaseIsSound(before, c, s.clock, s.nextId);
      LaterStill(s.slots, r.candidates, n - 1, n - 1);
    }
  }

  /** What a released row becomes: an open-time one is gone, a fixed one is open again with nothing of its hold left. */
  predicate Released(after: Table, c: Slot) {
    if c.slotType == OpenTime then c.id !in after
    else
      c.id in after
      && after[c.id] == c.(status := Available, holdId := None, holdPartner := None, holdExpiresAt := None, booking := None, version := c.version + 1)
  }

  lemma {:induction false} BatchReleases(s: State, r: Reading, n: nat, k: nat)
    requires Sound(s) && r in s.readings && k < n <= |r.candidates| && DistinctSlots(r.candidates)
    requires StillAsRead(s.slots, r.candidates[k])
    ensures Released(ReleaseAll(s.slots, r.candidates[..n]), r.candidates[k])
  {
    assert r.candidates[..n][..n - 1] == r.candidates[..n - 1];
    ReapKeepsSound(s, r, n - 1);
    var before, c := ReleaseAll(s.slots, r.candidates[..n - 1]), r.candidates[n - 1];
    assert ReadingSound(r, before, s.clock, s.nextId);
    assert ReadingSound(r, s.slots, s.clock, s.nextId);
    ReleaseIsSound(before, c, s.clock, s.nextId);
    if k == n - 1 {
      LaterStill(s.slots, r.candidates, n - 1, k);
    } else {
      BatchReleases(s, r, n - 1, k);
    }
  }

  /** The row is on the page, or was consumed by a row of it. */
  predicate Concerned(slots: Table, candidates: seq<Slot>, id: Id)
    requires id in slots
  {
    exists k :: 0 <= k < |candidates| && (candidates[k].id == id || slots[id].consumedBy == Some(candidates[k].id))
  }

  /** A batch leaves every row it does not concern as it was, whatever the state. */
  lemma {:induction false} BatchLeavesOthers(slots: Table, candidates: seq<Slot>, id: Id)
    requires id in slots && !Concerned(slots, candidates, id)
    ensures id in ReleaseAll(slots, candidates) && ReleaseAll(slots, candidates)[id] == slots[id]
  {
    if candidates != [] {
      var n := |candidates| - 1;
      assert !Concerned(slots, candidates[..n], id) by {
        assert forall k :: 0 <= k < n ==> candidates[..n][k] == candidates[k];
      }
      BatchLeavesOthers(slots, candidates[..n], id);
      assert candidates[n].id != id && slots[id].consumedBy != Some(candidates[n].id);
    }
  }

  // ------------------------------------------------------------------ the log of a pass

  /** A batch: the state its page was read in, the page, and the state its transaction found. */
  datatype Batch = Batch(read: State, page: seq<Slot>, at: State)

  function Result(b: Batch): State {
    b.at.(slots := ReleaseAll(b.at.slots, b.page))
  }

  function MeanwhileAt(others: seq<Meanwhile>, k: nat): Meanwhile {
    if k < |others| then others[k] else Meanwhile([], [])
  }

  function Pages(log: seq<Batch>): seq<Slot> {
    if log == [] then [] else Pages(log[..|log| - 1]) + log[|log| - 1].page
  }

  function Reached(start: State, log: seq<Batch>): State {
    if log == [] then start else Result(log[|log| - 1])
  }

  function CursorAfter(visited: seq<Slot>): Option<Cursor> {
    if visited == [] || visited[|visited| - 1].holdExpiresAt == None then None else Some(KeyOf(visited[|visited| - 1]))
  }

  /** How a batch follows from what was visited before it and what others did meanwhile. */
  predicate BatchOf(before: State, visited: seq<Slot>, b: Batch, m: Meanwhile, now: Time, n: nat) {
    && b.read == Follow(before, m.beforeRead)
    && IsPage(b.page, b.read.slots, now, CursorAfter(visited), n)
    && b.at == AtRelease(b.read, b.page, now, m)
  }

  /** The batches of one pass: each starts where the one before it ended, and all but the last are full. */
  predicate Logged(start: State, log: seq<Batch>, others: seq<Meanwhile>, now: Time, n: nat) {
    forall k :: 0 <= k < |log| ==> Follows(start, log, k, others, now, n)
  }

  predicate Follows(start: State, log: seq<Batch>, k: nat, others: seq<Meanwhile>, now: Time, n: nat)
    requires k < |log|
  {
    && BatchOf(Reached(start, log[..k]), Pages(log[..k]), log[k], MeanwhileAt(others, k), now, n)
    && log[k].page != [] && (k > 0 ==> |log[k - 1].page| == n)
  }

  lemma LastFollows(start: State, log: seq<Batch>, others: seq<Meanwhile>, now: Time, n: nat)
    requires Logged(start, log, others, now, n) && log != []
    ensures var init, b := log[..|log| - 1], log[|log| - 1];
            Logged(start, init, others, now, n) && Follows(start, log, |init|, others, now, n)
  {
    var init := log[..|log| - 1];
    forall k | 0 <= k < |init|
      ensures Follows(start, init, k, others, now, n)
    {
      assert init[..k] == log[..k];
      assert Follows(start, log, k, others, now, n);
    }
  }

  /** The rows of a kind that the batches of a pass found as they had read them. */
  function Counted(log: seq<Batch>, slotType: SlotType): nat {
    if log == [] then 0 else Counted(log[..|log| - 1], slotType) + Still(log[|log| - 1].at.slots, log[|log| - 1].page, slotType)
  }

  // --------------------------------------------------------- a pass nobody interrupts

  function OfType(candidates: seq<Slot>, slotType: SlotType): nat {
    if candidates == [] then 0
    else OfType(candidates[..|candidates| - 1], slotType) + if candidates[|candidates| - 1].slotType == slotType then 1 else 0
  }

  lemma {:induction false} OfTypeAppend(a: seq<Slot>, b: seq<Slot>, slotType: SlotType)
    ensures OfType(a + b, slotType) == OfType(a, slotType) + OfType(b, slotType)
  {
    if b == [] {
      assert a + b == a;
    } else {
      assert (a + b)[..|a + b| - 1] == a + b[..|b| - 1];
      OfTypeAppend(a, b[..|b| - 1], slotType);
    }
  }

  lemma {:induction false} AllStill(slots: Table, candidates: seq<Slot>, slotType: SlotType)
    requires forall k :: 0 <= k < |candidates| ==> StillAsRead(slots, candidates[k])
    ensures Still(slots, candidates, slotType) == OfType(candidates, slotType)
  {
    if candidates != [] {
      AllStill(slots, candidates[..|candidates| - 1], slotType);
    }
  }

  lemma {:induction false} ReleaseAppend(slots: Table, a: seq<Slot>, b: seq<Slot>)
    ensures ReleaseAll(slots, a + b) == ReleaseAll(ReleaseAll(slots, a), b)
  {
    if b == [] {
      assert a + b == a;
    } else {
      assert (a + b)[..|a + b| - 1] == a + b[..|b| - 1];
      ReleaseAppend(slots, a, b[..|b| - 1]);
    }
  }

  /** The holds of a batch after `n` of its candidates, when nobody came between. */
  predicate BatchAt(slots: Table, after: Table, page: seq<Slot>, n: nat)
    requires n <= |page|
  {
    && (forall id :: id in slots && slots[id].status == Held && slots[id] !in page[..n] ==> id in after && after[id] == slots[id])
    && (forall id :: id in after && after[id].status == Held ==> id in slots && slots[id] == after[id] && slots[id] !in page[..n])
  }

  /** Releasing a row leaves every other hold alone. */
  lemma ReleaseLeavesHolds(slots: Table, c: Slot, now: Time, next: Id)
    requires TableOk(slots, next) && CandidateRead(c, slots, now, next) && StillAsRead(slots, c)
    ensures var after := ReleaseExpired(slots, c);
            && (forall id :: id in slots && id != c.id && slots[id].status == Held ==> id in after && after[id] == slots[id])
            && (forall id :: id in after && after[id].status == Held ==> id in slots && id != c.id && slots[id] == after[id])
  {
  }

  lemma BatchNext(slots: Table, before: Table, after: Table, page: seq<Slot>, n: nat)
    requires n < |page| && BatchAt(slots, before, page, n) && page[n].id in slots && slots[page[n].id] == page[n]
    requires forall id :: id in slots ==> slots[id].id == id
    requires forall id :: id in before && id != page[n].id && before[id].status == Held ==> id in after && after[id] == before[id]
    requires forall id :: id in after && after[id].status == Held ==> id in before && id != page[n].id && before[id] == after[id]
    ensures BatchAt(slots, after, page, n + 1)
  {
  }

  lemma QuietCandidate(s: State, r: Reading, n: nat)
    requires Sound(s) && r in s.readings && n < |r.candidates| && DistinctSlots(r.candidates)
    requires StillAsRead(s.slots, r.candidates[n])
    requires BatchAt(s.slots, ReleaseAll(s.slots, r.candidates[..n]), r.candidates, n)
    ensures BatchAt(s.slots, ReleaseExpired(ReleaseAll(s.slots, r.candidates[..n]), r.candidates[n]), r.candidates, n + 1)
  {
    var c, before := r.candidates[n], ReleaseAll(s.slots, r.candidates[..n]);
    ReapKeepsSound(s, r, n);
    assert ReadingSound(r, before, s.clock, s.nextId);
    assert ReadingSound(r, s.slots, s.clock, s.nextId);
    LaterStill(s.slots, r.candidates, n, n);
    ReleaseLeavesHolds(before, c, s.clock, s.nextId);
    BatchNext(s.slots, before, ReleaseExpired(before, c), r.candidates, n);
  }

  lemma {:induction false} QuietBatch(s: State, r: Reading, n: nat)
    requires Sound(s) && r in s.readings && n <= |r.candidates| && DistinctSlots(r.candidates)
    requires forall k :: 0 <= k < |r.candidates| ==> StillAsRead(s.slots, r.candidates[k])
    ensures BatchAt(s.slots, ReleaseAll(s.slots, r.candidates[..n]), r.candidates, n)
  {
    if n > 0 {
      QuietBatch(s, r, n - 1);
      QuietCandidate(s, r, n - 1);
      assert r.candidates[..n][..n - 1] == r.candidates[..n - 1];
    }
  }

  /** The rows a pass has still to release are as they were, and are exactly those not visited. */
  predicate Remaining(start: Table, slots: Table, now: Time, visited: seq<Slot>) {
    && (forall id :: id in slots && ExpiredHold(slots[id], now) ==> id in start && start[id] == slots[id] && slots[id] !in visited)
    && (forall id :: id in start && ExpiredHold(start[id], now) && start[id] !in visited ==> id in slots && slots[id] == start[id])
  }

  /** Every hold still to release comes after the cursor. */
  predicate Swept(slots: Table, now: Time, cursor: Option<Cursor>) {
    forall id :: id in slots && ExpiredHold(slots[id], now) ==> Listed(slots[id], now, cursor)
  }

  lemma QuietPage(start: Table, before: Table, after: Table, now: Time, page: seq<Slot>, visited: seq<Slot>,
                  cursor: Option<Cursor>, n: nat)
    requires Remaining(start, before, now, visited) && Swept(before, now, cursor)
    requires IsPage(page, before, now, cursor, n) && BatchAt(before, after, page, |page|) && page != []
    ensures Remaining(start, after, now, visited + page)
    ensures Swept(after, now, CursorAfter(visited + page))
    ensures |page| < n ==> forall id :: id in after ==> !ExpiredHold(after[id], now)
  {
  }

  lemma AscendingAppend(visited: seq<Slot>, page: seq<Slot>, now: Time)
    requires Ascending(visited) && Ascending(page) && forall k :: 0 <= k < |page| ==> Listed(page[k], now, CursorAfter(visited))
    ensures Ascending(visited + page)
  {
  }

  /** The hold of `a` ends before that of `b`, or at the same time with the smaller identifier. */
  predicate KeyLess(a: Slot, b: Slot) {
    a.holdExpiresAt.Some? && b.holdExpiresAt.Some?
    && (a.holdExpiresAt.value < b.holdExpiresAt.value || (a.holdExpiresAt.value == b.holdExpiresAt.value && a.id < b.id))
  }

  /** What is left comes after all of what was visited. */
  predicate AllLess(visited: seq<Slot>, slots: Table, now: Time) {
    forall id, k :: id in slots && ExpiredHold(slots[id], now) && 0 <= k < |visited| ==> KeyLess(visited[k], slots[id])
  }

  /** The first expired holds of the start, in order, are released, and nothing else has happened. */
  predicate QuietPass(start: Table, slots: Table, now: Time, visited: seq<Slot>) {
    && slots == ReleaseAll(start, visited) && Remaining(start, slots, now, visited)
    && Ascending(visited) && AllLess(visited, slots, now) && Swept(slots, now, CursorAfter(visited))
    && forall k :: 0 <= k < |visited| ==> StillAsRead(start, visited[k]) && ExpiredHold(visited[k], now)
  }

  /** The rows of the next page are rows of the start. */
  lemma PageFromStart(start: Table, before: Table, now: Time, page: seq<Slot>, visited: seq<Slot>,
                      cursor: Option<Cursor>, n: nat)
    requires Remaining(start, before, now, visited) && IsPage(page, before, now, cursor, n)
    ensures forall k :: 0 <= k < |page| ==> StillAsRead(before, page[k]) && StillAsRead(start, page[k]) && ExpiredHold(page[k], now)
  {
    forall k | 0 <= k < |page|
      ensures StillAsRead(before, page[k]) && StillAsRead(start, page[k]) && ExpiredHold(page[k], now)
    {
      assert before[page[k].id] == page[k];
    }
  }

  lemma SweptLess(visited: seq<Slot>, slots: Table, now: Time)
    requires Ascending(visited) && Swept(slots, now, CursorAfter(visited))
    ensures AllLess(visited, slots, now)
  {
  }

  lemma PassGrows(start: Table, before: Table, now: Time, page: seq<Slot>, visited: seq<Slot>, n: nat)
    requires QuietPass(start, before, now, visited) && page != []
    requires IsPage(page, before, now, CursorAfter(visited), n) && BatchAt(before, ReleaseAll(before, page), page, |page|)
    ensures QuietPass(start, ReleaseAll(before, page), now, visited + page)
    ensures |page| < n ==> forall id :: id in ReleaseAll(before, page) ==> !ExpiredHold(ReleaseAll(before, page)[id], now)
  {
    QuietPage(start, before, ReleaseAll(before, page), now, page, visited, CursorAfter(visited), n);
    ReleaseAppend(start, visited, page);
    PageFromStart(start, before, now, page, visited, CursorAfter(visited), n);
    AscendingAppend(visited, page, now);
    SweptLess(visited + page, ReleaseAll(before, page), now);
  }

  lemma QuietBatchOf(before: State, visited: seq<Slot>, b: Batch, now: Time, n: nat)
    requires Sound(before) && now <= before.clock && BatchOf(before, visited, b, Meanwhile([], []), now, n)
    ensures b.read == before && b.at.slots == before.slots
    ensures Sound(Result(b)) && now <= Result(b).clock && BatchAt(before.slots, ReleaseAll(before.slots, b.page), b.page, |b.page|)
  {
    BatchKeeps(b.read, b.page, now, Meanwhile([], []), CursorAfter(visited), n);
    QuietBatch(b.at, Reading(now, b.page), |b.page|);
    assert b.page[..|b.page|] == b.page;
  }

  /** After the batches of a pass nobody interrupted. */
  lemma {:induction false} QuietLog(start: State, log: seq<Batch>, now: Time, n: nat)
    requires Sound(start) && now <= start.clock && Logged(start, log, [], now, n)
    ensures Sound(Reached(start, log)) && now <= Reached(start, log).clock
    ensures QuietPass(start.slots, Reached(start, log).slots, now, Pages(log))
  {
    if log != [] {
      var init := log[..|log| - 1];
      LastFollows(start, log, [], now, n);
      QuietLog(start, init, now, n);
      QuietNext(start, init, log[|log| - 1], now, n);
    }
  }

  lemma QuietNext(start: State, log: seq<Batch>, b: Batch, now: Time, n: nat)
    requires Sound(Reached(start, log)) && now <= Reached(start, log).clock && b.page != []
    requires QuietPass(start.slots, Reached(start, log).slots, now, Pages(log))
    requires BatchOf(Reached(start, log), Pages(log), b, Meanwhile([], []), now, n)
    ensures Sound(Result(b)) && now <= Result(b).clock
    ensures QuietPass(start.slots, Result(b).slots, now, Pages(log) + b.page)
    ensures |b.page| < n ==> forall id :: id in Result(b).slots ==> !ExpiredHold(Result(b).slots[id], now)
  {
    var before := Reached(start, log);
    QuietBatchOf(before, Pages(log), b, now, n);
    PassGrows(start.slots, before.slots, now, b.page, Pages(log), n);
  }

  /** A quiet pass that ends with a short page has left nothing. */
  lemma ShortLeavesNothing(start: State, log: seq<Batch>, now: Time, n: nat)
    requires Sound(start) && now <= start.clock && Logged(start, log, [], now, n) && EndsShort(log, n)
    ensures forall id :: id in Reached(start, log).slots ==> !ExpiredHold(Reached(start, log).slots[id], now)
  {
    var init := log[..|log| - 1];
    LastFollows(start, log, [], now, n);
    QuietLog(start, init, now, n);
    QuietNext(start, init, log[|log| - 1], now, n);
  }

  /** Every row a quiet pass read, it released. */
  lemma {:induction false} QuietCounts(start: State, log: seq<Batch>, now: Time, n: nat, slotType: SlotType)
    requires Sound(start) && now <= start.clock && Logged(start, log, [], now, n)
    ensures Counted(log, slotType) == OfType(Pages(log), slotType)
  {
    if log != [] {
      var init, b := log[..|log| - 1], log[|log| - 1];
      LastFollows(start, log, [], now, n);
      QuietCounts(start, init, now, n, slotType);
      QuietLog(start, init, now, n);
      QuietBatchOf(Reached(start, init), Pages(init), b, now, n);
      CountsGrow(b.at.slots, b.page, Pages(init), slotType);
    }
  }

  lemma CountsGrow(before: Table, page: seq<Slot>, visited: seq<Slot>, slotType: SlotType)
    requires forall k :: 0 <= k < |page| ==> StillAsRead(before, page[k])
    ensures OfType(visited + page, slotType) == OfType(visited, slotType) + Still(before, page, slotType)
  {
    AllStill(before, page, slotType);
    OfTypeAppend(visited, page, slotType);
  }

  // ------------------------------------------------------------------------- the pass

  datatype Totals = Totals(fixedReleased: nat, openReleased: nat, batches: nat, scanned: nat, exhausted: bool)

  /** The last page of the pass was not full. */
  predicate EndsShort(log: seq<Batch>, n: nat) {
    log != [] && |log[|log| - 1].page| < n
  }

  /** Where a pass ends: after its last batch, or, when the next page was empty, where it read that page. */
  predicate EndsAt(start: State, log: seq<Batch>, others: seq<Meanwhile>, now: Time, n: nat, maxBatches: nat,
                   after: State) {
    if |log| == maxBatches || EndsShort(log, n) then after == Reached(start, log)
    else
      after == Follow(Reached(start, log), MeanwhileAt(others, |log|).beforeRead)
      && forall id :: id in after.slots ==> !Listed(after.slots[id], now, CursorAfter(Pages(log)))
  }

  /** What the totals of a pass are: of each kind, how many of the rows read were released. */
  function TotalsOf(log: seq<Batch>, n: nat, maxBatches: nat): Totals {
    Totals(Counted(log, FixedSlot), Counted(log, OpenTime), |log|, |Pages(log)|, |log| == maxBatches > 0 && !EndsShort(log, n))
  }

  lemma LogGrows(start: State, log: seq<Batch>, b: Batch, others: seq<Meanwhile>, now: Time, n: nat)
    requires Logged(start, log, others, now, n) && !EndsShort(log, n) && b.page != []
    requires BatchOf(Reached(start, log), Pages(log), b, MeanwhileAt(others, |log|), now, n)
    ensures Logged(start, log + [b], others, now, n)
  {
    var more := log + [b];
    forall k | 0 <= k < |more|
      ensures Follows(start, more, k, others, now, n)
    {
      assert more[..k] == log[..k];
      if k < |log| {
        assert Follows(start, log, k, others, now, n);
      } else {
        assert log[..k] == log;
        if k > 0 { assert Follows(start, log, k - 1, others, now, n); }
      }
    }
  }

  lemma PagesGrow(log: seq<Batch>, b: Batch)
    ensures Pages(log + [b]) == Pages(log) + b.page
    ensures Counted(log + [b], FixedSlot) == Counted(log, FixedSlot) + Still(b.at.slots, b.page, FixedSlot)
    ensures Counted(log + [b], OpenTime) == Counted(log, OpenTime) + Still(b.at.slots, b.page, OpenTime)
  {
    assert (log + [b])[..|log|] == log;
  }

  lemma TotalsGrow(log: seq<Batch>, b: Batch, n: nat, maxBatches: nat)
    requires b.page != []
    ensures var before, after := TotalsOf(log, n, maxBatches), TotalsOf(log + [b], n, maxBatches);
            && after.fixedReleased == before.fixedReleased + Still(b.at.slots, b.page, FixedSlot)
            && after.openReleased == before.openReleased + Still(b.at.slots, b.page, OpenTime)
            && after.batches == before.batches + 1 && after.scanned == before.scanned + |b.page|
            && (after.exhausted <==> |log| + 1 == maxBatches && |b.page| >= n)
  {
    PagesGrow(log, b);
  }

  lemma EndGrows(log: seq<Batch>, b: Batch, n: nat)
    requires b.page != []
    ensures CursorAfter(Pages(log + [b])) == CursorAfter(b.page)
    ensures EndsShort(log + [b], n) <==> |b.page| < n
  {
    PagesGrow(log, b);
    CursorOfLast(Pages(log), b.page);
  }

  lemma CursorOfLast(visited: seq<Slot>, page: seq<Slot>)
    requires page != []
    ensures CursorAfter(visited + page) == CursorAfter(page)
  {
  }

  /** One batch: read a page, let others act, release it. */
  method OneBatch(s: State, now: Time, ghost visited: seq<Slot>, cursor: Option<Cursor>, batchSize: nat, m: Meanwhile)
    returns (after: State, page: seq<Slot>, fixed: nat, open: nat, ghost batch: Batch)
    requires Sound(s) && now <= s.clock && cursor == CursorAfter(visited)
    ensures Sound(after) && now <= after.clock
    ensures BatchOf(s, visited, batch, m, now, batchSize) && page == batch.page
    ensures after == if page == [] then batch.read else Result(batch)
    ensures fixed == Still(batch.at.slots, page, FixedSlot) && open == Still(batch.at.slots, page, OpenTime)
  {
    var read := Follow(s, m.beforeRead);
    FollowKeeps(s, m.beforeRead);
    page := ReadPage(read.slots, now, cursor, batchSize);
    var at := AtRelease(read, page, now, m);
    BatchKeeps(read, page, now, m, cursor, batchSize);
    batch := Batch(read, page, at);
    if page == [] {
      return read, page, 0, 0, batch;
    }
    var slots;
    slots, fixed, open := ReleaseBatch(at.slots, page);
    after := at.(slots := slots);
    TallyIsStill(at, Reading(now, page), |page|);
    assert page[..|page|] == page;
  }

  /**
   `recoverExpiredHolds`: whatever others do between its pages, a pass is the sequence of
   its batches, each of which read the next expired holds in key order and released those
   still as read; the totals are how many of each kind those were.
   */
  method RecoverExpiredHolds(start: State, now: Time, batchSize: nat, maxBatches: nat, others: seq<Meanwhile>)
    returns (after: State, totals: Totals, ghost log: seq<Batch>)
    requires Sound(start) && now <= start.clock && batchSize > 0
    ensures Sound(after) && Logged(start, log, others, now, batchSize) && |log| <= maxBatches
    ensures EndsAt(start, log, others, now, batchSize, maxBatches, after)
    ensures totals == TotalsOf(log, batchSize, maxBatches)
  {
    after, totals, log := start, Totals(0, 0, 0, 0, false), [];
    var cursor: Option<Cursor> := None;
    var batch := 0;
    while batch < maxBatches
      invariant Sound(after) && now <= after.clock && after == Reached(start, log)
      invariant Logged(start, log, others, now, batchSize) && |log| == batch <= maxBatches && !EndsShort(log, batchSize)
      invariant cursor == CursorAfter(Pages(log)) && totals == TotalsOf(log, batchSize, maxBatches)
    {
      var page, fixed, open;
      ghost var done: Batch;
      after, page, fixed, open, done := OneBatch(after, now, Pages(log), cursor, batchSize, MeanwhileAt(others, batch));
      if page == [] { break; }
      LogGrows(start, log, done, others, now, batchSize);
      TotalsGrow(log, done, batchSize, maxBatches);
      EndGrows(log, done, batchSize);
      log := log + [done];
      totals := totals.(fixedReleased := totals.fixedReleased + fixed, openReleased := totals.openReleased + open,
                        scanned := totals.scanned + |page|, batches := totals.batches + 1);
      cursor := CursorAfter(page);
      if |page| < batchSize { break; }
      if batch == maxBatches - 1 { totals := totals.(exhausted := true); }
      batch := batch + 1;
    }
  }

  /** Whatever others do, a pass visits every hold at most once, in key order. */
  lemma {:induction false} LogAscends(start: State, log: seq<Batch>, others: seq<Meanwhile>, now: Time, n: nat)
    requires Logged(start, log, others, now, n)
    ensures Ascending(Pages(log)) && forall i, j :: 0 <= i < j < |Pages(log)| ==> KeyLess(Pages(log)[i], Pages(log)[j])
  {
    if log != [] {
      var init, b := log[..|log| - 1], log[|log| - 1];
      LastFollows(start, log, others, now, n);
      LogAscends(start, init, others, now, n);
      AscendingAppend(Pages(init), b.page, now);
    }
  }

  lemma {:induction false} LogKeeps(start: State, log: seq<Batch>, others: seq<Meanwhile>, now: Time, n: nat)
    requires Sound(start) && now <= start.clock && Logged(start, log, others, now, n)
    ensures Sound(Reached(start, log)) && now <= Reached(start, log).clock
  {
    if log != [] {
      var init, b := log[..|log| - 1], log[|log| - 1];
      LastFollows(start, log, others, now, n);
      LogKeeps(start, init, others, now, n);
      FollowKeeps(Reached(start, init), MeanwhileAt(others, |init|).beforeRead);
      BatchKeeps(b.read, b.page, now, MeanwhileAt(others, |init|), CursorAfter(Pages(init)), n);
    }
  }

  /**
   Whatever others do: each batch of a pass releases every row of its page that is still as
   it was read, which are the ones it counts, and leaves alone every row that is neither on
   its page nor consumed by a row of it.
   */
  lemma EachBatchIsExact(start: State, log: seq<Batch>, others: seq<Meanwhile>, now: Time, n: nat, k: nat)
    requires Sound(start) && now <= start.clock && Logged(start, log, others, now, n) && k < |log|
    ensures var b := log[k];
            && (forall m :: 0 <= m < |b.page| && StillAsRead(b.at.slots, b.page[m]) ==> Released(Result(b).slots, b.page[m]))
            && (forall id :: id in b.at.slots && !Concerned(b.at.slots, b.page, id) ==> id in Result(b).slots && Result(b).slots[id] == b.at.slots[id])
  {
    var b, init := log[k], log[..k];
    forall m | 0 <= m < k
      ensures Follows(start, init, m, others, now, n)
    {
      assert init[..m] == log[..m];
      assert Follows(start, log, m, others, now, n);
    }
    assert Follows(start, log, k, others, now, n);
    LogKeeps(start, init, others, now, n);
    FollowKeeps(Reached(start, init), MeanwhileAt(others, k).beforeRead);
    BatchIsExact(b, now, MeanwhileAt(others, k), CursorAfter(Pages(init)), n);
  }

  lemma BatchIsExact(b: Batch, now: Time, m: Meanwhile, cursor: Option<Cursor>, n: nat)
    requires Sound(b.read) && now <= b.read.clock && IsPage(b.page, b.read.slots, now, cursor, n) && b.at == AtRelease(b.read, b.page, now, m)
    ensures forall k :: 0 <= k < |b.page| && StillAsRead(b.at.slots, b.page[k]) ==> Released(Result(b).slots, b.page[k])
    ensures forall id :: id in b.at.slots && !Concerned(b.at.slots, b.page, id) ==> id in Result(b).slots && Result(b).slots[id] == b.at.slots[id]
  {
    BatchKeeps(b.read, b.page, now, m, cursor, n);
    assert b.page[..|b.page|] == b.page;
    forall k | 0 <= k < |b.page| && StillAsRead(b.at.slots, b.page[k])
      ensures Released(Result(b).slots, b.page[k])
    {
      BatchReleases(b.at, Reading(now, b.page), |b.page|, k);
    }
    forall id | id in b.at.slots && !Concerned(b.at.slots, b.page, id)
      ensures id in Result(b).slots && Result(b).slots[id] == b.at.slots[id]
    {
      BatchLeavesOthers(b.at.slots, b.page, id);
    }
  }

  /** A hold that has ended and that nobody booked. */
  predicate Overdue(s: Slot, now: Time) {
    s.status == Held && s.booking == None && s.holdExpiresAt.Some? && s.holdExpiresAt.value <= now
  }

  /**
   When nobody interferes, a pass releases the first expired holds, each once, its counters
   are their numbers by kind, and unless it ran out of batches no expired hold is left.
   */
  lemma QuietPassReleases(start: State, log: seq<Batch>, now: Time, n: nat, maxBatches: nat, after: State)
    requires Sound(start) && now <= start.clock && Logged(start, log, [], now, n) && |log| <= maxBatches
    requires EndsAt(start, log, [], now, n, maxBatches, after)
    ensures QuietPass(start.slots, after.slots, now, Pages(log))
    ensures var totals := TotalsOf(log, n, maxBatches);
            && totals.fixedReleased == OfType(Pages(log), FixedSlot) && totals.openReleased == OfType(Pages(log), OpenTime)
            && (maxBatches > 0 && !totals.exhausted ==> forall id :: id in after.slots ==> !Overdue(after.slots[id], now))
    ensures forall k :: 0 <= k < |Pages(log)| ==> Overdue(Pages(log)[k], now)
  {
    QuietLog(start, log, now, n);
    QuietCounts(start, log, now, n, FixedSlot);
    QuietCounts(start, log, now, n, OpenTime);
    if EndsShort(log, n) {
      ShortLeavesNothing(start, log, now, n);
    } else if |log| < maxBatches {
      assert after == Reached(start, log);
    }
  }
}
