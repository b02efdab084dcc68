/** Operator-scheduled dispatch pauses: the sweep that finds when dispatch resumes, and the stored
    list it reads. Times are epoch milliseconds. */
module MaintenanceWindows {
  import opened Common

  const DAY_MS := 24 * 60 * 60 * 1000
  const MAX_WINDOWS := 100
  const MAX_WINDOW_MS := 31 * DAY_MS
  const MAX_REASON_LENGTH := 200
  const EXPIRED_RETENTION_MS := 7 * DAY_MS

  datatype Window = Window(id: nat, startsAt: int, endsAt: int, reason: Option<string>)

  datatype Pause = Pause(windowId: nat, reason: Option<string>, startsAt: int, resumesAt: int)

  predicate Covers(w: Window, t: int) { w.startsAt <= t < w.endsAt }

  predicate Covered(ws: seq<Window>, t: int) { exists w :: w in ws && Covers(w, t) }

  /** The first time from `now` on that no window covers. */
  ghost predicate Resumes(ws: seq<Window>, now: int, r: int) {
    now <= r && !Covered(ws, r) && forall t :: now <= t < r ==> Covered(ws, t)
  }

  function Active(ws: seq<Window>, now: int): seq<Window>
    decreases |ws|
  {
    if ws == [] then []
    else
      var w := ws[|ws| - 1];
      Active(ws[..|ws| - 1], now) + if Covers(w, now) then [w] else []
  }

  /** Array.prototype.sort by start: stable. */
  function Insert(w: Window, ws: seq<Window>): seq<Window> {
    if ws == [] || w.startsAt <= ws[0].startsAt then [w] + ws else [ws[0]] + Insert(w, ws[1..])
  }

  function ByStart(ws: seq<Window>): seq<Window> {
    if ws == [] then [] else Insert(ws[0], ByStart(ws[1..]))
  }

  predicate Sorted(ws: seq<Window>) { forall i, j :: 0 <= i < j < |ws| ==> ws[i].startsAt <= ws[j].startsAt }

  function LastEnd(ws: seq<Window>): (m: int)
    requires ws != []
    ensures exists w :: w in ws && w.endsAt == m
    ensures forall w :: w in ws ==> w.endsAt <= m
  {
    if |ws| == 1 then ws[0].endsAt
    else
      var m := LastEnd(ws[1..]);
      assert ws == [ws[0]] + ws[1..];
      if ws[0].endsAt > m then ws[0].endsAt else m
  }

  lemma {:induction false} ActiveMembers(ws: seq<Window>, now: int, w: Window)
    ensures w in Active(ws, now) <==> w in ws && Covers(w, now)
    decreases |ws|
  {
    if ws != [] {
      ActiveMembers(ws[..|ws| - 1], now, w);
      assert ws == ws[..|ws| - 1] + [ws[|ws| - 1]];
    }
  }

  lemma {:induction false} InsertMembers(w: Window, ws: seq<Window>, x: Window)
    ensures x in Insert(w, ws) <==> x == w || x in ws
    decreases |ws|
  {
    if ws != [] {
      InsertMembers(w, ws[1..], x);
      assert ws == [ws[0]] + ws[1..];
    }
  }

  lemma {:induction false} InsertSorted(w: Window, ws: seq<Window>)
    requires Sorted(ws)
    ensures Sorted(Insert(w, ws))
    decreases |ws|
  {
    if ws != [] && w.startsAt > ws[0].startsAt {
      InsertSorted(w, ws[1..]);
      forall x | x in Insert(w, ws[1..]) ensures ws[0].startsAt <= x.startsAt { InsertMembers(w, ws[1..], x); }
    }
  }

  lemma {:induction false} SortedMembers(ws: seq<Window>, x: Window)
    ensures x in ByStart(ws) <==> x in ws
    decreases |ws|
  {
    if ws != [] {
      SortedMembers(ws[1..], x);
      InsertMembers(ws[0], ByStart(ws[1..]), x);
      assert ws == [ws[0]] + ws[1..];
    }
  }

  lemma {:induction false} SortSorts(ws: seq<Window>)
    ensures Sorted(ByStart(ws))
    ensures ws != [] ==> ByStart(ws) != []
    decreases |ws|
  {
    if ws != [] {
      SortSorts(ws[1..]);
      InsertSorted(ws[0], ByStart(ws[1..]));
    }
  }

  // ---- computePause ------------------------------------------------------------------------------

  /** The repeated full scans the sweep replaced: extend the end across every window that starts at or
      before it, until a scan changes nothing. */
  function Scan(ws: seq<Window>, r: int): (s: int)
    ensures s >= r
  {
    if ws == [] then r
    else Scan(ws[1..], if ws[0].startsAt <= r && ws[0].endsAt > r then ws[0].endsAt else r)
  }

  lemma {:induction false} ScanBound(ws: seq<Window>, r: int, bound: int)
    requires r <= bound && forall w :: w in ws ==> w.endsAt <= bound
    ensures Scan(ws, r) <= bound
    decreases |ws|
  {
    if ws != [] {
      assert ws[0] in ws;
      ScanBound(ws[1..], if ws[0].startsAt <= r && ws[0].endsAt > r then ws[0].endsAt else r, bound);
    }
  }

  function Closure(ws: seq<Window>, r: int, bound: int): int
    requires r <= bound && forall w :: w in ws ==> w.endsAt <= bound
    decreases bound - r
  {
    var s := Scan(ws, r);
    ScanBound(ws, r, bound);
    if s == r then r else Closure(ws, s, bound)
  }

  function Bound(ws: seq<Window>, now: int): int {
    if ws == [] || LastEnd(ws) < now then now else LastEnd(ws)
  }

  lemma {:induction false} ScanCovers(ws: seq<Window>, r: int, t: int)
    requires r <= t < Scan(ws, r)
    ensures Covered(ws, t)
    decreases |ws|
  {
    var w := ws[0];
    var s := if w.startsAt <= r && w.endsAt > r then w.endsAt else r;
    if t < s {
      assert w in ws && Covers(w, t);
    } else {
      ScanCovers(ws[1..], s, t);
      var x :| x in ws[1..] && Covers(x, t);
      assert x in ws;
    }
  }

  lemma {:induction false} ScanStops(ws: seq<Window>, r: int, w: Window)
    requires Scan(ws, r) == r && w in ws
    ensures !Covers(w, r)
    decreases |ws|
  {
    if w != ws[0] { ScanStops(ws[1..], r, w); }
  }

  /** The fixpoint is the first uncovered time. */
  lemma {:induction false} ClosureResumes(ws: seq<Window>, now: int, r: int, bound: int)
    requires now <= r <= bound && (forall w :: w in ws ==> w.endsAt <= bound)
    requires forall t :: now <= t < r ==> Covered(ws, t)
    ensures Resumes(ws, now, Closure(ws, r, bound))
    decreases bound - r
  {
    var s := Scan(ws, r);
    ScanBound(ws, r, bound);
    if s == r {
      forall w | w in ws ensures !Covers(w, r) { ScanStops(ws, r, w); }
    } else {
      forall t | now <= t < s ensures Covered(ws, t) { if t >= r { ScanCovers(ws, r, t); } }
      ClosureResumes(ws, now, s, bound);
    }
  }

  lemma ResumesOnce(ws: seq<Window>, now: int, r: int, s: int)
    requires Resumes(ws, now, r) && Resumes(ws, now, s)
    ensures r == s
  {}

  /** The pause by definition: named by the first of the earliest-starting active windows, and over at
      the fixpoint. */
  function PauseOf(ws: seq<Window>, now: int): Option<Pause> {
    var active := Active(ws, now);
    if active == [] then None
    else
      SortSorts(active);
      var p := ByStart(active)[0];
      Some(Pause(p.id, p.reason, p.startsAt, Closure(ws, now, Bound(ws, now))))
  }

  /** The single sweep over the windows sorted by start. */
  method ComputePause(ws: seq<Window>, now: int) returns (pause: Option<Pause>)
    ensures pause == PauseOf(ws, now)
  {
    var active := Active(ws, now);
    if |active| == 0 { return None; }
    var resumesAt := LastEnd(active);
    forall t | now <= t < resumesAt ensures Covered(ws, t) {
      var w :| w in active && w.endsAt == resumesAt;
      ActiveMembers(ws, now, w);
      assert Covers(w, t);
    }
    ActiveMembers(ws, now, active[0]);
    var sorted := ByStart(ws);
    SortSorts(ws);
    var i := 0;
    while i < |sorted| && sorted[i].startsAt <= resumesAt
      invariant i <= |sorted| && now < resumesAt
      invariant forall t :: now <= t < resumesAt ==> Covered(ws, t)
      invariant forall k :: 0 <= k < i ==> sorted[k].endsAt <= resumesAt
    {
      var w := sorted[i];
      if w.endsAt > resumesAt {
        ExtendCovers(ws, now, resumesAt, w);
        resumesAt := w.endsAt;
      }
      i := i + 1;
    }
    forall w | w in ws ensures !Covers(w, resumesAt) { SortedMembers(ws, w); }
    ClosureResumes(ws, now, now, Bound(ws, now));
    ResumesOnce(ws, now, resumesAt, Closure(ws, now, Bound(ws, now)));
    SortSorts(active);
    var primary := ByStart(active)[0];
    pause := Some(Pause(primary.id, primary.reason, primary.startsAt, resumesAt));
  }

  lemma ExtendCovers(ws: seq<Window>, now: int, r: int, w: Window)
    requires w in ByStart(ws) && w.startsAt <= r < w.endsAt && forall t :: now <= t < r ==> Covered(ws, t)
    ensures forall t :: now <= t < w.endsAt ==> Covered(ws, t)
  {
    SortedMembers(ws, w);
    forall t | now <= t < w.endsAt ensures Covered(ws, t) { if t >= r { assert Covers(w, t); } }
  }

  // ---- Results -----------------------------------------------------------------------------------

  /** There is a pause exactly when a window covers `now`; dispatch resumes at the first time no window
      covers; and the pause is named by an active window no active window starts before. */
  lemma PauseIsExact(ws: seq<Window>, now: int)
    ensures PauseOf(ws, now).Some? <==> Covered(ws, now)
    ensures PauseOf(ws, now).Some? ==> var p := PauseOf(ws, now).value;
      && Resumes(ws, now, p.resumesAt) && now < p.resumesAt
      && exists w :: w in ws && Covers(w, now) && p == Pause(w.id, w.reason, w.startsAt, p.resumesAt)
           && forall x :: x in ws && Covers(x, now) ==> w.startsAt <= x.startsAt
  {
    var active := Active(ws, now);
    if Covered(ws, now) {
      var w :| w in ws && Covers(w, now);
      ActiveMembers(ws, now, w);
    }
    if active != [] {
      ClosureResumes(ws, now, now, Bound(ws, now));
      SortSorts(active);
      var first := ByStart(active)[0];
      SortedMembers(active, first);
      ActiveMembers(ws, now, first);
      forall x | x in ws && Covers(x, now) ensures first.startsAt <= x.startsAt {
        ActiveMembers(ws, now, x);
        SortedMembers(active, x);
      }
      assert Covered(ws, now);
    }
  }

  /** When dispatch resumes does not depend on the order of the list, nor on windows listed twice. */
  lemma OrderDoesNotMatter(a: seq<Window>, b: seq<Window>, now: int)
    requires forall w :: w in a <==> w in b
    ensures PauseOf(a, now).Some? <==> PauseOf(b, now).Some?
    ensures PauseOf(a, now).Some? ==>
      && PauseOf(a, now).value.resumesAt == PauseOf(b, now).value.resumesAt
      && PauseOf(a, now).value.startsAt == PauseOf(b, now).value.startsAt
  {
    PauseIsExact(a, now);
    PauseIsExact(b, now);
    assert forall t :: Covered(a, t) <==> Covered(b, t);
    if PauseOf(a, now).Some? {
      ResumesOnce(a, now, PauseOf(a, now).value.resumesAt, PauseOf(b, now).value.resumesAt);
    }
  }

  function Prune(ws: seq<Window>, n: int): seq<Window>
    decreases |ws|
  {
    if ws == [] then []
    else
      var w := ws[|ws| - 1];
      Prune(ws[..|ws| - 1], n) + if w.endsAt > n - EXPIRED_RETENTION_MS then [w] else []
  }

  lemma {:induction false} PruneMembers(ws: seq<Window>, n: int, w: Window)
    ensures w in Prune(ws, n) <==> w in ws && w.endsAt > n - EXPIRED_RETENTION_MS
    decreases |ws|
  {
    if ws != [] {
      PruneMembers(ws[..|ws| - 1], n, w);
      assert ws == ws[..|ws| - 1] + [ws[|ws| - 1]];
    }
  }

  lemma {:induction false} PruneActive(ws: seq<Window>, n: int, now: int)
    requires n - EXPIRED_RETENTION_MS <= now
    ensures Active(Prune(ws, n), now) == Active(ws, now)
    decreases |ws|
  {
    if ws != [] {
      var k := |ws| - 1;
      PruneActive(ws[..k], n, now);
      var less := Prune(ws[..k], n);
      if ws[k].endsAt > n - EXPIRED_RETENTION_MS {
        var more := less + [ws[k]];
        assert Prune(ws, n) == more && more[..|more| - 1] == less && more[|more| - 1] == ws[k];
      } else {
        assert Prune(ws, n) == less + [] == less && !Covers(ws[k], now);
      }
    }
  }

  lemma PruneKeepsPause(ws: seq<Window>, n: int, now: int)
    requires n - EXPIRED_RETENTION_MS <= now
    ensures PauseOf(Prune(ws, n), now) == PauseOf(ws, now)
  {
    PruneActive(ws, n, now);
    PauseIsExact(ws, now);
    PauseIsExact(Prune(ws, n), now);
    forall t | now <= t ensures Covered(ws, t) <==> Covered(Prune(ws, n), t) {
      if Covered(ws, t) {
        var w :| w in ws && Covers(w, t);
        PruneMembers(ws, n, w);
      }
      if Covered(Prune(ws, n), t) {
        var w :| w in Prune(ws, n) && Covers(w, t);
        PruneMembers(ws, n, w);
      }
    }
    if PauseOf(ws, now).Some? {
      ResumesOnce(ws, now, PauseOf(ws, now).value.resumesAt, PauseOf(Prune(ws, n), now).value.resumesAt);
    }
  }

  /** Pruning at `n` leaves the pause at `now` alone, whatever the windows, exactly when `now` is at
      most the retention period before `n`: so always for a write at `now` or earlier. */
  lemma PruneIsSafe(n: int, now: int)
    ensures n - EXPIRED_RETENTION_MS <= now <==> forall ws :: PauseOf(Prune(ws, n), now) == PauseOf(ws, now)
  {
    if n - EXPIRED_RETENTION_MS <= now {
      forall ws ensures PauseOf(Prune(ws, n), now) == PauseOf(ws, now) { PruneKeepsPause(ws, n, now); }
    } else {
      var w := Window(0, now, now + 1, None);
      assert [w][..0] == [];
      PauseIsExact([w], now);
      assert w in [w] && Covers(w, now);
      assert Prune([w], n) == [];
      PauseIsExact([], now);
      assert PauseOf(Prune([w], n), now) != PauseOf([w], now);
    }
  }

  // ---- The stored list ---------------------------------------------------------------------------

  datatype Error = MissingTimes | EndNotAfterStart | EndInPast | TooLong | ReasonTooLong | TooMany

  /** parseWindowInput on times already read as finite numbers, and a trimmed reason. */
  function ParseWindow(startsAt: Option<int>, endsAt: Option<int>, reason: string, now: int): Result<Window, Error> {
    match (startsAt, endsAt)
    case (Some(start), Some(end)) =>
      if end <= start then Err(EndNotAfterStart)
      else if end <= now then Err(EndInPast)
      else if end - start > MAX_WINDOW_MS then Err(TooLong)
      else if |reason| > MAX_REASON_LENGTH then Err(ReasonTooLong)
      else Ok(Window(0, start, end, if reason == "" then None else Some(reason)))
    case _ => Err(MissingTimes)
  }

  predicate Acceptable(w: Window) {
    && w.startsAt < w.endsAt <= w.startsAt + MAX_WINDOW_MS
    && (w.reason.Some? ==> 0 < |w.reason.value| <= MAX_REASON_LENGTH)
  }

  function Without(ws: seq<Window>, id: nat): seq<Window>
    decreases |ws|
  {
    if ws == [] then []
    else
      var w := ws[|ws| - 1];
      Without(ws[..|ws| - 1], id) + if w.id != id then [w] else []
  }

  lemma {:induction false} WithoutMembers(ws: seq<Window>, id: nat, w: Window)
    ensures w in Without(ws, id) <==> w in ws && w.id != id
    ensures |Without(ws, id)| <= |ws|
    ensures |Without(ws, id)| == |ws| ==> Without(ws, id) == ws
    decreases |ws|
  {
    if ws != [] {
      WithoutMembers(ws[..|ws| - 1], id, w);
      assert ws == ws[..|ws| - 1] + [ws[|ws| - 1]];
    }
  }

  lemma {:induction false} PruneSize(ws: seq<Window>, n: int)
    ensures |Prune(ws, n)| <= |ws|
    decreases |ws|
  {
    if ws != [] { PruneSize(ws[..|ws| - 1], n); }
  }

  /** Pruning before appending is as good as not pruning. */
  lemma PruneThenAdd(ws: seq<Window>, w: Window, n: int, t: int)
    requires n <= t && w.endsAt > n
    ensures PauseOf(Prune(ws, n) + [w], t) == PauseOf(ws + [w], t)
  {
    assert (ws + [w])[..|ws|] == ws;
    assert Prune(ws + [w], n) == Prune(ws, n) + [w];
    PruneKeepsPause(ws + [w], n, t);
  }

  class Schedule {
    var windows: seq<Window>

    constructor ()
      ensures Valid() && windows == []
    {
      windows := [];
    }

    ghost predicate Valid()
      reads this
    {
      |windows| <= MAX_WINDOWS && forall w :: w in windows ==> Acceptable(w)
    }

    /** From now on the pause is that of the old windows and the new one, pruning notwithstanding. */
    method AddWindow(startsAt: Option<int>, endsAt: Option<int>, reason: string, id: nat, now: int)
      returns (r: Result<Window, Error>)
      requires Valid()
      modifies this
      ensures Valid()
      ensures r.Err? ==> windows == old(windows)
      ensures r.Err? <==> ParseWindow(startsAt, endsAt, reason, now).Err? || |Prune(old(windows), now)| >= MAX_WINDOWS
      ensures r.Ok? ==> r.value == ParseWindow(startsAt, endsAt, reason, now).value.(id := id)
                        && windows == Prune(old(windows), now) + [r.value]
      ensures r.Ok? ==> forall t :: now <= t ==> PauseOf(windows, t) == PauseOf(old(windows) + [r.value], t)
    {
      var fields := ParseWindow(startsAt, endsAt, reason, now);
      if fields.Err? { return Err(fields.error); }
      var kept := Prune(windows, now);
      if |kept| >= MAX_WINDOWS { return Err(TooMany); }
      var window := fields.value.(id := id);
      forall t | now <= t ensures PauseOf(kept + [window], t) == PauseOf(windows + [window], t) {
        PruneThenAdd(windows, window, now, t);
      }
      forall w | w in kept ensures Acceptable(w) { PruneMembers(windows, now, w); }
      windows := kept + [window];
      r := Ok(window);
    }

    /** Removing an active window can end a pause early; removing nothing writes nothing. */
    method RemoveWindow(id: nat, now: int) returns (removed: bool)
      requires Valid()
      modifies this
      ensures Valid()
      ensures removed <==> exists w :: w in old(windows) && w.id == id
      ensures !removed ==> windows == old(windows)
      ensures forall t :: now <= t ==> PauseOf(windows, t) == PauseOf(Without(old(windows), id), t)
    {
      var next := Without(windows, id);
      forall w ensures (w in next <==> w in windows && w.id != id)
                       && (|next| == |windows| ==> next == windows) && |next| <= |windows| {
        WithoutMembers(windows, id, w);
      }
      if |next| == |windows| {
        assert forall w :: w in windows ==> w in next;
        return false;
      }
      assert exists w :: w in windows && w.id == id by {
        if forall w :: w in windows ==> w.id != id { WithoutNone(windows, id); }
      }
      PruneSize(next, now);
      forall w | w in Prune(next, now) ensures Acceptable(w) { PruneMembers(next, now, w); }
      forall t | now <= t ensures PauseOf(Prune(next, now), t) == PauseOf(next, t) { PruneKeepsPause(next, now, t); }
      windows := Prune(next, now);
      removed := true;
    }

    method GetDispatchPause(now: int) returns (pause: Option<Pause>)
      ensures pause == PauseOf(windows, now)
    {
      pause := ComputePause(windows, now);
    }
  }

  lemma {:induction false} WithoutNone(ws: seq<Window>, id: nat)
    requires forall w :: w in ws ==> w.id != id
    ensures Without(ws, id) == ws
    decreases |ws|
  {
    if ws != [] {
      assert ws == ws[..|ws| - 1] + [ws[|ws| - 1]];
      WithoutNone(ws[..|ws| - 1], id);
    }
  }
}
