/** The desktop shell's window manager and its two bounded buffers (App.tsx).
    The list transforms the shell computes with `prev.map(...)` are pure
    functions; the state holders `windows`, `activeWindow`, `logs` and
    `metricsHistory` are the fields of the class `Desktop`. */
module WindowManager {
  import opened Types

  /** Kernel-log capacity (`slice(0, 100)`). */
  const MaxLogs := 100
  /** Metrics-history capacity (`slice(-30)`). */
  const MaxHistory := 30

  function Min(a: int, b: int): int { if a <= b then a else b }

  // ---------------------------------------------------------------------
  // Stacking order

  /** `m` is the highest stacking order in `ws`. */
  ghost predicate IsMaxZ(ws: seq<WindowState>, m: int)
  {
    (forall i :: 0 <= i < |ws| ==> ws[i].zIndex <= m) &&
    (exists i :: 0 <= i < |ws| && ws[i].zIndex == m)
  }

  /** `Math.max(...prev.map(x => x.zIndex))`, defined on the non-empty lists
      where the source evaluates it. */
  function MaxZ(ws: seq<WindowState>): (m: int)
    requires |ws| > 0
    ensures IsMaxZ(ws, m)
  {
    if |ws| == 1 then ws[0].zIndex
    else
      var rest := MaxZ(ws[1..]);
      assert forall i :: 1 <= i < |ws| ==> ws[i] == ws[1..][i - 1];
      if ws[0].zIndex >= rest then ws[0].zIndex else rest
  }

  /** The highest stacking order of a list is unique. */
  lemma MaxZUnique(ws: seq<WindowState>, m: int)
    requires |ws| > 0 && IsMaxZ(ws, m)
    ensures m == MaxZ(ws)
  {
    var k :| 0 <= k < |ws| && ws[k].zIndex == m;
    var j :| 0 <= j < |ws| && ws[j].zIndex == MaxZ(ws);
    assert ws[j].zIndex <= m && ws[k].zIndex <= MaxZ(ws);
  }

  // ---------------------------------------------------------------------
  // Identity of windows

  /** Two records describe the same window: same id, kind and title. */
  predicate SameWindow(a: WindowState, b: WindowState)
  {
    a.id == b.id && a.kind == b.kind && a.title == b.title
  }

  /** The ids of a window list, in order. */
  function Ids(ws: seq<WindowState>): (r: seq<string>)
    ensures |r| == |ws| && forall i :: 0 <= i < |ws| ==> r[i] == ws[i].id
  {
    seq(|ws|, i requires 0 <= i < |ws| => ws[i].id)
  }

  /** No two windows share an id. */
  predicate UniqueIds(ws: seq<WindowState>)
  {
    forall i, j :: 0 <= i < j < |ws| ==> ws[i].id != ws[j].id
  }

  /** Two lists hold the same windows, position by position. */
  predicate SameWindows(a: seq<WindowState>, b: seq<WindowState>)
  {
    |a| == |b| && forall i :: 0 <= i < |a| ==> SameWindow(a[i], b[i])
  }

  /** A list with the same windows as a list with unique ids has unique ids. */
  lemma SameWindowsKeepUniqueIds(a: seq<WindowState>, b: seq<WindowState>)
    requires SameWindows(a, b) && UniqueIds(a)
    ensures UniqueIds(b) && Ids(b) == Ids(a)
  {
  }

  /** Taskbar button k is highlighted (App.tsx:269). */
  predicate Highlighted(ws: seq<WindowState>, active: string, k: int)
    requires 0 <= k < |ws|
  {
    ws[k].id == active && ws[k].isOpen && !ws[k].isMinimized
  }

  /** With unique ids, at most one taskbar button is highlighted. */
  lemma AtMostOneHighlighted(ws: seq<WindowState>, active: string)
    requires UniqueIds(ws)
    ensures forall i, j ::
      (0 <= i < |ws| && 0 <= j < |ws| && Highlighted(ws, active, i) && Highlighted(ws, active, j)) ==> i == j
  {
  }

  // ---------------------------------------------------------------------
  // The initial desktop (App.tsx:17-24)

  function InitialWindows(): seq<WindowState>
  {
    [ WindowState("term-1", Terminal, "Kernel Terminal", true, false, 10),
      WindowState("dash-1", Dashboard, "System Analytics", true, false, 5),
      WindowState("explorer-1", Explorer, "File Explorer", false, false, 1),
      WindowState("assistant-1", AiChat, "Neural Assistant", false, false, 1) ]
  }

  const InitialActive: string := "term-1"

  // ---------------------------------------------------------------------
  // Lookup (App.tsx:77)

  /** `windows.find(w => w.type === type)`: the first window of kind `t`. */
  function FindByType(ws: seq<WindowState>, t: WindowType): (r: Option<WindowState>)
    ensures r.None? <==> forall i :: 0 <= i < |ws| ==> ws[i].kind != t
    ensures r.Some? ==>
      exists k :: 0 <= k < |ws| && ws[k] == r.value && ws[k].kind == t &&
        forall j :: 0 <= j < k ==> ws[j].kind != t
  {
    if |ws| == 0 then None
    else if ws[0].kind == t then Some(ws[0])
    else
      var r := FindByType(ws[1..], t);
      assert forall i :: 1 <= i < |ws| ==> ws[i] == ws[1..][i - 1];
      if r.Some? then
        var k :| 0 <= k < |ws[1..]| && ws[1..][k] == r.value && ws[1..][k].kind == t &&
          forall j :: 0 <= j < k ==> ws[1..][j].kind != t;
        assert ws[k + 1] == r.value;
        r
      else r
  }

  /** `find` by kind returns the window at `k` when it is the first of its kind. */
  lemma FindFirstOfType(ws: seq<WindowState>, k: int)
    requires 0 <= k < |ws| && forall j :: 0 <= j < k ==> ws[j].kind != ws[k].kind
    ensures FindByType(ws, ws[k].kind) == Some(ws[k])
  {
    var r := FindByType(ws, ws[k].kind);
    var m :| 0 <= m < |ws| && ws[m] == r.value && ws[m].kind == ws[k].kind &&
      forall j :: 0 <= j < m ==> ws[j].kind != ws[k].kind;
    assert m == k;
  }

  /** The ids of the initial windows are unique. */
  lemma InitialIdsUnique()
    ensures UniqueIds(InitialWindows())
  {
    var ws := InitialWindows();
    var initials := "tdea";
    assert forall i :: 0 <= i < 4 ==> |ws[i].id| > 0 && ws[i].id[0] == initials[i];
    forall i, j | 0 <= i < j < 4 ensures ws[i].id != ws[j].id {
      assert ws[i].id[0] != ws[j].id[0];
    }
  }

  /** Every window kind but SYSTEM_LOGS has exactly one initial window. */
  lemma InitialKindsDistinct()
    ensures forall i, j :: 0 <= i < j < |InitialWindows()| ==>
      InitialWindows()[i].kind != InitialWindows()[j].kind
  {
    var ws := InitialWindows();
    var kinds := [Terminal, Dashboard, Explorer, AiChat];
    assert |ws| == 4 && forall i :: 0 <= i < 4 ==> ws[i].kind == kinds[i];
  }

  /** `find` on a list whose kinds are TERMINAL, DASHBOARD, EXPLORER and
      AI_CHAT in that order. */
  lemma FindInFourKinds(ws: seq<WindowState>)
    requires |ws| == 4 && ws[0].kind == Terminal && ws[1].kind == Dashboard
    requires ws[2].kind == Explorer && ws[3].kind == AiChat
    ensures FindByType(ws, Terminal) == Some(ws[0])
    ensures FindByType(ws, Dashboard) == Some(ws[1])
    ensures FindByType(ws, Explorer) == Some(ws[2])
    ensures FindByType(ws, AiChat) == Some(ws[3])
    ensures FindByType(ws, SystemLogs) == None
  {
    assert FindByType(ws, SystemLogs) == None by {
      assert forall i :: 0 <= i < |ws| ==> ws[i].kind != SystemLogs;
    }
    FindFirstOfType(ws, 0);
    FindFirstOfType(ws, 1);
    FindFirstOfType(ws, 2);
    FindFirstOfType(ws, 3);
  }

  /** `find` on the initial list: each kind but SYSTEM_LOGS is found at its
      own position, SYSTEM_LOGS is not found. */
  lemma InitialWindowsFind()
    ensures FindByType(InitialWindows(), Terminal) == Some(InitialWindows()[0])
    ensures FindByType(InitialWindows(), Dashboard) == Some(InitialWindows()[1])
    ensures FindByType(InitialWindows(), Explorer) == Some(InitialWindows()[2])
    ensures FindByType(InitialWindows(), AiChat) == Some(InitialWindows()[3])
    ensures FindByType(InitialWindows(), SystemLogs) == None
  {
    FindInFourKinds(InitialWindows());
  }

  // ---------------------------------------------------------------------
  // The list transforms

  /** `openWindow`'s map (App.tsx:71-76): every window of kind `t` is opened,
      restored and raised to one above the old top. */
  function OpenedWindows(ws: seq<WindowState>, t: WindowType): (r: seq<WindowState>)
    ensures SameWindows(ws, r)
    ensures forall i :: 0 <= i < |ws| && ws[i].kind != t ==> r[i] == ws[i]
    ensures forall i :: 0 <= i < |ws| && ws[i].kind == t ==>
      r[i].isOpen && !r[i].isMinimized && r[i].zIndex == MaxZ(ws) + 1
  {
    if |ws| == 0 then []
    else
      var top := MaxZ(ws) + 1;
      seq(|ws|, i requires 0 <= i < |ws| =>
        if ws[i].kind == t then ws[i].(isOpen := true, isMinimized := false, zIndex := top)
        else ws[i])
  }

  /** Whether `toggleWindow(id)` restores (rather than minimizes) window `w`
      when `active` is the active id (App.tsx:84). */
  predicate IsFocusing(w: WindowState, active: string)
  {
    w.isMinimized || active != w.id
  }

  /** `toggleWindow`'s map (App.tsx:82-92): the window with id `id` is
      restored and raised when it is minimized or not active, and otherwise
      minimized in place; `isOpen` never changes. */
  function ToggledWindows(ws: seq<WindowState>, id: string, active: string): (r: seq<WindowState>)
    ensures SameWindows(ws, r)
    ensures forall i :: 0 <= i < |ws| && ws[i].id != id ==> r[i] == ws[i]
    ensures forall i :: 0 <= i < |ws| && ws[i].id == id ==>
      r[i].isOpen == ws[i].isOpen &&
      r[i].isMinimized == !IsFocusing(ws[i], active) &&
      (if IsFocusing(ws[i], active) then r[i].zIndex == MaxZ(ws) + 1
       else r[i].zIndex == ws[i].zIndex)
  {
    if |ws| == 0 then []
    else
      var top := MaxZ(ws) + 1;
      seq(|ws|, i requires 0 <= i < |ws| =>
        if ws[i].id == id then
          var focusing := ws[i].isMinimized || active != id;
          ws[i].(isMinimized := !focusing, zIndex := if focusing then top else ws[i].zIndex)
        else ws[i])
  }

  /** `closeWindow`'s map (App.tsx:97): only `isOpen` of the matching window
      changes, to false. */
  function ClosedWindows(ws: seq<WindowState>, id: string): (r: seq<WindowState>)
    ensures SameWindows(ws, r)
    ensures forall i :: 0 <= i < |ws| ==>
      r[i] == if ws[i].id == id then ws[i].(isOpen := false) else ws[i]
  {
    seq(|ws|, i requires 0 <= i < |ws| => if ws[i].id == id then ws[i].(isOpen := false) else ws[i])
  }

  /** The taskbar's reopen map (App.tsx:268): only `isOpen` of the matching
      window changes, to true. */
  function ReopenedWindows(ws: seq<WindowState>, id: string): (r: seq<WindowState>)
    ensures SameWindows(ws, r)
    ensures forall i :: 0 <= i < |ws| ==>
      r[i] == if ws[i].id == id then ws[i].(isOpen := true) else ws[i]
  {
    seq(|ws|, i requires 0 <= i < |ws| => if ws[i].id == id then ws[i].(isOpen := true) else ws[i])
  }

  // ---------------------------------------------------------------------
  // Properties of the transforms

  /** After `openWindow(t)` a window of kind `t` is strictly above every
      window of another kind, and the new top is exactly the old top plus one. */
  lemma OpenedOnTop(ws: seq<WindowState>, t: WindowType, k: int)
    requires 0 <= k < |ws| && ws[k].kind == t
    ensures var r := OpenedWindows(ws, t);
      r[k].zIndex == MaxZ(ws) + 1 &&
      (forall j :: 0 <= j < |ws| && ws[j].kind != t ==> r[j].zIndex < r[k].zIndex) &&
      MaxZ(r) == MaxZ(ws) + 1
  {
    var r := OpenedWindows(ws, t);
    forall j | 0 <= j < |r| ensures r[j].zIndex <= r[k].zIndex {
      if ws[j].kind != t { assert r[j] == ws[j]; }
    }
    assert IsMaxZ(r, r[k].zIndex);
    MaxZUnique(r, r[k].zIndex);
  }

  /** Toggling the active, visible window minimizes it in place and leaves
      every other window and the top of the stack as they were. */
  lemma ToggleMinimizesActive(ws: seq<WindowState>, k: int)
    requires UniqueIds(ws) && 0 <= k < |ws| && !ws[k].isMinimized
    ensures var r := ToggledWindows(ws, ws[k].id, ws[k].id);
      r[k] == ws[k].(isMinimized := true) &&
      (forall j :: 0 <= j < |ws| && j != k ==> r[j] == ws[j]) &&
      MaxZ(r) == MaxZ(ws)
  {
    var id := ws[k].id;
    var r := ToggledWindows(ws, id, id);
    assert !IsFocusing(ws[k], id);
    assert r[k] == ws[k].(isMinimized := true) by {
      assert SameWindow(ws[k], r[k]);
    }
    forall j | 0 <= j < |ws| && j != k ensures r[j] == ws[j] {
      assert ws[j].id != id;
    }
    SameStackSameMax(ws, r);
  }

  /** Lists with the same stacking orders have the same top. */
  lemma SameStackSameMax(a: seq<WindowState>, b: seq<WindowState>)
    requires |a| == |b| > 0 && forall j :: 0 <= j < |a| ==> a[j].zIndex == b[j].zIndex
    ensures MaxZ(a) == MaxZ(b)
  {
    var m :| 0 <= m < |a| && a[m].zIndex == MaxZ(a);
    assert b[m].zIndex == MaxZ(a);
    MaxZUnique(b, MaxZ(a));
  }

  /** Toggling a minimized window restores it one above the top, whatever
      the active id. */
  lemma ToggleRestoresMinimized(ws: seq<WindowState>, k: int, active: string)
    requires UniqueIds(ws) && 0 <= k < |ws| && ws[k].isMinimized
    ensures var r := ToggledWindows(ws, ws[k].id, active);
      r[k] == ws[k].(isMinimized := false, zIndex := MaxZ(ws) + 1) &&
      (forall j :: 0 <= j < |ws| && j != k ==> r[j] == ws[j])
  {
    var r := ToggledWindows(ws, ws[k].id, active);
    assert forall j :: 0 <= j < |ws| && j != k ==> ws[j].id != ws[k].id;
  }

  /** A window that is active and visible alternates under repeated toggles:
      the first toggle minimizes it in place, the second restores it above
      every window, and its stacking order changes only on the restore. */
  lemma ToggleAlternates(ws: seq<WindowState>, k: int)
    requires UniqueIds(ws) && 0 <= k < |ws| && !ws[k].isMinimized
    ensures var id := ws[k].id;
      var once := ToggledWindows(ws, id, id);
      var twice := ToggledWindows(once, id, id);
      once[k] == ws[k].(isMinimized := true) &&
      twice[k] == ws[k].(zIndex := MaxZ(ws) + 1) &&
      (forall j :: 0 <= j < |ws| && j != k ==> twice[j] == ws[j])
  {
    var id := ws[k].id;
    var once := ToggledWindows(ws, id, id);
    ToggleMinimizesActive(ws, k);
    SameWindowsKeepUniqueIds(ws, once);
    ToggleRestoresMinimized(once, k, id);
  }

  /** Closing twice is closing once. */
  lemma CloseIdempotent(ws: seq<WindowState>, id: string)
    ensures ClosedWindows(ClosedWindows(ws, id), id) == ClosedWindows(ws, id)
  {
    var once := ClosedWindows(ws, id);
    var twice := ClosedWindows(once, id);
    forall i | 0 <= i < |ws| ensures twice[i] == once[i] { }
  }

  /** Reopening undoes closing, field for field. */
  lemma ReopenAfterClose(ws: seq<WindowState>, id: string)
    requires forall i :: 0 <= i < |ws| && ws[i].id == id ==> ws[i].isOpen
    ensures ReopenedWindows(ClosedWindows(ws, id), id) == ws
  {
    var back := ReopenedWindows(ClosedWindows(ws, id), id);
    forall i | 0 <= i < |ws| ensures back[i] == ws[i] { }
  }

  // ---------------------------------------------------------------------
  // The bounded buffers

  /** `[entry, ...prev].slice(0, 100)` (App.tsx:30-34): the new entry first,
      then the newest old entries, at most `MaxLogs` in all. */
  function PushLog<T>(logs: seq<T>, entry: T): (r: seq<T>)
    ensures |r| == Min(|logs| + 1, MaxLogs)
    ensures r[0] == entry
    ensures r[1..] == logs[..|r| - 1]
  {
    ([entry] + logs)[..Min(|logs| + 1, MaxLogs)]
  }

  /** `[...h, next].slice(-30)` (App.tsx:63): the new sample last, after the
      latest old samples, at most `MaxHistory` in all. */
  function PushSample<T>(history: seq<T>, next: T): (r: seq<T>)
    ensures |r| == Min(|history| + 1, MaxHistory)
    ensures r[|r| - 1] == next
    ensures r[..|r| - 1] == history[|history| - (|r| - 1)..]
  {
    var all := history + [next];
    var start := if |all| > MaxHistory then |all| - MaxHistory else 0;
    assert all[start..][..|all| - start - 1] == history[start..];
    all[start..]
  }

  /** The log keeps whole entries, newest first: after logging `a` then `b`
      into a log of fewer than 99 entries nothing is dropped. */
  lemma PushLogKeepsAll<T>(logs: seq<T>, a: T, b: T)
    requires |logs| + 2 <= MaxLogs
    ensures PushLog(PushLog(logs, a), b) == [b, a] + logs
  {
    var once := PushLog(logs, a);
    assert once == [a] + logs;
    var twice := PushLog(once, b);
    assert twice == [b] + once;
  }

  /** Once the history is full, every new sample drops exactly the oldest. */
  lemma PushSampleDropsOldest<T>(history: seq<T>, next: T)
    requires |history| == MaxHistory
    ensures PushSample(history, next) == history[1..] + [next]
  {
    var r := PushSample(history, next);
    assert r[..|r| - 1] == history[1..];
    assert r == r[..|r| - 1] + [r[|r| - 1]];
  }

  // ---------------------------------------------------------------------
  // The shell's state holders

  class Desktop {
    var windows: seq<WindowState>
    var activeWindow: string
    var logs: seq<LogEntry>
    var metricsHistory: seq<SystemMetrics>
    /** The windows fixed at process start, by id. */
    ghost const fixedIds: seq<string>

    /** The windows are the ones created at start, ids are unique, and both
        buffers are within their capacity. */
    ghost predicate Valid()
      reads this
    {
      Ids(windows) == fixedIds && UniqueIds(windows) &&
      |logs| <= MaxLogs && |metricsHistory| <= MaxHistory
    }

    constructor ()
      ensures Valid()
      ensures windows == InitialWindows() && activeWindow == InitialActive
      ensures logs == [] && metricsHistory == []
    {
      windows := InitialWindows();
      activeWindow := InitialActive;
      logs := [];
      metricsHistory := [];
      fixedIds := Ids(InitialWindows());
      InitialIdsUnique();
    }

    /** `openWindow(type)` (App.tsx:70-79). */
    method OpenWindow(t: WindowType)
      requires Valid()
      modifies this
      ensures Valid()
      ensures windows == OpenedWindows(old(windows), t)
      ensures activeWindow == match FindByType(old(windows), t)
        case Some(w) => w.id
        case None => old(activeWindow)
      ensures logs == old(logs) && metricsHistory == old(metricsHistory)
    {
      var found := FindByType(windows, t);
      SameWindowsKeepUniqueIds(windows, OpenedWindows(windows, t));
      windows := OpenedWindows(windows, t);
      if found.Some? {
        activeWindow := found.value.id;
      }
    }

    /** `toggleWindow(id)` (App.tsx:81-94). */
    method ToggleWindow(id: string)
      requires Valid()
      modifies this
      ensures Valid()
      ensures windows == ToggledWindows(old(windows), id, old(activeWindow))
      ensures activeWindow == id
      ensures logs == old(logs) && metricsHistory == old(metricsHistory)
    {
      SameWindowsKeepUniqueIds(windows, ToggledWindows(windows, id, activeWindow));
      windows := ToggledWindows(windows, id, activeWindow);
      activeWindow := id;
    }

    /** `closeWindow(id)` (App.tsx:96-98); the active id is kept. */
    method CloseWindow(id: string)
      requires Valid()
      modifies this
      ensures Valid()
      ensures windows == ClosedWindows(old(windows), id)
      ensures activeWindow == old(activeWindow)
      ensures logs == old(logs) && metricsHistory == old(metricsHistory)
    {
      SameWindowsKeepUniqueIds(windows, ClosedWindows(windows, id));
      windows := ClosedWindows(windows, id);
    }

    /** A click on the taskbar button of the `k`-th window (App.tsx:268):
        toggle an open window, reopen a closed one in place. */
    method TaskbarClick(k: nat)
      requires Valid() && k < |windows|
      modifies this
      ensures Valid()
      ensures old(windows[k].isOpen) ==>
        windows == ToggledWindows(old(windows), old(windows[k].id), old(activeWindow)) &&
        activeWindow == old(windows[k].id)
      ensures !old(windows[k].isOpen) ==>
        windows == ReopenedWindows(old(windows), old(windows[k].id)) &&
        activeWindow == old(activeWindow)
      ensures logs == old(logs) && metricsHistory == old(metricsHistory)
    {
      var win := windows[k];
      if win.isOpen {
        ToggleWindow(win.id);
      } else {
        SameWindowsKeepUniqueIds(windows, ReopenedWindows(windows, win.id));
        windows := ReopenedWindows(windows, win.id);
      }
    }

    /** Click-to-focus on a window body (App.tsx:216): only the active id. */
    method Focus(id: string)
      requires Valid()
      modifies this
      ensures Valid()
      ensures activeWindow == id
      ensures windows == old(windows) && logs == old(logs) && metricsHistory == old(metricsHistory)
    {
      activeWindow := id;
    }

    /** `addLog(message, level)` (App.tsx:29-35); the clock reading is the
        parameter `timestamp`. */
    method AddLog(message: string, level: LogLevel, timestamp: string)
      requires Valid()
      modifies this
      ensures Valid()
      ensures logs == PushLog(old(logs), LogEntry(timestamp, level, message))
      ensures windows == old(windows) && activeWindow == old(activeWindow)
      ensures metricsHistory == old(metricsHistory)
    {
      logs := PushLog(logs, LogEntry(timestamp, level, message));
    }

    /** Appending one metrics sample to the history (App.tsx:63); the sample
        itself comes from the random walk, which is a parameter here. */
    method RecordMetrics(next: SystemMetrics)
      requires Valid()
      modifies this
      ensures Valid()
      ensures metricsHistory == PushSample(old(metricsHistory), next)
      ensures windows == old(windows) && activeWindow == old(activeWindow) && logs == old(logs)
    {
      metricsHistory := PushSample(metricsHistory, next);
    }
  }

  /** The highest stacking order on the initial desktop is 10. */
  lemma InitialMaxZ()
    ensures MaxZ(InitialWindows()) == 10
  {
    var ws := InitialWindows();
    assert ws[0].zIndex == 10 && ws[1].zIndex == 5 && ws[2].zIndex == 1 && ws[3].zIndex == 1;
    assert IsMaxZ(ws, 10);
    MaxZUnique(ws, 10);
  }

  /** On the initial desktop, opening EXPLORER makes `explorer-1` active. */
  lemma OpenExplorerActivates()
    ensures FindByType(InitialWindows(), Explorer) == Some(InitialWindows()[2])
    ensures InitialWindows()[2].id == "explorer-1"
  {
    InitialWindowsFind();
  }

  /** The scenario from the initial desktop (stacking orders 10, 5, 1, 1):
      opening the explorer raises it to 11 and opens it, and leaves the other
      windows alone. */
  lemma OpenExplorerScenario()
    ensures OpenedWindows(InitialWindows(), Explorer)[2] ==
      WindowState("explorer-1", Explorer, "File Explorer", true, false, 11)
    ensures forall j :: 0 <= j < 4 && j != 2 ==>
      OpenedWindows(InitialWindows(), Explorer)[j] == InitialWindows()[j]
  {
    var ws := InitialWindows();
    assert ws[0].kind == Terminal && ws[1].kind == Dashboard && ws[2].kind == Explorer;
    assert ws[3].kind == AiChat;
    InitialMaxZ();
    OpenedOnTop(ws, Explorer, 2);
  }
}
