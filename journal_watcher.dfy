/** The journal watcher: which journal file is followed, what the bootstrap
    of a newly followed file forwards, what each poll of the tail loop
    emits, and the once-per-absence "no journal" notice. Files are given as
    their lines; the signals the watcher emits are appended to an output
    sequence. */
module JournalWatcher {
  import opened PyText
  import opened PyJson

  // ---------------------------------------------------------------------
  // Inputs and outputs

  /** One line as `readline` returns it (its text, terminator included, one
      character per byte) and what `json.loads` makes of it (None when it
      raises). */
  datatype Line = Line(text: string, decoded: Option<Json>)

  /** A `Journal*.log` file as one poll sees it. `readable` is false when
      opening it fails. */
  datatype JournalFile = JournalFile(name: string, mtime: real, readable: bool, lines: seq<Line>)

  /** The three signals: `event_received`, `status` and `error`. */
  datatype Signal = EventReceived(evt: Obj) | Status(msg: string) | Error(msg: string)

  const NoJournalMsg := "No Journal*.log found yet..."
  const BadLineMsg := "Bad journal line (JSON parse failed). Skipped."
  const LoopErrorMsg := "Journal watcher error (see log)."

  const WatchingPrefix := "Watching: "
  const TailingPrefix := "Tailing: "
  const BootstrappedPrefix := "Bootstrapped "
  const BootstrappedSuffix := " events (newest system only)"
  function WatchingMsg(dir: string): string { WatchingPrefix + dir }
  function TailingMsg(name: string): string { TailingPrefix + name }
  function BootstrappedMsg(n: nat): string { BootstrappedPrefix + NatToStr(n) + BootstrappedSuffix }

  const EventKey := "event"
  const LocationEvent := "Location"
  const FSDJumpEvent := "FSDJump"

  const MaxBytes := 256 * 1024
  const MaxEvents := 800

  // ---------------------------------------------------------------------
  // `_find_latest_journal`

  /** `a` is preferred to `b`: newer, or as new and earlier in name order. */
  predicate Newer(a: JournalFile, b: JournalFile) {
    a.mtime > b.mtime || (a.mtime == b.mtime && StrLess(a.name, b.name))
  }

  /** `max(sorted(files), key=mtime)`: the newest file, the first in name
      order among equally new ones; None when there is none. */
  function Latest(files: seq<JournalFile>): (r: Option<JournalFile>)
    ensures r.None? <==> files == []
    ensures r.Some? ==> r.value in files
  {
    if files == [] then None
    else
      var rest := Latest(files[..|files| - 1]);
      var f := files[|files| - 1];
      if rest.None? || Newer(f, rest.value) then Some(f) else rest
  }

  /** The file chosen has the largest mtime, and among the files with that
      mtime it has the least name. */
  lemma {:induction false} LatestSpec(files: seq<JournalFile>)
    requires files != []
    ensures forall f :: f in files ==> f.mtime <= Latest(files).value.mtime
    ensures forall f :: f in files && f.mtime == Latest(files).value.mtime ==>
      f.name == Latest(files).value.name || StrLess(Latest(files).value.name, f.name)
  {
    var init := files[..|files| - 1];
    var last := files[|files| - 1];
    assert files == init + [last];
    if init != [] {
      LatestSpec(init);
      var b := Latest(init).value;
      if Newer(last, b) {
        forall f | f in init && f.mtime == last.mtime
          ensures f.name == last.name || StrLess(last.name, f.name)
        {
          if f.name != last.name && f.name != b.name {
            StrLessTransitive(last.name, b.name, f.name);
          }
        }
      } else {
        if last.mtime == b.mtime && last.name != b.name {
          StrLessTotal(last.name, b.name);
        }
      }
    }
  }

  /** `_find_latest_journal` over the directory listing, in one pass. */
  method FindLatestJournal(files: seq<JournalFile>) returns (r: Option<JournalFile>)
    ensures r == Latest(files)
  {
    r := None;
    var i := 0;
    while i < |files|
      invariant 0 <= i <= |files|
      invariant r == Latest(files[..i])
    {
      assert files[..i + 1][..i] == files[..i];
      if r.None? || Newer(files[i], r.value) {
        r := Some(files[i]);
      }
      i := i + 1;
    }
    assert files[..|files|] == files;
  }

  // ---------------------------------------------------------------------
  // `_bootstrap_newest_system`

  /** The size of the file in bytes. */
  function Size(lines: seq<Line>): nat {
    if lines == [] then 0 else Size(lines[..|lines| - 1]) + |lines[|lines| - 1].text|
  }

  /** `max(0, size - max_bytes)` */
  function WindowOffset(lines: seq<Line>): nat {
    if Size(lines) > MaxBytes then Size(lines) - MaxBytes else 0
  }

  /** The index of the line after the one that holds byte `pos`, counting
      from the first of `lines`; `|lines|` when none holds it. */
  function After(lines: seq<Line>, pos: nat): (k: nat)
    ensures k <= |lines|
  {
    if lines == [] then 0
    else if pos < |lines[0].text| then 1
    else 1 + After(lines[1..], pos - |lines[0].text|)
  }

  /** The bytes before line `k`. */
  function Offset(lines: seq<Line>, k: nat): nat
    requires k <= |lines|
  {
    Size(lines[..k])
  }

  lemma {:induction false} SizeFront(lines: seq<Line>)
    requires lines != []
    ensures Size(lines) == |lines[0].text| + Size(lines[1..])
    decreases |lines|
  {
    if |lines| > 1 {
      var init := lines[..|lines| - 1];
      SizeFront(init);
      assert init[1..] == lines[1..][..|lines[1..]| - 1];
      assert init[0] == lines[0];
    } else {
      assert lines[1..] == [];
      assert lines[..0] == [];
    }
  }

  /** The line dropped is the one that holds byte `pos`: it starts at or
      before `pos`, and the first line kept starts after it. */
  lemma {:induction false} AfterSpec(lines: seq<Line>, pos: nat)
    requires pos < Size(lines)
    ensures 0 < After(lines, pos)
    ensures Offset(lines, After(lines, pos) - 1) <= pos < Offset(lines, After(lines, pos))
    decreases |lines|
  {
    SizeFront(lines);
    assert lines[..1] == [lines[0]];
    assert lines[..1][..0] == [];
    var k := After(lines, pos);
    if pos >= |lines[0].text| {
      var rest := lines[1..];
      AfterSpec(rest, pos - |lines[0].text|);
      var j := After(rest, pos - |lines[0].text|);
      OffsetFront(lines, j);
      OffsetFront(lines, j - 1);
    }
  }

  lemma OffsetFront(lines: seq<Line>, j: nat)
    requires lines != [] && j < |lines|
    ensures Offset(lines, j + 1) == |lines[0].text| + Offset(lines[1..], j)
  {
    SizeFront(lines[..j + 1]);
    assert lines[..j + 1][1..] == lines[1..][..j];
  }

  /** The lines `for line in self._fp` reads after the seek: the whole file
      from offset 0, otherwise what follows the partial line at the offset. */
  function Window(lines: seq<Line>): seq<Line> {
    var start := WindowOffset(lines);
    if start > 0 then lines[After(lines, start)..] else lines
  }

  /** The window is a tail of the file; it is the whole file when the file
      fits in 256 KiB, and otherwise starts after the line holding the first
      byte of the last 256 KiB. */
  lemma WindowSpec(lines: seq<Line>)
    ensures Size(lines) <= MaxBytes ==> Window(lines) == lines
    ensures Size(lines) > MaxBytes ==>
      var k := After(lines, Size(lines) - MaxBytes);
      0 < k && Window(lines) == lines[k..]
      && Offset(lines, k - 1) <= Size(lines) - MaxBytes < Offset(lines, k)
  {
    if Size(lines) > MaxBytes {
      AfterSpec(lines, Size(lines) - MaxBytes);
    }
  }

  /** The object a line contributes to the bootstrap, if any: blank lines
      and lines that do not decode to a dict give none. */
  function LineObject(l: Line): Option<Obj> {
    if IsBlank(l.text) then None
    else match l.decoded
      case Some(JObj(o)) => Some(o)
      case _ => None
  }

  /** Every object the lines hold, in order. */
  function AllObjects(ls: seq<Line>): seq<Obj> {
    if ls == [] then []
    else (match LineObject(ls[0]) case Some(o) => [o] case None => []) + AllObjects(ls[1..])
  }

  /** The collecting loop with its `break` once `room` more objects are found. */
  function Collected(ls: seq<Line>, room: nat): seq<Obj>
    requires room >= 1
  {
    if ls == [] then []
    else
      match LineObject(ls[0])
      case None => Collected(ls[1..], room)
      case Some(o) => [o] + (if room == 1 then [] else Collected(ls[1..], room - 1))
  }

  /** The loop collects the first `room` objects of the lines, no more. */
  lemma {:induction false} CollectedIsPrefix(ls: seq<Line>, room: nat)
    requires room >= 1
    ensures Collected(ls, room) == AllObjects(ls)[..if |AllObjects(ls)| < room then |AllObjects(ls)| else room]
  {
    if ls != [] {
      var rest := AllObjects(ls[1..]);
      match LineObject(ls[0])
      case None =>
        CollectedIsPrefix(ls[1..], room);
        assert AllObjects(ls) == rest;
      case Some(o) =>
        assert AllObjects(ls) == [o] + rest;
        if room > 1 {
          CollectedIsPrefix(ls[1..], room - 1);
          var n := if |rest| < room - 1 then |rest| else room - 1;
          assert ([o] + rest)[..n + 1] == [o] + rest[..n];
        } else {
          assert ([o] + rest)[..1] == [o];
        }
    }
  }

  /** The `for line in self._fp` loop. */
  method CollectWindow(ls: seq<Line>) returns (events: seq<Obj>)
    ensures events == Collected(ls, MaxEvents)
  {
    events := [];
    var i := 0;
    while i < |ls|
      invariant 0 <= i <= |ls|
      invariant |events| < MaxEvents
      invariant events + Collected(ls[i..], MaxEvents - |events|) == Collected(ls, MaxEvents)
    {
      assert ls[i..][1..] == ls[i + 1..];
      var o := LineObject(ls[i]);
      if o.Some? {
        events := events + [o.value];
        if |events| >= MaxEvents {
          return;
        }
      }
      i := i + 1;
    }
  }

  /** A record that opens a system: `Location` or `FSDJump`. */
  predicate IsAnchor(evt: Obj) {
    Get(evt, EventKey) == JStr(LocationEvent) || Get(evt, EventKey) == JStr(FSDJumpEvent)
  }

  /** The last anchor among the first `n` records. */
  function LastAnchor(events: seq<Obj>, n: nat): (r: Option<nat>)
    requires n <= |events|
    ensures r.Some? ==> r.value < n
  {
    if n == 0 then None
    else if IsAnchor(events[n - 1]) then Some(n - 1)
    else LastAnchor(events, n - 1)
  }

  /** The last anchor, when there is one, is an anchor after which none
      follows; without one no record is an anchor. */
  lemma {:induction false} LastAnchorSpec(events: seq<Obj>, n: nat)
    requires n <= |events|
    ensures LastAnchor(events, n).Some? ==> LastAnchor(events, n).value < n && IsAnchor(events[LastAnchor(events, n).value])
    ensures LastAnchor(events, n).Some? ==> forall j :: LastAnchor(events, n).value < j < n ==> !IsAnchor(events[j])
    ensures LastAnchor(events, n).None? ==> forall j :: 0 <= j < n ==> !IsAnchor(events[j])
  {
    if n > 0 && !IsAnchor(events[n - 1]) {
      LastAnchorSpec(events, n - 1);
    }
  }

  /** `anchor`: the index of the last anchor, 0 when there is none. */
  function Anchor(events: seq<Obj>): (r: nat)
    ensures r <= |events|
  {
    match LastAnchor(events, |events|)
    case Some(i) => i
    case None => 0
  }

  /** The backwards search for the anchor. */
  method FindAnchor(events: seq<Obj>) returns (anchor: nat)
    ensures anchor == Anchor(events)
  {
    anchor := 0;
    var i := |events|;
    while i > 0
      invariant 0 <= i <= |events|
      invariant LastAnchor(events, |events|) == LastAnchor(events, i)
    {
      if IsAnchor(events[i - 1]) {
        anchor := i - 1;
        return;
      }
      i := i - 1;
    }
  }

  /** What the bootstrap emits: the records from the last anchor on, then the
      count; nothing at all when no record was collected. */
  function BootstrapOut(lines: seq<Line>): seq<Signal> {
    var events := Collected(Window(lines), MaxEvents);
    if events == [] then []
    else
      var fwd := events[Anchor(events)..];
      Events(fwd) + [Status(BootstrappedMsg(|fwd|))]
  }

  /** `self.event_received.emit(evt)` for each record, in order. */
  function Events(es: seq<Obj>): seq<Signal> {
    if es == [] then [] else [EventReceived(es[0])] + Events(es[1..])
  }

  /** One signal per record, the i-th carrying the i-th record. */
  lemma {:induction false} EventsSpec(es: seq<Obj>)
    ensures |Events(es)| == |es|
    ensures forall i :: 0 <= i < |es| ==> Events(es)[i] == EventReceived(es[i])
  {
    if es != [] {
      EventsSpec(es[1..]);
    }
  }

  /** The records forwarded start at the last anchor and hold no other
      anchor; without an anchor every collected record is forwarded. */
  lemma ForwardedSpec(events: seq<Obj>)
    requires events != []
    ensures LastAnchor(events, |events|).Some? ==>
      IsAnchor(events[Anchor(events)..][0]) && forall j :: 0 < j < |events[Anchor(events)..]| ==> !IsAnchor(events[Anchor(events)..][j])
    ensures LastAnchor(events, |events|).None? ==> events[Anchor(events)..] == events
  {
    LastAnchorSpec(events, |events|);
    if LastAnchor(events, |events|).Some? {
      var a := Anchor(events);
      forall j | 0 < j < |events[a..]| ensures !IsAnchor(events[a..][j]) {
        assert events[a..][j] == events[a + j];
      }
    }
  }

  /** At most 800 records are forwarded, each the dict of a line of the
      window, in order; the window's later records are never forwarded. */
  lemma BootstrapBound(lines: seq<Line>)
    ensures |Collected(Window(lines), MaxEvents)| <= MaxEvents
    ensures Collected(Window(lines), MaxEvents) <= AllObjects(Window(lines))
    ensures Collected(Window(lines), MaxEvents) == []  ==> BootstrapOut(lines) == []
  {
    CollectedIsPrefix(Window(lines), MaxEvents);
  }

  /** The forwarding loop `for evt in events[anchor:]`. */
  method Forward(events: seq<Obj>, anchor: nat) returns (out: seq<Signal>, emitted: nat)
    requires anchor <= |events|
    ensures out == Events(events[anchor..]) && emitted == |events| - anchor
  {
    out := [];
    emitted := 0;
    var i := anchor;
    while i < |events|
      invariant anchor <= i <= |events|
      invariant emitted == i - anchor
      invariant out == Events(events[anchor..i])
    {
      EventsSnoc(events[anchor..i], events[i]);
      assert events[anchor..i + 1] == events[anchor..i] + [events[i]];
      out := out + [EventReceived(events[i])];
      emitted := emitted + 1;
      i := i + 1;
    }
    assert events[anchor..i] == events[anchor..];
  }

  /** `_bootstrap_newest_system`'s emissions. */
  method Bootstrap(lines: seq<Line>) returns (out: seq<Signal>)
    ensures out == BootstrapOut(lines)
  {
    var events := CollectWindow(Window(lines));
    if events == [] {
      return [];
    }
    var anchor := FindAnchor(events);
    var emitted;
    out, emitted := Forward(events, anchor);
    out := out + [Status(BootstrappedMsg(emitted))];
  }

  lemma {:induction false} EventsSnoc(es: seq<Obj>, e: Obj)
    ensures Events(es + [e]) == Events(es) + [EventReceived(e)]
  {
    EventsSpec(es);
    EventsSpec(es + [e]);
  }

  // ---------------------------------------------------------------------
  // The tail loop

  /** What one line read while tailing emits: an undecodable line one error,
      a dict the record, anything else nothing. */
  function LineOut(l: Line): seq<Signal> {
    match l.decoded
    case None => [Error(BadLineMsg)]
    case Some(JObj(o)) => [EventReceived(o)]
    case Some(_) => []
  }

  /** The fields of the watcher: `_running`, `_no_journal_notice`,
      `_current_file`, whether `_fp` is open, and how many lines of the
      current file have been read. */
  datatype WState = WState(running: bool, notice: bool, current: Option<string>, open: bool, pos: nat)

  /** `_switch_to(f)`: the old file is closed, the new one becomes current;
      when it opens, the bootstrap runs, reading resumes at its end and
      "Tailing" is reported; when opening fails, the loop reports an error
      and nothing is read from it until another file becomes the newest. */
  function Switch(s: WState, f: JournalFile): (WState, seq<Signal>) {
    if !f.readable then (s.(current := Some(f.name), open := false, pos := 0), [Error(LoopErrorMsg)])
    else (s.(current := Some(f.name), open := true, pos := |f.lines|), BootstrapOut(f.lines) + [Status(TailingMsg(f.name))])
  }

  /** `self._fp.readline()` and what the line emits. */
  function ReadNext(s: WState, f: JournalFile): (WState, seq<Signal>) {
    if !s.open || s.pos >= |f.lines| then (s, [])
    else (s.(pos := s.pos + 1), LineOut(f.lines[s.pos]))
  }

  /** One iteration of the `while self._running` loop over the directory
      listing `files`. */
  function Poll(s: WState, files: seq<JournalFile>): (WState, seq<Signal>) {
    match Latest(files)
    case None =>
      if s.notice then (s, []) else (s.(notice := true), [Status(NoJournalMsg)])
    case Some(f) =>
      var s1 := s.(notice := false);
      var sw := if s1.current != Some(f.name) then Switch(s1, f) else (s1, []);
      var rd := ReadNext(sw.0, f);
      (rd.0, sw.1 + rd.1)
  }

  /** A poll with no journal emits the notice only when it is not already
      given, and a poll with a journal re-arms it. */
  lemma PollNotice(s: WState, files: seq<JournalFile>)
    ensures files == [] ==> Poll(s, files).0 == s.(notice := true)
    ensures files == [] ==> Poll(s, files).1 == if s.notice then [] else [Status(NoJournalMsg)]
    ensures files != [] ==> !Poll(s, files).0.notice
  {
  }

  /** A stretch of polls without a journal gives the notice at most once. */
  lemma {:induction false} AbsenceStretch(s: WState, n: nat)
    ensures Polls(s, seq(n, _ => [])).1 == if s.notice || n == 0 then [] else [Status(NoJournalMsg)]
    ensures n > 0 ==> Polls(s, seq(n, _ => [])).0 == s.(notice := true)
  {
    if n > 0 {
      var ps: seq<seq<JournalFile>> := seq(n, _ => []);
      assert ps == ps[..n - 1] + [ps[n - 1]];
      assert ps[..n - 1] == seq(n - 1, _ => []);
      AbsenceStretch(s, n - 1);
      if n > 1 {
        assert Polls(s, ps[..n - 1]).0 == s.(notice := true);
      }
    }
  }

  /** The state and the signals after a sequence of polls. */
  function Polls(s: WState, ps: seq<seq<JournalFile>>): (WState, seq<Signal>) {
    if ps == [] then (s, [])
    else
      var before := Polls(s, ps[..|ps| - 1]);
      var step := Poll(before.0, ps[|ps| - 1]);
      (step.0, before.1 + step.1)
  }

  /** A newest file other than the current one is bootstrapped and then
      tailed from its end. */
  lemma Rotation(s: WState, files: seq<JournalFile>)
    requires Latest(files).Some? && Latest(files).value.readable
    requires s.current != Some(Latest(files).value.name)
    ensures var f := Latest(files).value;
      Poll(s, files).0 == WState(s.running, false, Some(f.name), true, |f.lines|)
      && Poll(s, files).1 == BootstrapOut(f.lines) + [Status(TailingMsg(f.name))]
  {
    var f := Latest(files).value;
    assert BootstrapOut(f.lines) + [Status(TailingMsg(f.name))] + [] == BootstrapOut(f.lines) + [Status(TailingMsg(f.name))];
  }

  /** While the same file stays the newest, each poll reads at most one new
      line: a bad one gives exactly one error, a non-dict nothing. */
  lemma Tailing(s: WState, files: seq<JournalFile>)
    requires Latest(files).Some? && s.current == Some(Latest(files).value.name)
    requires s.open && s.pos < |Latest(files).value.lines|
    ensures var l := Latest(files).value.lines[s.pos];
      Poll(s, files).0 == s.(notice := false, pos := s.pos + 1)
      && (l.decoded.None? ==> Poll(s, files).1 == [Error(BadLineMsg)])
      && (l.decoded.Some? && !l.decoded.value.JObj? ==> Poll(s, files).1 == [])
  {
  }

  /** What the loop is driven by: a poll of the directory, or `stop()`
      called from another thread between two iterations. */
  datatype Tick = PollTick(files: seq<JournalFile>) | StopTick

  /** One tick: `stop()` clears `_running`, a poll runs one iteration. */
  function Step(s: WState, t: Tick): (WState, seq<Signal>) {
    match t
    case StopTick => (s.(running := false), [])
    case PollTick(files) => Poll(s, files)
  }

  /** `while self._running` after the first `n` ticks. */
  function Ran(s: WState, ticks: seq<Tick>, n: nat): (WState, seq<Signal>)
    requires n <= |ticks|
    decreases n, 1
  {
    if n == 0 then (s, []) else Taken(s, ticks, n)
  }

  /** The `n`-th tick: taken only while `_running` is still set after the
      ticks before it. */
  function Taken(s: WState, ticks: seq<Tick>, n: nat): (WState, seq<Signal>)
    requires 0 < n <= |ticks|
    decreases n, 0
  {
    var before := Ran(s, ticks, n - 1);
    if !before.0.running then before
    else
      var step := Step(before.0, ticks[n - 1]);
      (step.0, before.1 + step.1)
  }

  /** A tick taken while running is one step after the ticks before it. */
  lemma RanNext(s: WState, before: seq<Signal>, ticks: seq<Tick>, i: nat)
    requires i < |ticks| && Ran(s, ticks, i).0.running
    ensures Ran(s, ticks, i + 1).0 == Step(Ran(s, ticks, i).0, ticks[i]).0
    ensures before + Ran(s, ticks, i + 1).1 == before + Ran(s, ticks, i).1 + Step(Ran(s, ticks, i).0, ticks[i]).1
  {
    var r := Ran(s, ticks, i);
    var step := Step(r.0, ticks[i]);
    assert before + (r.1 + step.1) == before + r.1 + step.1;
  }

  /** Once `_running` is cleared no later tick changes the state or emits. */
  lemma {:induction false} RanStopped(s: WState, ticks: seq<Tick>, i: nat, j: nat)
    requires i <= j <= |ticks|
    requires !Ran(s, ticks, i).0.running
    ensures Ran(s, ticks, j) == Ran(s, ticks, i)
    decreases j
  {
    if j > i {
      RanStopped(s, ticks, i, j - 1);
    }
  }

  /** The loop over all the ticks it may see. */
  function RunTicks(s: WState, ticks: seq<Tick>): (WState, seq<Signal>) {
    Ran(s, ticks, |ticks|)
  }

  /** After `stop()` nothing more is emitted: the signals are those before
      it, and the loop ends with `_running` cleared. */
  lemma StopEnds(s: WState, ticks: seq<Tick>, i: nat)
    requires i < |ticks| && ticks[i] == StopTick
    ensures RunTicks(s, ticks).1 == Ran(s, ticks, i).1
    ensures !RunTicks(s, ticks).0.running
  {
    RanStopped(s, ticks, i + 1, |ticks|);
  }

  /** A loop that is not running sees no tick at all. */
  lemma NotRunning(s: WState, ticks: seq<Tick>)
    requires !s.running
    ensures RunTicks(s, ticks) == (s, [])
  {
    RanStopped(s, ticks, 0, |ticks|);
  }

  /** `run()`: "Watching" is reported, the loop runs, the file is closed. */
  function RunSpec(s: WState, dir: string, ticks: seq<Tick>): (WState, seq<Signal>) {
    var r := RunTicks(s.(running := true), ticks);
    (r.0.(open := false), [Status(WatchingMsg(dir))] + r.1)
  }

  // ---------------------------------------------------------------------
  // The watcher object

  class Watcher {
    const journalDir: string
    var running: bool
    var noJournalNotice: bool
    var currentFile: Option<string>
    var fpOpen: bool
    var pos: nat
    /** Every signal emitted so far, in order. */
    var emitted: seq<Signal>

    function Snap(): WState
      reads this
    {
      WState(running, noJournalNotice, currentFile, fpOpen, pos)
    }

    constructor(dir: string)
      ensures journalDir == dir
      ensures Snap() == WState(false, false, None, false, 0) && emitted == []
    {
      journalDir := dir;
      running := false;
      noJournalNotice := false;
      currentFile := None;
      fpOpen := false;
      pos := 0;
      emitted := [];
    }

    /** `stop()` */
    method Stop()
      modifies this
      ensures Snap() == old(Snap()).(running := false)
      ensures emitted == old(emitted)
    {
      running := false;
    }

    method SwitchTo(f: JournalFile)
      modifies this
      ensures Snap() == Switch(old(Snap()), f).0
      ensures emitted == old(emitted) + Switch(old(Snap()), f).1
    {
      fpOpen := false;
      currentFile := Some(f.name);
      if !f.readable {
        pos := 0;
        emitted := emitted + [Error(LoopErrorMsg)];
        return;
      }
      fpOpen := true;
      var out := Bootstrap(f.lines);
      pos := |f.lines|;
      emitted := emitted + out + [Status(TailingMsg(f.name))];
    }

    /** One iteration of the loop. */
    method PollOnce(files: seq<JournalFile>)
      modifies this
      ensures Snap() == Poll(old(Snap()), files).0
      ensures emitted == old(emitted) + Poll(old(Snap()), files).1
    {
      var latest := FindLatestJournal(files);
      if latest.None? {
        if !noJournalNotice {
          emitted := emitted + [Status(NoJournalMsg)];
          noJournalNotice := true;
        }
        return;
      }
      var f := latest.value;
      noJournalNotice := false;
      ghost var s1 := Snap();
      ghost var e1 := emitted;
      if currentFile != Some(f.name) {
        SwitchTo(f);
      }
      assert Snap() == (if s1.current != Some(f.name) then Switch(s1, f) else (s1, [])).0;
      ghost var e2 := emitted;
      if fpOpen && pos < |f.lines| {
        var l := f.lines[pos];
        pos := pos + 1;
        emitted := emitted + LineOut(l);
      }
    }

    /** One tick of the loop. */
    method TickOnce(t: Tick)
      modifies this
      ensures Snap() == Step(old(Snap()), t).0
      ensures emitted == old(emitted) + Step(old(Snap()), t).1
    {
      match t {
        case StopTick =>
          Stop();
        case PollTick(files) =>
          PollOnce(files);
      }
    }

    /** The body of `while self._running` as the `i`-th tick, continuing
        the loop begun in state `start` after signals `before`. */
    method Iterate(ghost start: WState, ghost before: seq<Signal>, ticks: seq<Tick>, i: nat)
      requires i < |ticks| && running
      requires Snap() == Ran(start, ticks, i).0 && emitted == before + Ran(start, ticks, i).1
      modifies this
      ensures Snap() == Ran(start, ticks, i + 1).0
      ensures emitted == before + Ran(start, ticks, i + 1).1
    {
      RanNext(start, before, ticks, i);
      TickOnce(ticks[i]);
    }

    /** `while self._running`, over the ticks the loop sees. */
    method Loop(ticks: seq<Tick>)
      modifies this
      ensures Snap() == RunTicks(old(Snap()), ticks).0
      ensures emitted == old(emitted) + RunTicks(old(Snap()), ticks).1
    {
      var i := 0;
      while running && i < |ticks|
        invariant i <= |ticks|
        invariant Snap() == Ran(old(Snap()), ticks, i).0
        invariant emitted == old(emitted) + Ran(old(Snap()), ticks, i).1
        decreases |ticks| - i
      {
        Iterate(old(Snap()), old(emitted), ticks, i);
        i := i + 1;
      }
      if i < |ticks| {
        RanStopped(old(Snap()), ticks, i, |ticks|);
      }
    }

    /** `run()`: "Watching" is reported, the loop runs, the file is closed. */
    method Run(ticks: seq<Tick>)
      modifies this
      ensures Snap() == RunSpec(old(Snap()), journalDir, ticks).0
      ensures emitted == old(emitted) + RunSpec(old(Snap()), journalDir, ticks).1
    {
      running := true;
      emitted := emitted + [Status(WatchingMsg(journalDir))];
      Loop(ticks);
      fpOpen := false;
    }
  }
}
