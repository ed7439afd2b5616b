/** The JSONL audit logger of logger.py. `log` puts a record on an unbounded
    queue; a worker thread takes records off the queue one at a time and
    appends each, serialised and followed by a newline, to the file named
    after the current date; `close` sets a stop flag and joins the worker.

    The worker thread is driven here one loop iteration at a time
    (`WorkerStep`), so every interleaving of `log`, worker iterations and
    `close` is a sequence of events. The state machine is given by functions
    on `LoggerState`, which the methods of `JsonlLogger` follow exactly, and
    the lemmas below are about runs of events. */
module Logger {
  import opened Wrappers

  // ---------------------------------------------------------------------------
  // Dated file names: `datetime.now().strftime("%Y-%m-%d") + ".jsonl"`
  // ---------------------------------------------------------------------------

  /** A calendar date as `datetime` holds it. */
  datatype Ymd = Ymd(year: nat, month: nat, day: nat)

  /** Leap years of the proleptic Gregorian calendar `datetime` uses. */
  predicate IsLeapYear(year: nat)
  {
    year % 4 == 0 && (year % 100 != 0 || year % 400 == 0)
  }

  /** The number of days in a month. */
  function DaysInMonth(year: nat, month: nat): (n: nat)
    requires 1 <= month <= 12
    ensures 28 <= n <= 31
    ensures n == 29 <==> month == 2 && IsLeapYear(year)
  {
    if month == 2 then (if IsLeapYear(year) then 29 else 28)
    else if month == 4 || month == 6 || month == 9 || month == 11 then 30
    else 31
  }

  /** The dates `datetime` allows: years 1 to 9999, and days within their
      month. */
  predicate IsDate(d: Ymd)
  {
    1 <= d.year <= 9999 && 1 <= d.month <= 12 && 1 <= d.day <= DaysInMonth(d.year, d.month)
  }

  type Date = d: Ymd | IsDate(d)
    witness Ymd(1970, 1, 1)

  function Pow10(n: nat): (p: nat)
    ensures p >= 1
  {
    if n == 0 then 1 else 10 * Pow10(n - 1)
  }

  predicate IsDigit(c: char)
  {
    '0' <= c <= '9'
  }

  predicate AllDigits(s: string)
  {
    forall i :: 0 <= i < |s| ==> IsDigit(s[i])
  }

  function DigitChar(n: nat): (c: char)
    requires n < 10
    ensures IsDigit(c) && c as int - '0' as int == n
  {
    (n + '0' as int) as char
  }

  /** `n` in decimal, zero-padded on the left to `width` digits, as `%Y`,
      `%m` and `%d` print it. */
  function Padded(n: nat, width: nat): (s: string)
    requires n < Pow10(width)
    ensures |s| == width && AllDigits(s)
  {
    if width == 0 then ""
    else Padded(n / 10, width - 1) + [DigitChar(n % 10)]
  }

  /** The number a string of decimal digits spells. */
  function DigitsValue(s: string): nat
    requires AllDigits(s)
  {
    if s == [] then 0
    else 10 * DigitsValue(s[..|s| - 1]) + (s[|s| - 1] as int - '0' as int)
  }

  /** Reading the padded digits back gives the number. */
  lemma {:induction false} PaddedValue(n: nat, width: nat)
    requires n < Pow10(width)
    ensures DigitsValue(Padded(n, width)) == n
  {
    if width > 0 {
      var s := Padded(n, width);
      assert s[..|s| - 1] == Padded(n / 10, width - 1);
      PaddedValue(n / 10, width - 1);
    }
  }

  const LogSuffix: string := ".jsonl"

  /** The name of the log file for a day: `YYYY-MM-DD.jsonl`. */
  function FileName(d: Date): (name: string)
    ensures |name| == 16 && name[4] == '-' && name[7] == '-' && name[10..] == LogSuffix
    ensures AllDigits(name[..4]) && AllDigits(name[5..7]) && AllDigits(name[8..10])
  {
    Padded(d.year, 4) + "-" + Padded(d.month, 2) + "-" + Padded(d.day, 2) + LogSuffix
  }

  /** Reads a log file name back into the date it is named after. */
  function ParseFileName(name: string): Option<Date>
  {
    if |name| == 16 && name[4] == '-' && name[7] == '-' && name[10..] == LogSuffix &&
       AllDigits(name[..4]) && AllDigits(name[5..7]) && AllDigits(name[8..10])
    then
      var d := Ymd(DigitsValue(name[..4]), DigitsValue(name[5..7]), DigitsValue(name[8..10]));
      if IsDate(d) then Some(d) else None
    else None
  }

  /** The file name says which day it belongs to. */
  lemma FileNameRoundTrip(d: Date)
    ensures ParseFileName(FileName(d)) == Some(d)
  {
    var name := FileName(d);
    assert name[..4] == Padded(d.year, 4);
    assert name[5..7] == Padded(d.month, 2);
    assert name[8..10] == Padded(d.day, 2);
    PaddedValue(d.year, 4);
    PaddedValue(d.month, 2);
    PaddedValue(d.day, 2);
  }

  /** Different days are logged to different files. */
  lemma FileNameInjective(d1: Date, d2: Date)
    requires FileName(d1) == FileName(d2)
    ensures d1 == d2
  {
    FileNameRoundTrip(d1);
    FileNameRoundTrip(d2);
  }

  // ---------------------------------------------------------------------------
  // The logger as a state machine
  // ---------------------------------------------------------------------------

  /** What the worker writes for one record: `orjson.dumps(data)` and then
      `b"\n"`. `dumps` stands for the serialiser. */
  function Line<T>(dumps: T -> string, record: T): string
  {
    dumps(record) + "\n"
  }

  /** The lines of a file, or none when the file does not exist. */
  function Lines(files: map<string, seq<string>>, name: string): seq<string>
  {
    if name in files then files[name] else []
  }

  /** Opening `name` in append mode and writing one line to it. */
  function AppendLine(files: map<string, seq<string>>, name: string, line: string): (r: map<string, seq<string>>)
    ensures r.Keys == files.Keys + {name}
    ensures r[name] == Lines(files, name) + [line]
    ensures forall other :: other in files && other != name ==> r[other] == files[other]
  {
    files[name := Lines(files, name) + [line]]
  }

  /** The logger's state: the pending queue, the log directory's files (each
      a sequence of lines), the stop event, and whether the worker thread's
      loop is still going. */
  datatype LoggerState<T> = LoggerState(
    queue: seq<T>,
    files: map<string, seq<string>>,
    stopped: bool,
    running: bool)

  /** `log(data)`: `self._queue.put(data)` on an unbounded queue. */
  function AfterLog<T>(s: LoggerState<T>, record: T): LoggerState<T>
  {
    s.(queue := s.queue + [record])
  }

  /** One iteration of `_worker`'s loop, on `date`. The stop flag is checked
      at the top; an empty queue makes `get` time out and the loop go round
      again; otherwise the head is taken off the queue and its line appended
      to the day's file. `fault` says that opening or writing the file raised:
      nothing catches that, so the thread ends with the record taken off the
      queue and not written. Once the loop has ended, nothing happens.
      The branch where the flag is set while the loop still runs stands for
      the loop leaving at its flag check (logger.py:26); `AfterClose` ends
      the loop in the same event that sets the flag, so a logger that starts
      with the flag clear never reaches it. */
  function AfterWorkerStep<T>(s: LoggerState<T>, dumps: T -> string, date: Date, fault: bool): LoggerState<T>
  {
    if !s.running then s
    else if s.stopped then s.(running := false)
    else if s.queue == [] then s
    else if fault then s.(queue := s.queue[1..], running := false)
    else s.(queue := s.queue[1..], files := AppendLine(s.files, FileName(date), Line(dumps, s.queue[0])))
  }

  /** `close()`: the stop event is set and the worker joined. The worker sees
      the flag at the top of its loop and leaves it; nothing drains the queue. */
  function AfterClose<T>(s: LoggerState<T>): LoggerState<T>
  {
    s.(stopped := true, running := false)
  }

  /** What can happen to a logger: a `log` call, one iteration of the
      worker's loop, or a `close` call. */
  datatype Event<T> = LogCall(record: T) | WorkerIteration(date: Date, fault: bool) | CloseCall

  function Step<T>(s: LoggerState<T>, dumps: T -> string, e: Event<T>): LoggerState<T>
  {
    match e
    case LogCall(r) => AfterLog(s, r)
    case WorkerIteration(date, fault) => AfterWorkerStep(s, dumps, date, fault)
    case CloseCall => AfterClose(s)
  }

  /** The state after a sequence of events. */
  function Run<T>(s: LoggerState<T>, dumps: T -> string, events: seq<Event<T>>): LoggerState<T>
    decreases |events|
  {
    if events == [] then s else Run(Step(s, dumps, events[0]), dumps, events[1..])
  }

  /** The records passed to `log`, in call order. */
  function Logged<T>(events: seq<Event<T>>): seq<T>
  {
    if events == [] then []
    else (if events[0].LogCall? then [events[0].record] else []) + Logged(events[1..])
  }

  /** A write the worker completed: the file and the record. */
  datatype Write<T> = Write(file: string, record: T)

  /** The write one event performs, if any. */
  function WriteOf<T>(s: LoggerState<T>, e: Event<T>): seq<Write<T>>
  {
    if e.WorkerIteration? && s.running && !s.stopped && s.queue != [] && !e.fault
    then [Write(FileName(e.date), s.queue[0])]
    else []
  }

  /** The record one event takes off the queue without writing it, if any. */
  function DropOf<T>(s: LoggerState<T>, e: Event<T>): seq<T>
  {
    if e.WorkerIteration? && s.running && !s.stopped && s.queue != [] && e.fault
    then [s.queue[0]]
    else []
  }

  /** The writes completed during a run, in order. */
  function Written<T>(s: LoggerState<T>, dumps: T -> string, events: seq<Event<T>>): seq<Write<T>>
    decreases |events|
  {
    if events == [] then []
    else WriteOf(s, events[0]) + Written(Step(s, dumps, events[0]), dumps, events[1..])
  }

  /** The records taken off the queue during a run and never written. */
  function Dropped<T>(s: LoggerState<T>, dumps: T -> string, events: seq<Event<T>>): seq<T>
    decreases |events|
  {
    if events == [] then []
    else DropOf(s, events[0]) + Dropped(Step(s, dumps, events[0]), dumps, events[1..])
  }

  function Records<T>(writes: seq<Write<T>>): seq<T>
  {
    if writes == [] then [] else [writes[0].record] + Records(writes[1..])
  }

  /** The files after the given writes, made one after the other. */
  function ApplyWrites<T>(files: map<string, seq<string>>, dumps: T -> string, writes: seq<Write<T>>): map<string, seq<string>>
    decreases |writes|
  {
    if writes == [] then files
    else ApplyWrites(AppendLine(files, writes[0].file, Line(dumps, writes[0].record)), dumps, writes[1..])
  }

  /** The lines the given writes put into file `name`, in order. */
  function LinesTo<T>(dumps: T -> string, writes: seq<Write<T>>, name: string): seq<string>
  {
    if writes == [] then []
    else (if writes[0].file == name then [Line(dumps, writes[0].record)] else []) + LinesTo(dumps, writes[1..], name)
  }

  /** The records a `log` event adds to the queue. */
  function Added<T>(e: Event<T>): seq<T>
  {
    if e.LogCall? then [e.record] else []
  }

  /** Once the worker's loop has ended, one event writes and takes nothing. */
  lemma HaltedStep<T>(s: LoggerState<T>, dumps: T -> string, e: Event<T>)
    requires !s.running
    ensures var t := Step(s, dumps, e);
      !t.running && t.files == s.files && t.queue == s.queue + Added(e) &&
      WriteOf(s, e) == [] && DropOf(s, e) == []
  {
  }

  /** Once the worker's loop has ended, no event writes or takes anything: the
      files stay as they are and every logged record stays queued. */
  lemma {:induction false} HaltedWorkerIsInert<T>(s: LoggerState<T>, dumps: T -> string, events: seq<Event<T>>)
    requires !s.running
    ensures var t := Run(s, dumps, events);
      !t.running && t.files == s.files && t.queue == s.queue + Logged(events) &&
      Written(s, dumps, events) == [] && Dropped(s, dumps, events) == []
    decreases |events|
  {
    if events != [] {
      var e, rest := events[0], events[1..];
      var s' := Step(s, dumps, e);
      HaltedStep(s, dumps, e);
      HaltedWorkerIsInert(s', dumps, rest);
      assert Logged(events) == Added(e) + Logged(rest);
      assert s.queue + Logged(events) == s'.queue + Logged(rest);
    }
  }

  /** One event, in isolation: the records it adds to the queue are matched
      by what it writes, what it drops and what it leaves queued; its effect
      on the files is its write. */
  lemma StepAccounting<T>(s: LoggerState<T>, dumps: T -> string, e: Event<T>)
    ensures var t := Step(s, dumps, e);
      s.queue + Added(e) == Records(WriteOf(s, e)) + DropOf(s, e) + t.queue &&
      t.files == ApplyWrites(s.files, dumps, WriteOf(s, e)) &&
      (DropOf(s, e) != [] ==> !t.running)
  {
    match e
    case LogCall(r) =>
      assert WriteOf(s, e) == [] && DropOf(s, e) == [];
    case CloseCall =>
      assert WriteOf(s, e) == [] && DropOf(s, e) == [];
    case WorkerIteration(date, fault) =>
      var t := AfterWorkerStep(s, dumps, date, fault);
      if !s.running || s.stopped || s.queue == [] {
        assert WriteOf(s, e) == [] && DropOf(s, e) == [];
        assert t.queue == s.queue && t.files == s.files;
      } else if fault {
        assert WriteOf(s, e) == [] && DropOf(s, e) == [s.queue[0]];
        assert s.queue == [s.queue[0]] + t.queue;
      } else {
        var w := Write(FileName(date), s.queue[0]);
        assert WriteOf(s, e) == [w] && DropOf(s, e) == [];
        assert Records([w]) == [s.queue[0]];
        assert s.queue == [s.queue[0]] + t.queue;
        assert ApplyWrites(s.files, dumps, [w]) == ApplyWrites(t.files, dumps, []);
      }
  }

  /** Nothing is lost or duplicated: the records queued at the start and the
      records logged during a run are, in order, the records written, then at
      most one record a failing write took off the queue, then the records
      still queued. */
  lemma {:induction false} RunAccounting<T>(s: LoggerState<T>, dumps: T -> string, events: seq<Event<T>>)
    ensures s.queue + Logged(events)
         == Records(Written(s, dumps, events)) + Dropped(s, dumps, events) + Run(s, dumps, events).queue
    ensures |Dropped(s, dumps, events)| <= 1
    decreases |events|
  {
    if events != [] {
      var e, rest := events[0], events[1..];
      var s' := Step(s, dumps, e);
      StepAccounting(s, dumps, e);
      RunAccounting(s', dumps, rest);
      RecordsAppend(WriteOf(s, e), Written(s', dumps, rest));
      var added := Added(e);
      assert Logged(events) == added + Logged(rest);
      if DropOf(s, e) != [] {
        HaltedWorkerIsInert(s', dumps, rest);
      }
      SplicePieces(s.queue, added, Logged(rest),
                   Records(WriteOf(s, e)), DropOf(s, e), s'.queue,
                   Records(Written(s', dumps, rest)), Dropped(s', dumps, rest), Run(s', dumps, rest).queue);
    }
  }

  /** The sequence algebra behind `RunAccounting`: splitting the first event
      off a run and splicing its pieces with those of the rest. */
  lemma SplicePieces<T>(q: seq<T>, added: seq<T>, later: seq<T>,
                        w1: seq<T>, d1: seq<T>, q1: seq<T>,
                        w2: seq<T>, d2: seq<T>, q2: seq<T>)
    requires q + added == w1 + d1 + q1
    requires q1 + later == w2 + d2 + q2
    requires d1 != [] ==> w2 == [] && d2 == []
    ensures q + (added + later) == (w1 + w2) + (d1 + d2) + q2
  {
    calc {
      q + (added + later);
      (q + added) + later;
      (w1 + d1 + q1) + later;
      w1 + d1 + (q1 + later);
      w1 + d1 + (w2 + d2 + q2);
    }
    if d1 != [] {
      assert w1 + w2 == w1 && d1 + d2 == d1;
    } else {
      assert w1 + d1 + (w2 + d2 + q2) == (w1 + w2) + d2 + q2;
    }
  }

  lemma {:induction false} RecordsAppend<T>(a: seq<Write<T>>, b: seq<Write<T>>)
    ensures Records(a + b) == Records(a) + Records(b)
  {
    if a == [] {
      assert a + b == b;
    } else {
      assert (a + b)[1..] == a[1..] + b;
      RecordsAppend(a[1..], b);
    }
  }

  /** The files after a run are the starting files with the run's writes
      applied in order. */
  lemma {:induction false} RunFiles<T>(s: LoggerState<T>, dumps: T -> string, events: seq<Event<T>>)
    ensures Run(s, dumps, events).files == ApplyWrites(s.files, dumps, Written(s, dumps, events))
    decreases |events|
  {
    if events != [] {
      var e, rest := events[0], events[1..];
      var s' := Step(s, dumps, e);
      StepAccounting(s, dumps, e);
      RunFiles(s', dumps, rest);
      if WriteOf(s, e) == [] {
        assert Written(s, dumps, events) == Written(s', dumps, rest);
      } else {
        assert Written(s, dumps, events) == WriteOf(s, e) + Written(s', dumps, rest);
        assert (WriteOf(s, e) + Written(s', dumps, rest))[1..] == Written(s', dumps, rest);
      }
    }
  }

  /** FIFO: the records reach the files in the order they were queued and
      logged, each at most once. */
  lemma WritesFollowLogOrder<T>(s: LoggerState<T>, dumps: T -> string, events: seq<Event<T>>)
    ensures Records(Written(s, dumps, events)) <= s.queue + Logged(events)
  {
    RunAccounting(s, dumps, events);
  }

  /** What the writes leave in one file: its old lines, then one line per
      record written to it, in write order; no other file changes. */
  lemma {:induction false} ApplyWritesLines<T>(files: map<string, seq<string>>, dumps: T -> string,
                                               writes: seq<Write<T>>, name: string)
    ensures Lines(ApplyWrites(files, dumps, writes), name) == Lines(files, name) + LinesTo(dumps, writes, name)
    decreases |writes|
  {
    if writes != [] {
      var w := writes[0];
      var files' := AppendLine(files, w.file, Line(dumps, w.record));
      ApplyWritesLines(files', dumps, writes[1..], name);
      assert Lines(files', name) == Lines(files, name) + (if w.file == name then [Line(dumps, w.record)] else []);
    }
  }

  /** Log files are append-only: after any run, each file holds its earlier
      lines followed by the lines of the records written to it, one line per
      record, in the order the worker wrote them. */
  lemma LogFileContents<T>(s: LoggerState<T>, dumps: T -> string, events: seq<Event<T>>, name: string)
    ensures Lines(Run(s, dumps, events).files, name)
         == Lines(s.files, name) + LinesTo(dumps, Written(s, dumps, events), name)
  {
    RunFiles(s, dumps, events);
    ApplyWritesLines(s.files, dumps, Written(s, dumps, events), name);
  }

  /** `close` does not drain the queue: whatever is queued when it is called,
      or logged afterwards, is never written, and the files stay as they were. */
  lemma CloseAbandonsQueue<T>(s: LoggerState<T>, dumps: T -> string, events: seq<Event<T>>)
    ensures var t := Run(AfterClose(s), dumps, events);
      t.files == s.files && t.queue == s.queue + Logged(events) &&
      Written(AfterClose(s), dumps, events) == []
  {
    HaltedWorkerIsInert(AfterClose(s), dumps, events);
  }

  /** A write that raises ends the worker: the record it took is lost, and no
      later record reaches a file. */
  lemma WriteFaultEndsWorker<T>(s: LoggerState<T>, dumps: T -> string, date: Date, events: seq<Event<T>>)
    requires s.running && !s.stopped && s.queue != []
    ensures var failed := AfterWorkerStep(s, dumps, date, true);
      var t := Run(failed, dumps, events);
      !t.running && t.files == s.files && t.queue == s.queue[1..] + Logged(events) &&
      Written(failed, dumps, events) == []
  {
    HaltedWorkerIsInert(AfterWorkerStep(s, dumps, date, true), dumps, events);
  }

  // ---------------------------------------------------------------------------
  // JsonlLogger
  // ---------------------------------------------------------------------------

  /** `JsonlLogger`: the queue, the files of the log directory and the stop
      event are fields that `log`, the worker and `close` update in place. */
  class JsonlLogger<T> {
    /** `orjson.dumps`. */
    const dumps: T -> string
    var queue: seq<T>
    var files: map<string, seq<string>>
    var stopped: bool
    var running: bool

    function State(): LoggerState<T>
      reads this
    {
      LoggerState(queue, files, stopped, running)
    }

    /** `JsonlLogger(log_dir)`: an empty queue, the directory's existing
        files, the stop event clear and the worker started. */
    constructor (dumps: T -> string, existing: map<string, seq<string>>)
      ensures this.dumps == dumps
      ensures State() == LoggerState([], existing, false, true)
    {
      this.dumps := dumps;
      queue := [];
      files := existing;
      stopped := false;
      running := true;
    }

    /** `log(data)`: only appends to the queue; it never touches a file. */
    method Log(record: T)
      modifies this
      ensures State() == AfterLog(old(State()), record)
      ensures queue == old(queue) + [record] && files == old(files)
      ensures stopped == old(stopped) && running == old(running)
    {
      queue := queue + [record];
    }

    /** One iteration of `_worker`'s `while not self._stop_event.is_set()` loop. */
    method WorkerStep(date: Date, fault: bool)
      modifies this
      ensures State() == AfterWorkerStep(old(State()), dumps, date, fault)
      ensures stopped == old(stopped)
      ensures old(running) && !old(stopped) && old(queue) == [] ==> State() == old(State())
      ensures old(running) && !old(stopped) && old(queue) != [] && !fault ==>
        queue == old(queue)[1..] && running &&
        files == old(files)[FileName(date) := Lines(old(files), FileName(date)) + [Line(dumps, old(queue)[0])]]
    {
      if !running {
        return;
      }
      if stopped {
        running := false;
        return;
      }
      if queue == [] {
        return;
      }
      var data := queue[0];
      queue := queue[1..];
      if fault {
        running := false;
        return;
      }
      var name := FileName(date);
      files := AppendLine(files, name, Line(dumps, data));
    }

    /** `close()`: sets the stop event and joins the worker, which leaves its
        loop at the next check of the flag. The queue is left as it is. */
    method Close()
      modifies this
      ensures State() == AfterClose(old(State()))
      ensures queue == old(queue) && files == old(files) && stopped && !running
    {
      stopped := true;
      running := false;
    }
  }
}
