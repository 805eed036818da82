/** The release watcher: runs that may overlap and may fail at any step, and the one file that remembers them. */
module ReleaseWatch {
  import opened Wrappers

  datatype Version = Version(major: nat, minor: nat, patch: nat)

  predicate Less(a: Version, b: Version) {
    || a.major < b.major
    || (a.major == b.major && a.minor < b.minor)
    || (a.major == b.major && a.minor == b.minor && a.patch < b.patch)
  }

  function Max(a: Version, b: Version): Version { if Less(a, b) then b else a }

  // ---- Tags ----

  predicate IsDigit(c: char) { '0' <= c <= '9' }

  predicate Digits(s: string) { 1 <= |s| <= 6 && forall c :: c in s ==> IsDigit(c) }

  function Value(s: string): nat
    requires forall c :: c in s ==> IsDigit(c)
  {
    if s == "" then 0
    else
      assert IsDigit(s[|s| - 1]);
      10 * Value(s[..|s| - 1]) + (s[|s| - 1] - '0') as int
  }

  function FirstDot(s: string): (i: nat)
    ensures i <= |s| && (forall j :: 0 <= j < i ==> s[j] != '.') && (i < |s| ==> s[i] == '.')
  {
    if s == "" || s[0] == '.' then 0 else 1 + FirstDot(s[1..])
  }

  function SplitDots(s: string): seq<string>
    decreases |s|
  {
    var i := FirstDot(s);
    if i == |s| then [s] else [s[..i]] + SplitDots(s[i + 1..])
  }

  /** The version that a tag names: three numbers of one to six digits, after a `v` or not. */
  function ParseTag(tag: string): Option<Version> {
    var parts := SplitDots(if tag != "" && tag[0] == 'v' then tag[1..] else tag);
    if |parts| == 3 && Digits(parts[0]) && Digits(parts[1]) && Digits(parts[2])
    then Some(Version(Value(parts[0]), Value(parts[1]), Value(parts[2]))) else None
  }

  /** The pattern of the tags that are accepted. */
  ghost predicate Names(tag: string, v: Version, a: string, b: string, c: string) {
    && Digits(a) && Digits(b) && Digits(c)
    && (tag == a + "." + b + "." + c || tag == "v" + a + "." + b + "." + c)
    && v == Version(Value(a), Value(b), Value(c))
  }

  lemma SplitAtDot(a: string, rest: string)
    requires forall c :: c in a ==> c != '.'
    ensures SplitDots(a + "." + rest) == [a] + SplitDots(rest)
  {
    var s := a + "." + rest;
    assert forall j :: 0 <= j < |a| ==> s[j] == a[j] && a[j] in a;
    assert s[|a|] == '.';
    assert FirstDot(s) == |a|;
    assert s[..|a|] == a && s[|a| + 1..] == rest;
  }

  lemma NoDot(a: string)
    requires forall c :: c in a ==> c != '.'
    ensures SplitDots(a) == [a]
  {
    assert forall j :: 0 <= j < |a| ==> a[j] in a;
  }

  lemma SplitThree(a: string, b: string, c: string)
    requires Digits(a) && Digits(b) && Digits(c)
    ensures SplitDots(a + "." + b + "." + c) == [a, b, c]
  {
    hide SplitDots;
    SplitAtDot(a, b + "." + c);
    SplitAtDot(b, c);
    NoDot(c);
    assert a + "." + b + "." + c == a + "." + (b + "." + c);
  }

  function JoinDots(parts: seq<string>): string {
    if parts == [] then "" else if |parts| == 1 then parts[0] else parts[0] + "." + JoinDots(parts[1..])
  }

  lemma JoinPair(head: string, rest: seq<string>)
    requires rest != []
    ensures JoinDots([head] + rest) == head + "." + JoinDots(rest)
  {
    assert ([head] + rest)[1..] == rest;
  }

  lemma CutAt(s: string, i: nat)
    requires i < |s| && s[i] == '.'
    ensures s[..i] + "." + s[i + 1..] == s
  {}

  lemma {:induction false} JoinsBack(s: string)
    ensures SplitDots(s) != [] && JoinDots(SplitDots(s)) == s
    decreases |s|
  {
    var i := FirstDot(s);
    hide JoinDots, FirstDot;
    if i < |s| {
      JoinsBack(s[i + 1..]);
      JoinPair(s[..i], SplitDots(s[i + 1..]));
      CutAt(s, i);
    } else {
      JoinOne(s);
    }
  }

  lemma JoinOne(s: string)
    ensures JoinDots([s]) == s
  {}

  lemma JoinThree(parts: seq<string>)
    requires |parts| == 3
    ensures JoinDots(parts) == parts[0] + "." + parts[1] + "." + parts[2]
  {
    var tail := parts[1..];
    assert JoinDots(tail[1..]) == parts[2];
    assert JoinDots(tail) == parts[1] + "." + parts[2];
    assert parts[0] + "." + (parts[1] + "." + parts[2]) == parts[0] + "." + parts[1] + "." + parts[2];
  }

  /** A tag is accepted as a version exactly when it matches the pattern with its numbers. */
  lemma TagNames(tag: string, v: Version)
    ensures ParseTag(tag) == Some(v) <==> exists a, b, c :: Names(tag, v, a, b, c)
  {
    if ParseTag(tag) == Some(v) {
      ParsedNames(tag, v);
    }
    if exists a, b, c :: Names(tag, v, a, b, c) {
      var a, b, c :| Names(tag, v, a, b, c);
      NamedParses(tag, v, a, b, c);
    }
  }

  lemma Prefixed(tag: string, rest: string, a: string, b: string, c: string)
    requires rest == a + "." + b + "." + c
    requires tag == rest || (tag != "" && tag[0] == 'v' && rest == tag[1..])
    ensures tag == a + "." + b + "." + c || tag == "v" + a + "." + b + "." + c
  {
    if tag != rest {
      assert tag == "v" + rest;
    }
  }

  lemma ParsedNames(tag: string, v: Version)
    requires ParseTag(tag) == Some(v)
    ensures exists a, b, c :: Names(tag, v, a, b, c)
  {
    var rest := if tag != "" && tag[0] == 'v' then tag[1..] else tag;
    var parts := SplitDots(rest);
    JoinsBack(rest);
    JoinThree(parts);
    hide SplitDots, JoinDots, Value;
    var a, b, c := parts[0], parts[1], parts[2];
    Prefixed(tag, rest, a, b, c);
    assert Names(tag, v, a, b, c);
  }

  lemma NamedParses(tag: string, v: Version, a: string, b: string, c: string)
    requires Names(tag, v, a, b, c)
    ensures ParseTag(tag) == Some(v)
  {
    hide SplitDots, Value;
    var body := a + "." + b + "." + c;
    SplitThree(a, b, c);
    assert body != "" && body[0] != 'v' by {
      assert body[0] == a[0] && a[0] in a;
    }
    if tag != body {
      assert tag[1..] == body;
    }
  }

  // ---- The order of versions ----

  const MILLION := 1_000_000

  /** Each of the three numbers has six digits at most. */
  predicate InRange(v: Version) { v.major < MILLION && v.minor < MILLION && v.patch < MILLION }

  /** One number for a version, its three numbers written side by side in six digits each. */
  function Rank(v: Version): nat { (v.major * MILLION + v.minor) * MILLION + v.patch }

  function Pow10(n: nat): nat { if n == 0 then 1 else 10 * Pow10(n - 1) }

  function Decimal(n: nat): (s: string)
    ensures forall c :: c in s ==> IsDigit(c)
  {
    var digit := "0123456789"[n % 10];
    if n < 10 then [digit] else Decimal(n / 10) + [digit]
  }

  lemma {:induction false} DecimalReads(n: nat)
    ensures Decimal(n) != "" && Value(Decimal(n)) == n
  {
    if n >= 10 {
      DecimalReads(n / 10);
      assert Decimal(n)[..|Decimal(n)| - 1] == Decimal(n / 10);
    } else {
      assert Decimal(n)[..0] == "" && Value("") == 0;
    }
  }

  lemma {:induction false} DecimalLength(n: nat, digits: nat)
    requires digits > 0 && n < Pow10(digits)
    ensures |Decimal(n)| <= digits
  {
    if n >= 10 { DecimalLength(n / 10, digits - 1); }
  }

  lemma {:induction false} ValueBound(s: string)
    requires forall c :: c in s ==> IsDigit(c)
    ensures Value(s) < Pow10(|s|)
  {
    if s != "" {
      assert IsDigit(s[|s| - 1]);
      ValueBound(s[..|s| - 1]);
    }
  }

  lemma {:induction false} Pow10Grows(m: nat, n: nat)
    requires m <= n
    ensures Pow10(m) <= Pow10(n)
  {
    if m < n { Pow10Grows(m, n - 1); }
  }

  lemma SixDigits()
    ensures Pow10(6) == MILLION
  {
    assert Pow10(5) == 100_000 by { assert Pow10(3) == 1_000; }
  }

  /** A tag written from a version in decimal names that version; every tag names a version within the range. */
  lemma TagsAreDecimal(tag: string, v: Version)
    ensures InRange(v) ==>
      var written := Decimal(v.major) + "." + Decimal(v.minor) + "." + Decimal(v.patch);
      ParseTag(written) == Some(v) && ParseTag("v" + written) == Some(v)
    ensures ParseTag(tag) == Some(v) ==> InRange(v)
  {
    SixDigits();
    if InRange(v) {
      DecimalLength(v.major, 6);
      DecimalLength(v.minor, 6);
      DecimalLength(v.patch, 6);
      DecimalTag(v);
    }
    if ParseTag(tag) == Some(v) {
      ParsedNames(tag, v);
      var a, b, c :| Names(tag, v, a, b, c);
      ShortValue(a);
      ShortValue(b);
      ShortValue(c);
    }
  }

  lemma ShortValue(s: string)
    requires Digits(s)
    ensures Value(s) < MILLION
  {
    ValueBound(s);
    Pow10Grows(|s|, 6);
    SixDigits();
  }

  lemma DecimalTag(v: Version)
    requires |Decimal(v.major)| <= 6 && |Decimal(v.minor)| <= 6 && |Decimal(v.patch)| <= 6
    ensures var written := Decimal(v.major) + "." + Decimal(v.minor) + "." + Decimal(v.patch);
      ParseTag(written) == Some(v) && ParseTag("v" + written) == Some(v)
  {
    hide Decimal, Value, ParseTag;
    DecimalReads(v.major);
    DecimalReads(v.minor);
    DecimalReads(v.patch);
    var a, b, c := Decimal(v.major), Decimal(v.minor), Decimal(v.patch);
    NamedParses(a + "." + b + "." + c, v, a, b, c);
    var prefixed := "v" + (a + "." + b + "." + c);
    assert prefixed == "v" + a + "." + b + "." + c;
    NamedParses(prefixed, v, a, b, c);
  }

  /** Zeros in front of a number change nothing. */
  lemma {:induction false} LeadingZero(s: string)
    requires forall c :: c in s ==> IsDigit(c)
    ensures Value("0" + s) == Value(s)
  {
    if s == "" {
      assert ("0" + s)[..0] == "" && Value("") == 0;
    } else {
      assert IsDigit(s[|s| - 1]);
      assert ("0" + s)[..|s|] == "0" + s[..|s| - 1];
      LeadingZero(s[..|s| - 1]);
    }
  }

  /** Versions are compared as the numbers that they write: the first counts most, the third least. */
  lemma LessIsNumeric(a: Version, b: Version)
    requires InRange(a) && InRange(b)
    ensures Less(a, b) <==> Rank(a) < Rank(b)
    ensures a == b <==> Rank(a) == Rank(b)
    ensures Rank(Max(a, b)) == if Rank(a) >= Rank(b) then Rank(a) else Rank(b)
  {
    Digitwise(a.major * MILLION + a.minor, a.patch, b.major * MILLION + b.minor, b.patch);
    Digitwise(a.major, a.minor, b.major, b.minor);
  }

  lemma Digitwise(high: nat, low: nat, high': nat, low': nat)
    requires low < MILLION && low' < MILLION
    ensures high * MILLION + low < high' * MILLION + low' <==> high < high' || (high == high' && low < low')
    ensures high * MILLION + low == high' * MILLION + low' <==> high == high' && low == low'
  {}

  // ---- The state ----

  type Pid = nat

  /** The file of the last notification: not there, not readable as one, or with a tag. */
  datatype File = Missing | Broken | Saved(tag: string)

  /** Where a run is that holds the lock. */
  datatype Progress =
    | Reading(baseline: Version)
    | Fetching(minimum: Version)
    | Sending(minimum: Version, tag: string)
    | Writing(minimum: Version, tag: string)
    | Replacing(minimum: Version, tag: string)

  datatype Event = Sent(version: Version, baseline: Version) | Stored(version: Version, baseline: Version)

  datatype State = State(file: File, running: map<Pid, Progress>, holder: Option<Pid>, baselines: map<Pid, Version>,
                         log: seq<Event>)

  datatype Delivery = NotSent | Unacknowledged | Acknowledged

  /** A run gives up, finishes or is killed; the lock goes with it. */
  function Exited(s: State, pid: Pid): State {
    s.(running := s.running - {pid}, holder := if s.holder == Some(pid) then None else s.holder)
  }

  function At(s: State, pid: Pid, progress: Progress): State { s.(running := s.running[pid := progress]) }

  function AfterStart(s: State, pid: Pid, baseline: Version): State {
    if s.holder.Some? then s
    else At(s, pid, Reading(baseline)).(holder := Some(pid), baselines := s.baselines[pid := baseline])
  }

  function Threshold(file: File, baseline: Version): Option<Version> {
    match file
    case Missing => Some(baseline)
    case Broken => None
    case Saved(tag) =>
      var notified :- ParseTag(tag);
      Some(Max(baseline, notified))
  }

  function AfterRead(s: State, pid: Pid): State
    requires pid in s.running && s.running[pid].Reading?
  {
    match Threshold(s.file, s.running[pid].baseline)
    case None => Exited(s, pid)
    case Some(minimum) => At(s, pid, Fetching(minimum))
  }

  function AfterFetch(s: State, pid: Pid, tag: Option<string>): State
    requires pid in s.running && s.running[pid].Fetching?
  {
    if tag.None? || ParseTag(tag.value).None? || !Less(s.running[pid].minimum, ParseTag(tag.value).value)
    then Exited(s, pid)
    else At(s, pid, Sending(s.running[pid].minimum, tag.value))
  }

  function VersionOf(tag: string): Version {
    if ParseTag(tag).Some? then ParseTag(tag).value else Version(0, 0, 0)
  }

  function AfterSend(s: State, pid: Pid, delivery: Delivery): State
    requires pid in s.running && s.running[pid].Sending? && pid in s.baselines
  {
    var p := s.running[pid];
    var logged := s.(log := s.log + [Sent(VersionOf(p.tag), s.baselines[pid])]);
    match delivery
    case NotSent => Exited(s, pid)
    case Unacknowledged => Exited(logged, pid)
    case Acknowledged => At(logged, pid, Writing(p.minimum, p.tag))
  }

  /** The new content goes to a file of its own first. */
  function AfterWrite(s: State, pid: Pid, complete: bool): State
    requires pid in s.running && s.running[pid].Writing?
  {
    if !complete then Exited(s, pid) else At(s, pid, Replacing(s.running[pid].minimum, s.running[pid].tag))
  }

  function AfterReplace(s: State, pid: Pid, done: bool): State
    requires pid in s.running && s.running[pid].Replacing? && pid in s.baselines
  {
    var tag := s.running[pid].tag;
    Exited(if done then s.(file := Saved(tag), log := s.log + [Stored(VersionOf(tag), s.baselines[pid])]) else s, pid)
  }

  // ---- Steps of overlapping runs ----

  datatype Step =
    | Start(pid: Pid, baseline: Version)
    | Read(pid: Pid)
    | Fetch(pid: Pid, tag: Option<string>)
    | Send(pid: Pid, delivery: Delivery)
    | Write(pid: Pid, complete: bool)
    | Replace(pid: Pid, done: bool)
    | Crash(pid: Pid)

  predicate Enabled(s: State, step: Step) {
    match step
    case Start(pid, _) => pid !in s.running
    case Read(pid) => pid in s.running && s.running[pid].Reading?
    case Fetch(pid, _) => pid in s.running && s.running[pid].Fetching?
    case Send(pid, _) => pid in s.running && s.running[pid].Sending? && pid in s.baselines
    case Write(pid, _) => pid in s.running && s.running[pid].Writing?
    case Replace(pid, _) => pid in s.running && s.running[pid].Replacing? && pid in s.baselines
    case Crash(pid) => pid in s.running
  }

  function Next(s: State, step: Step): State
    requires Enabled(s, step)
  {
    match step
    case Start(pid, baseline) => AfterStart(s, pid, baseline)
    case Read(pid) => AfterRead(s, pid)
    case Fetch(pid, tag) => AfterFetch(s, pid, tag)
    case Send(pid, delivery) => AfterSend(s, pid, delivery)
    case Write(pid, complete) => AfterWrite(s, pid, complete)
    case Replace(pid, done) => AfterReplace(s, pid, done)
    case Crash(pid) => Exited(s, pid)
  }

  // ---- What every history keeps ----

  /** Nothing is sent or stored that is not newer than everything stored before, and than its run's baseline. */
  ghost predicate Fresh(log: seq<Event>) {
    && (forall e :: e in log ==> Less(e.baseline, e.version))
    && (forall i, j :: 0 <= i < j < |log| && log[i].Stored? ==> Less(log[i].version, log[j].version))
  }

  /** What is stored has just been sent. */
  ghost predicate SentFirst(log: seq<Event>) {
    forall i :: 0 <= i < |log| && log[i].Stored? ==> i > 0 && log[i - 1] == Sent(log[i].version, log[i].baseline)
  }

  /** At least as new as everything stored, and as what the file says. */
  ghost predicate Covers(s: State, v: Version) {
    && (forall e :: e in s.log && e.Stored? ==> !Less(v, e.version))
    && (s.file.Saved? && ParseTag(s.file.tag).Some? ==> !Less(v, ParseTag(s.file.tag).value))
  }

  /** The run's facts still hold when it goes on: the lock kept the file as it was. */
  ghost predicate OnCourse(s: State, pid: Pid)
    requires pid in s.running
  {
    && pid in s.baselines
    && match s.running[pid]
       case Reading(baseline) => baseline == s.baselines[pid]
       case Fetching(minimum) => Covers(s, minimum) && !Less(minimum, s.baselines[pid])
       case Sending(minimum, tag) =>
         Covers(s, minimum) && !Less(minimum, s.baselines[pid]) && Less(minimum, VersionOf(tag)) && ParseTag(tag).Some?
       case Writing(minimum, tag) => Ready(s, pid, minimum, tag)
       case Replacing(minimum, tag) => Ready(s, pid, minimum, tag)
  }

  ghost predicate Ready(s: State, pid: Pid, minimum: Version, tag: string)
    requires pid in s.baselines
  {
    && Covers(s, minimum) && !Less(minimum, s.baselines[pid]) && Less(minimum, VersionOf(tag)) && ParseTag(tag).Some?
    && s.log != [] && s.log[|s.log| - 1] == Sent(VersionOf(tag), s.baselines[pid])
  }

  /** The last version stored is the one in the file. */
  ghost predicate Remembered(s: State) {
    forall e :: e in s.log && e.Stored? ==>
      s.file.Saved? && ParseTag(s.file.tag).Some? && !Less(ParseTag(s.file.tag).value, e.version)
  }

  ghost predicate Inv(s: State) {
    && (forall pid :: pid in s.running ==> s.holder == Some(pid) && OnCourse(s, pid))
    && Fresh(s.log) && SentFirst(s.log) && Remembered(s)
  }

  lemma Appended(log: seq<Event>, e: Event)
    requires Fresh(log) && SentFirst(log) && Less(e.baseline, e.version)
    requires forall x :: x in log && x.Stored? ==> Less(x.version, e.version)
    requires e.Stored? ==> log != [] && log[|log| - 1] == Sent(e.version, e.baseline)
    ensures Fresh(log + [e]) && SentFirst(log + [e])
  {
    forall i | 0 <= i < |log| && log[i].Stored? ensures Less(log[i].version, e.version) {
      assert log[i] in log;
    }
  }

  lemma ReadKeeps(s: State, pid: Pid)
    requires Inv(s) && Enabled(s, Read(pid))
    ensures Inv(AfterRead(s, pid))
  {
    var threshold := Threshold(s.file, s.running[pid].baseline);
    if threshold.Some? {
      assert Covers(s, threshold.value);
    }
  }

  lemma SendKeeps(s: State, pid: Pid, delivery: Delivery)
    requires Inv(s) && Enabled(s, Send(pid, delivery))
    ensures Inv(AfterSend(s, pid, delivery))
  {
    hide Fresh, SentFirst, ParseTag, VersionOf;
    var p := s.running[pid];
    var e := Sent(VersionOf(p.tag), s.baselines[pid]);
    SendIsNewer(s, pid);
    Appended(s.log, e);
    assert (s.log + [e])[|s.log + [e]| - 1] == e;
    hide Less;
  }

  lemma SendIsNewer(s: State, pid: Pid)
    requires pid in s.running && OnCourse(s, pid) && s.running[pid].Sending?
    ensures ParseTag(s.running[pid].tag).Some? && Less(s.baselines[pid], VersionOf(s.running[pid].tag))
    ensures forall x :: x in s.log && x.Stored? ==> Less(x.version, VersionOf(s.running[pid].tag))
  {
    hide ParseTag;
  }

  lemma ReplaceKeeps(s: State, pid: Pid, done: bool)
    requires Inv(s) && Enabled(s, Replace(pid, done))
    ensures Inv(AfterReplace(s, pid, done))
  {
    var p := s.running[pid];
    assert OnCourse(s, pid) && Ready(s, pid, p.minimum, p.tag);
    Appended(s.log, Stored(VersionOf(p.tag), s.baselines[pid]));
  }

  lemma FetchKeeps(s: State, pid: Pid, tag: Option<string>)
    requires Inv(s) && Enabled(s, Fetch(pid, tag))
    ensures Inv(AfterFetch(s, pid, tag))
  {
    hide ParseTag;
    assert OnCourse(s, pid);
  }

  lemma StartKeeps(s: State, pid: Pid, baseline: Version)
    requires Inv(s) && pid !in s.running
    ensures Inv(AfterStart(s, pid, baseline))
  {
    hide ParseTag;
  }

  lemma WriteKeeps(s: State, pid: Pid, complete: bool)
    requires Inv(s) && Enabled(s, Write(pid, complete))
    ensures Inv(AfterWrite(s, pid, complete))
  {
    hide ParseTag;
    assert OnCourse(s, pid);
  }

  lemma ExitKeeps(s: State, pid: Pid)
    requires Inv(s) && pid in s.running
    ensures Inv(Exited(s, pid))
  {
    hide ParseTag;
  }

  lemma StepKeeps(s: State, step: Step)
    requires Inv(s) && Enabled(s, step)
    ensures Inv(Next(s, step))
  {
    hide Inv, AfterStart, AfterRead, AfterFetch, AfterSend, AfterWrite, AfterReplace, Exited;
    match step
    case Start(pid, baseline) => StartKeeps(s, pid, baseline);
    case Read(pid) => ReadKeeps(s, pid);
    case Fetch(pid, tag) => FetchKeeps(s, pid, tag);
    case Send(pid, delivery) => SendKeeps(s, pid, delivery);
    case Write(pid, complete) => WriteKeeps(s, pid, complete);
    case Replace(pid, done) => ReplaceKeeps(s, pid, done);
    case Crash(pid) => ExitKeeps(s, pid);
  }

  ghost predicate Possible(s: State, steps: seq<Step>)
    decreases |steps|
  {
    steps != [] ==> Enabled(s, steps[0]) && Possible(Next(s, steps[0]), steps[1..])
  }

  ghost function Run(s: State, steps: seq<Step>): State
    requires Possible(s, steps)
    decreases |steps|
  {
    if steps == [] then s else Run(Next(s, steps[0]), steps[1..])
  }

  lemma {:induction false} EveryHistoryKeeps(s: State, steps: seq<Step>)
    requires Inv(s) && Possible(s, steps)
    ensures Inv(Run(s, steps))
    decreases |steps|
  {
    hide Inv, Next, Enabled;
    if steps != [] {
      StepKeeps(s, steps[0]);
      EveryHistoryKeeps(Next(s, steps[0]), steps[1..]);
    }
  }

  /** A file that is not readable as a notification, or names no version. */
  predicate Refused(file: File) { file.Broken? || (file.Saved? && ParseTag(file.tag).None?) }

  ghost predicate NeverReads(s: State) {
    Refused(s.file) && forall pid :: pid in s.running ==> s.running[pid].Reading?
  }

  lemma RefusedStep(s: State, step: Step)
    requires NeverReads(s) && Enabled(s, step)
    ensures NeverReads(Next(s, step)) && Next(s, step).log == s.log && Next(s, step).file == s.file
  {
    hide ParseTag;
  }

  /** The files that are refused are those for which a run finds no threshold. */
  lemma RefusedHasNoThreshold(file: File, baseline: Version)
    ensures Refused(file) <==> Threshold(file, baseline).None?
  {
    hide ParseTag;
  }

  /** A file that is refused is never overwritten, and as long as it is there nothing is sent. */
  lemma {:induction false} BrokenStays(s: State, steps: seq<Step>)
    requires NeverReads(s) && Possible(s, steps)
    ensures Run(s, steps).file == s.file && Run(s, steps).log == s.log
    decreases |steps|
  {
    hide NeverReads, Next, Enabled, ParseTag;
    if steps != [] {
      RefusedStep(s, steps[0]);
      BrokenStays(Next(s, steps[0]), steps[1..]);
    }
  }

  /** With whatever file the watcher starts: stored versions strictly increase and exceed their baseline, each was
      sent just before it was stored, and a version that was stored is never sent again. */
  lemma StoredOnce(file: File, steps: seq<Step>)
    requires Possible(State(file, map[], None, map[], []), steps)
    ensures var log := Run(State(file, map[], None, map[], []), steps).log;
      && (forall i, j :: 0 <= i < j < |log| && log[i].Stored? && log[j].Stored? ==>
            Less(log[i].version, log[j].version))
      && (forall i :: 0 <= i < |log| && log[i].Stored? ==>
            Less(log[i].baseline, log[i].version) && i > 0 && log[i - 1] == Sent(log[i].version, log[i].baseline))
      && (forall i, j :: 0 <= i < j < |log| && log[i].Stored? && log[j].Sent? ==> log[i].version != log[j].version)
  {
    var s := State(file, map[], None, map[], []);
    assert Inv(s);
    EveryHistoryKeeps(s, steps);
    var log := Run(s, steps).log;
    assert forall i :: 0 <= i < |log| ==> log[i] in log;
  }

  // ---- The program ----

  datatype Status = AlreadyRunning | Failed | NoUpdate | UpdateAvailable | Notified

  /** What a run meets outside: the release, the delivery, and the disk. */
  datatype Outside = Outside(release: Option<string>, delivery: Delivery, written: bool, replaced: bool)

  class Watcher {
    var file: File
    var running: map<Pid, Progress>
    var holder: Option<Pid>
    var baselines: map<Pid, Version>
    var log: seq<Event>

    ghost function Abs(): State
      reads this
    {
      State(file, running, holder, baselines, log)
    }

    constructor (onDisk: File)
      ensures Abs() == State(onDisk, map[], None, map[], [])
    {
      file, running, holder, baselines, log := onDisk, map[], None, map[], [];
    }

    method Exit(pid: Pid)
      modifies this`running, this`holder
      ensures Abs() == Exited(old(Abs()), pid)
    {
      running := running - {pid};
      if holder == Some(pid) {
        holder := None;
      }
    }

    method LockState(pid: Pid, baseline: Version) returns (acquired: bool)
      requires Enabled(Abs(), Start(pid, baseline))
      modifies this
      ensures Abs() == Next(old(Abs()), Start(pid, baseline)) && acquired == old(holder).None?
    {
      if holder.Some? { return false; }
      holder := Some(pid);
      running := running[pid := Reading(baseline)];
      baselines := baselines[pid := baseline];
      acquired := true;
    }

    method ReadThreshold(pid: Pid) returns (minimum: Option<Version>)
      requires Enabled(Abs(), Read(pid))
      modifies this
      ensures Abs() == Next(old(Abs()), Read(pid))
      ensures minimum == Threshold(old(file), old(running)[pid].baseline)
    {
      minimum := Threshold(file, running[pid].baseline);
      if minimum.None? {
        Exit(pid);
        return;
      }
      running := running[pid := Fetching(minimum.value)];
    }

    method FetchRelease(pid: Pid, release: Option<string>) returns (status: Option<Status>)
      requires Enabled(Abs(), Fetch(pid, release))
      modifies this
      ensures Abs() == Next(old(Abs()), Fetch(pid, release))
      ensures status == if release.None? || ParseTag(release.value).None? then Some(Failed)
        else if !Less(old(running)[pid].minimum, ParseTag(release.value).value) then Some(NoUpdate) else None
    {
      var minimum := running[pid].minimum;
      if release.None? || ParseTag(release.value).None? {
        Exit(pid);
        return Some(Failed);
      }
      if !Less(minimum, ParseTag(release.value).value) {
        Exit(pid);
        return Some(NoUpdate);
      }
      running := running[pid := Sending(minimum, release.value)];
      status := None;
    }

    method SendNotification(pid: Pid, delivery: Delivery) returns (acknowledged: bool)
      requires Enabled(Abs(), Send(pid, delivery))
      modifies this
      ensures Abs() == Next(old(Abs()), Send(pid, delivery)) && acknowledged == delivery.Acknowledged?
    {
      var p := running[pid];
      if !delivery.NotSent? {
        log := log + [Sent(VersionOf(p.tag), baselines[pid])];
      }
      if !delivery.Acknowledged? {
        Exit(pid);
        return false;
      }
      running := running[pid := Writing(p.minimum, p.tag)];
      acknowledged := true;
    }

    method SaveState(pid: Pid, written: bool, replaced: bool) returns (saved: bool, ghost steps: seq<Step>)
      requires Enabled(Abs(), Write(pid, written)) && pid in baselines
      modifies this
      ensures Possible(old(Abs()), steps) && Abs() == Run(old(Abs()), steps)
      ensures saved <==> written && replaced
      ensures pid !in running && holder == if old(holder) == Some(pid) then None else old(holder)
      ensures file == if saved then Saved(old(running)[pid].tag) else old(file)
      ensures log ==
        if saved then old(log) + [Stored(VersionOf(old(running)[pid].tag), old(baselines)[pid])] else old(log)
    {
      var p := running[pid];
      ghost var start := Abs();
      if !written {
        Exit(pid);
        OneStep(start, Write(pid, written));
        return false, [Write(pid, written)];
      }
      running := running[pid := Replacing(p.minimum, p.tag)];
      ghost var middle := Abs();
      if replaced {
        file := Saved(p.tag);
        log := log + [Stored(VersionOf(p.tag), baselines[pid])];
      }
      Exit(pid);
      OneStep(middle, Replace(pid, replaced));
      TwoSteps(start, Write(pid, written), [Replace(pid, replaced)]);
      saved, steps := replaced, [Write(pid, written)] + [Replace(pid, replaced)];
    }

    /** One call of the program under the lock. It is one of the histories above; the release is sent only if it is
        newer than the baseline and the file say, and remembered only if every step succeeded. */
    method Check(pid: Pid, baseline: Version, o: Outside) returns (status: Status, ghost steps: seq<Step>)
      requires pid !in running
      modifies this
      ensures Possible(old(Abs()), steps) && Abs() == Run(old(Abs()), steps)
      ensures status == Expected(old(file), old(holder), baseline, o)
      ensures old(holder).None? ==> holder == None && pid !in running
      ensures status == Notified ==>
        (&& file == Saved(o.release.value)
         && log == old(log) +
            [Sent(VersionOf(o.release.value), baseline), Stored(VersionOf(o.release.value), baseline)])
      ensures status != Notified ==> file == old(file)
    {
      ghost var s0 := Abs();
      var acquired := LockState(pid, baseline);
      OneStep(s0, Start(pid, baseline));
      steps := [Start(pid, baseline)];
      if !acquired { return AlreadyRunning, steps; }
      ghost var s1 := Abs();
      var minimum := ReadThreshold(pid);
      hide Possible, Run, Threshold, ParseTag, VersionOf;
      steps := AddStep(s0, steps, s1, Read(pid));
      if minimum.None? { return Failed, steps; }
      ghost var s2 := Abs();
      var verdict := FetchRelease(pid, o.release);
      steps := AddStep(s0, steps, s2, Fetch(pid, o.release));
      if verdict.Some? { return verdict.value, steps; }
      ghost var more;
      status, more := Deliver(pid, o);
      RunConcat(s0, steps, more);
      steps := steps + more;
    }

    /** Sends, and remembers what was acknowledged. */
    method Deliver(pid: Pid, o: Outside) returns (status: Status, ghost steps: seq<Step>)
      requires Enabled(Abs(), Send(pid, o.delivery)) && holder == Some(pid)
      modifies this
      ensures Possible(old(Abs()), steps) && Abs() == Run(old(Abs()), steps)
      ensures status == if Delivers(o) then Notified else Failed
      ensures holder == None && pid !in running
      ensures var p, b := old(running)[pid], old(baselines)[pid];
        if Delivers(o)
        then file == Saved(p.tag) && log == old(log) + [Sent(VersionOf(p.tag), b), Stored(VersionOf(p.tag), b)]
        else file == old(file)
    {
      hide ParseTag, VersionOf;
      ghost var s0 := Abs();
      var acknowledged := SendNotification(pid, o.delivery);
      OneStep(s0, Send(pid, o.delivery));
      steps := [Send(pid, o.delivery)];
      if !acknowledged { return Failed, steps; }
      var saved, last := SaveState(pid, o.written, o.replaced);
      RunConcat(s0, steps, last);
      steps := steps + last;
      return if saved then Notified else Failed, steps;
    }

    /** A dry run takes no lock and leaves everything as it is. */
    method DryRun(baseline: Version, release: Option<string>) returns (status: Status)
      ensures status == match Threshold(file, baseline)
        case None => Failed
        case Some(minimum) =>
          if release.None? || ParseTag(release.value).None? then Failed
          else if Less(minimum, ParseTag(release.value).value) then UpdateAvailable else NoUpdate
    {
      var minimum := Threshold(file, baseline);
      if minimum.None? || release.None? { return Failed; }
      var version := ParseTag(release.value);
      if version.None? { return Failed; }
      if !Less(minimum.value, version.value) { return NoUpdate; }
      status := UpdateAvailable;
    }
  }

  predicate Delivers(o: Outside) { o.delivery.Acknowledged? && o.written && o.replaced }

  function Expected(file: File, holder: Option<Pid>, baseline: Version, o: Outside): Status {
    if holder.Some? then AlreadyRunning
    else match Threshold(file, baseline)
      case None => Failed
      case Some(minimum) =>
        if o.release.None? || ParseTag(o.release.value).None? then Failed
        else if !Less(minimum, ParseTag(o.release.value).value) then NoUpdate
        else if Delivers(o) then Notified else Failed
  }

  /** A run ends with a notification exactly if no other run holds the lock, the file can be understood, every step
      outside succeeds, and the release names a version that exceeds the baseline and what was notified before. */
  lemma NotifiedExactly(file: File, holder: Option<Pid>, baseline: Version, o: Outside)
    ensures Expected(file, holder, baseline, o) == Notified <==>
      && holder.None? && !Refused(file) && Delivers(o)
      && o.release.Some? && ParseTag(o.release.value).Some?
      && Less(baseline, ParseTag(o.release.value).value)
      && (file.Saved? ==> Less(ParseTag(file.tag).value, ParseTag(o.release.value).value))
    ensures Expected(file, holder, baseline, o) == NoUpdate <==>
      && holder.None? && !Refused(file)
      && o.release.Some? && ParseTag(o.release.value).Some?
      && !(&& Less(baseline, ParseTag(o.release.value).value)
           && (file.Saved? ==> Less(ParseTag(file.tag).value, ParseTag(o.release.value).value)))
  {
    hide ParseTag;
  }

  lemma OneStep(s: State, step: Step)
    requires Enabled(s, step)
    ensures Possible(s, [step]) && Run(s, [step]) == Next(s, step)
  {
    assert [step][1..] == [];
  }

  lemma TwoSteps(s: State, step: Step, rest: seq<Step>)
    requires Enabled(s, step) && Possible(Next(s, step), rest)
    ensures Possible(s, [step] + rest) && Run(s, [step] + rest) == Run(Next(s, step), rest)
  {
    assert ([step] + rest)[1..] == rest;
  }

  lemma {:induction false} RunConcat(s: State, a: seq<Step>, b: seq<Step>)
    requires Possible(s, a) && Possible(Run(s, a), b)
    ensures Possible(s, a + b) && Run(s, a + b) == Run(Run(s, a), b)
    decreases |a|
  {
    hide Next, Enabled;
    if a == [] {
      assert a + b == b;
    } else {
      assert (a + b)[1..] == a[1..] + b;
      RunConcat(Next(s, a[0]), a[1..], b);
    }
  }

  ghost function AddStep(s: State, steps: seq<Step>, t: State, step: Step): (r: seq<Step>)
    requires Possible(s, steps) && Run(s, steps) == t && Enabled(t, step)
    ensures Possible(s, r) && Run(s, r) == Next(t, step)
  {
    OneStep(t, step);
    RunConcat(s, steps, [step]);
    steps + [step]
  }
}
