/**
 * The instrument family: stateful accumulators that turn lines matched by
 * their own regular expression into one integer per group key.
 *
 * Every instrument keeps two dictionaries, `data` (group key to accumulated
 * value) and `groups` (group key to the time it was last touched). `write`
 * runs the instrument's regular expression on a line and, on a match, asks
 * the variant to fold the captured value into `data`; a ValueError from the
 * cast leaves everything as it was, any other exception empties both
 * dictionaries, and success touches the group. `read` keeps the first
 * `maxgroups` entries of `groups` in sorted order, rebuilds `data` for the
 * surviving keys through the cast `int(x) % 2**32` and returns it; GaugeInt
 * and Max then start again from empty.
 *
 * The regular expression is an oracle from a line to its capture groups.
 */
module Instruments {
  import opened Wrappers
  import opened PyBuiltins
  import opened Ordering

  /** NUM32 = 2 ** 32, the modulus of every cast the instruments install. */
  const NUM32: nat := 0x1_0000_0000

  /** The `maxgroups` an instrument gets when its constructor is not told otherwise. */
  const DefaultMaxGroups: int := 64

  /** The value of `datetime.now()` at a touch; never compared by the model. */
  type Timestamp = int

  /**
   * What a successful regular-expression match exposes: `mo.groups()`, one
   * entry per group in order (None for a group that did not take part), and
   * `mo.groupdict()`, the named groups.
   */
  datatype Captures = Captures(positional: seq<Option<string>>, named: map<string, Option<string>>)

  /** `re.compile(regex).match`: a line to its captures, None when it does not match. */
  type Matcher = string -> Option<Captures>

  /** The instrument classes. */
  datatype Kind = CounterInc | CounterSum | GaugeInt | Max

  /** The arguments an instrument is built from; the cast is always `int(x) % NUM32`. */
  datatype InstrumentSpec = InstrumentSpec(kind: Kind, test: Matcher, maxgroups: int, regexGroup: Option<string>)

  /** GaugeInt overrides `read` to reset afterwards, and Max inherits that override. */
  predicate ResetsOnRead(kind: Kind) {
    kind == GaugeInt || kind == Max
  }

  /** `if self.regex_group:`, Python truthiness: None and the empty name both count as absent. */
  predicate Truthy(name: Option<string>) {
    name.Some? && name.value != ""
  }

  /** `int(n) % NUM32` on an integer: the value wrapped into 32 bits. */
  function Wrap32(n: int): (r: nat)
    ensures r < NUM32
    ensures 0 <= n < NUM32 ==> r == n
    ensures (n - r) % NUM32 == 0
  {
    n % NUM32
  }

  /** What evaluating `value_cast(<capture>)` gives: a value, a ValueError, or another exception. */
  datatype Extracted = Value(n: int) | ValueErr | Fault

  /**
   * `int(x) % NUM32` on a capture: None raises TypeError (a fault), text
   * `int()` refuses raises ValueError, anything else is cast.
   */
  function CastText(x: Option<string>): (r: Extracted)
    ensures r.Fault? <==> x.None?
    ensures r.ValueErr? <==> x.Some? && ParseInt(x.value).None?
    ensures r.Value? ==> 0 <= r.n < NUM32 && r.n == Wrap32(ParseInt(x.value).value)
  {
    match x
    case None => Fault
    case Some(s) =>
      match ParseInt(s)
      case None => ValueErr
      case Some(n) => Value(Wrap32(n))
  }

  /** `value_cast(mo.groups()[0])`: no group at all raises IndexError. */
  function FirstCapture(mo: Captures): Extracted {
    if |mo.positional| == 0 then Fault else CastText(mo.positional[0])
  }

  /** CounterSum's value: `groupdict().get(regex_group)` when a group name is set, else the first group. */
  function SumValue(regexGroup: Option<string>, mo: Captures): Extracted {
    if Truthy(regexGroup) then
      CastText(if regexGroup.value in mo.named then mo.named[regexGroup.value] else None)
    else
      FirstCapture(mo)
  }

  /**
   * GaugeInt's and Max's value. With a group name set they evaluate
   * `mo.groupdict.get(...)` on the method object itself, which raises
   * AttributeError whatever the line holds.
   */
  function GaugeValue(regexGroup: Option<string>, mo: Captures): Extracted {
    if Truthy(regexGroup) then Fault else FirstCapture(mo)
  }

  /** The value a variant would extract; CounterInc extracts none and counts the match. */
  function ValueOf(spec: InstrumentSpec, mo: Captures): Extracted {
    match spec.kind
    case CounterInc => Value(1)
    case CounterSum => SumValue(spec.regexGroup, mo)
    case GaugeInt => GaugeValue(spec.regexGroup, mo)
    case Max => GaugeValue(spec.regexGroup, mo)
  }

  /** `d.get(k, 0)`. */
  function Get(d: map<string, int>, k: string): int {
    if k in d then d[k] else 0
  }

  /** `d.get(k)`. */
  function Lookup(d: map<string, int>, k: string): Option<int> {
    if k in d then Some(d[k]) else None
  }

  /** How `append_data` ends: the new `data`, a ValueError, or any other exception. */
  datatype Outcome = Stored(data: map<string, int>) | Rejected | Failed

  /** `append_data(group, line, mo)` of each variant, on the current `data`. */
  function AppendData(spec: InstrumentSpec, data: map<string, int>, group: string, mo: Captures): (r: Outcome)
    ensures r.Stored? ==> r.data.Keys == data.Keys + {group}
    ensures r.Stored? ==> forall k :: k in data && k != group ==> r.data[k] == data[k]
    ensures r.Failed? <==> ValueOf(spec, mo).Fault?
    ensures r.Rejected? <==> ValueOf(spec, mo).ValueErr?
  {
    match spec.kind
    case CounterInc =>
      Stored(data[group := Get(data, group) + 1])
    case CounterSum =>
      var minimum := Wrap32(0);
      (match SumValue(spec.regexGroup, mo)
       case Value(v) => Stored(data[group := (if group in data then data[group] else minimum) + v])
       case ValueErr => Rejected
       case Fault => Failed)
    case GaugeInt =>
      (match GaugeValue(spec.regexGroup, mo)
       case Value(v) => Stored(data[group := v])
       case ValueErr => Rejected
       case Fault => Failed)
    case Max =>
      match GaugeValue(spec.regexGroup, mo)
      case Value(v) =>
        // Python 2 orders None below every integer, so `value > current` holds for a new group.
        if group !in data || v > data[group] then Stored(data[group := v]) else Stored(data)
      case ValueErr => Rejected
      case Fault => Failed
  }

  /** The two dictionaries of an instrument. */
  datatype Bucket = Bucket(data: map<string, int>, groups: map<string, Timestamp>) {
    /** Every touched group has data, so `normalise` never looks up a missing key. */
    ghost predicate Valid() {
      groups.Keys <= data.Keys
    }
  }

  const Empty: Bucket := Bucket(map[], map[])

  /** One `write(group, line)` at time `now`. */
  function Step(spec: InstrumentSpec, b: Bucket, group: string, line: string, now: Timestamp): (r: Bucket)
    ensures b.Valid() ==> r.Valid()
    ensures r.groups.Keys <= b.groups.Keys + {group}
  {
    match spec.test(line)
    case None => b
    case Some(mo) =>
      match AppendData(spec, b.data, group, mo)
      case Rejected => b
      case Failed => Empty
      case Stored(d) => Bucket(d, b.groups[group := now])
  }

  /** A write whose line matches and whose value is stored touches its group at time `now`. */
  lemma WriteStoredTouches(spec: InstrumentSpec, b: Bucket, group: string, line: string, now: Timestamp)
    requires spec.test(line).Some? && AppendData(spec, b.data, group, spec.test(line).value).Stored?
    ensures Step(spec, b, group, line, now) == Bucket(AppendData(spec, b.data, group, spec.test(line).value).data, b.groups[group := now])
  {
  }

  /** A call `write(group, line)`. */
  datatype WriteCall = WriteCall(group: string, line: string)

  /** The bucket after a sequence of writes, all at time `now`. */
  function Feed(spec: InstrumentSpec, b: Bucket, writes: seq<WriteCall>, now: Timestamp): (r: Bucket)
    ensures b.Valid() ==> r.Valid()
  {
    if writes == [] then b
    else
      var w := writes[|writes| - 1];
      Step(spec, Feed(spec, b, writes[..|writes| - 1], now), w.group, w.line, now)
  }

  lemma FeedAppend(spec: InstrumentSpec, b: Bucket, writes: seq<WriteCall>, w: WriteCall, now: Timestamp)
    ensures Feed(spec, b, writes + [w], now) == Step(spec, Feed(spec, b, writes, now), w.group, w.line, now)
  {
    assert (writes + [w])[..|writes|] == writes;
  }

  /** `items[:n]` on a list of `len` items ends here, negative `n` counting from the end. */
  function SliceEnd(len: nat, n: int): nat {
    if n >= 0 then (if n < len then n else len)
    else if len + n > 0 then len + n
    else 0
  }

  /** `trim_groups`: `dict(sorted(groups.items())[:maxgroups])`. */
  ghost function Trim(groups: map<string, Timestamp>, maxgroups: int): (r: map<string, Timestamp>)
    ensures r.Keys <= groups.Keys
    ensures forall k :: k in r ==> r[k] == groups[k]
  {
    SortedKeysSpec(groups.Keys);
    var items := SortedKeys(groups.Keys);
    var kept := items[..SliceEnd(|items|, maxgroups)];
    map k | k in kept :: groups[k]
  }

  /** What `read()` returns and the bucket it leaves behind. */
  datatype ReadResult = ReadResult(items: map<string, int>, after: Bucket)

  /** `read()`: trim, normalise through the cast, return, and reset for the gauges. */
  ghost function ReadOf(spec: InstrumentSpec, b: Bucket): ReadResult
    requires b.Valid()
  {
    var g := Trim(b.groups, spec.maxgroups);
    var d := map k | k in g :: Wrap32(b.data[k]);
    ReadResult(d, if ResetsOnRead(spec.kind) then Empty else Bucket(d, g))
  }

  // ---------------------------------------------------------------------
  // One write
  // ---------------------------------------------------------------------

  /** A line the instrument's expression does not match changes nothing. */
  lemma WriteNoMatch(spec: InstrumentSpec, b: Bucket, group: string, line: string, now: Timestamp)
    requires spec.test(line).None?
    ensures Step(spec, b, group, line, now) == b
  {
  }

  /**
   * A capture `int()` refuses (ValueError) is swallowed: data and groups stay
   * as they were and the group is not touched.
   */
  lemma WriteNonNumericIgnored(spec: InstrumentSpec, b: Bucket, group: string, line: string, now: Timestamp, text: string)
    requires spec.test(line).Some? && spec.kind != CounterInc && ParseInt(text).None?
    requires var mo := spec.test(line).value;
      if Truthy(spec.regexGroup) then
        spec.kind == CounterSum && spec.regexGroup.value in mo.named && mo.named[spec.regexGroup.value] == Some(text)
      else
        |mo.positional| > 0 && mo.positional[0] == Some(text)
    ensures Step(spec, b, group, line, now) == b
  {
  }

  /** No positional group (IndexError) or a group that did not take part (TypeError) empties the bucket. */
  lemma WriteMissingCaptureResets(spec: InstrumentSpec, b: Bucket, group: string, line: string, now: Timestamp)
    requires spec.test(line).Some? && spec.kind != CounterInc && !Truthy(spec.regexGroup)
    requires var mo := spec.test(line).value; |mo.positional| == 0 || mo.positional[0].None?
    ensures Step(spec, b, group, line, now) == Empty
  {
  }

  /** CounterSum with a group name the match lacks or left unset (TypeError) empties the bucket. */
  lemma WriteMissingNamedCaptureResets(spec: InstrumentSpec, b: Bucket, group: string, line: string, now: Timestamp)
    requires spec.test(line).Some? && spec.kind == CounterSum && Truthy(spec.regexGroup)
    requires var mo := spec.test(line).value;
      spec.regexGroup.value !in mo.named || mo.named[spec.regexGroup.value].None?
    ensures Step(spec, b, group, line, now) == Empty
  {
  }

  /**
   * GaugeInt and Max with a group name set: `mo.groupdict.get` raises
   * AttributeError on every matching line, so every match empties the bucket.
   */
  lemma WriteNamedGaugeResets(spec: InstrumentSpec, b: Bucket, group: string, line: string, now: Timestamp)
    requires spec.test(line).Some? && ResetsOnRead(spec.kind) && Truthy(spec.regexGroup)
    ensures Step(spec, b, group, line, now) == Empty
  {
  }

  /** CounterInc never fails: every matching line touches its group and adds one. */
  lemma WriteCounterIncTouches(spec: InstrumentSpec, b: Bucket, group: string, line: string, now: Timestamp)
    requires spec.kind == CounterInc && spec.test(line).Some?
    ensures var r := Step(spec, b, group, line, now);
      r.groups == b.groups[group := now] && r.data == b.data[group := Get(b.data, group) + 1]
  {
  }

  // ---------------------------------------------------------------------
  // Sequences of writes
  // ---------------------------------------------------------------------

  lemma {:induction false} FeedConcat(spec: InstrumentSpec, b: Bucket, xs: seq<WriteCall>, ys: seq<WriteCall>, now: Timestamp)
    ensures Feed(spec, b, xs + ys, now) == Feed(spec, Feed(spec, b, xs, now), ys, now)
    decreases |ys|
  {
    if ys == [] {
      assert xs + ys == xs;
    } else {
      var init := ys[..|ys| - 1];
      var w := ys[|ys| - 1];
      assert xs + ys == (xs + init) + [w];
      assert ys == init + [w];
      FeedAppend(spec, b, xs + init, w, now);
      FeedAppend(spec, Feed(spec, b, xs, now), init, w, now);
      FeedConcat(spec, b, xs, init, now);
    }
  }

  /** The write raises something other than ValueError. */
  predicate Faults(spec: InstrumentSpec, line: string) {
    spec.test(line).Some? && ValueOf(spec, spec.test(line).value).Fault?
  }

  predicate NoFaults(spec: InstrumentSpec, writes: seq<WriteCall>) {
    forall i :: 0 <= i < |writes| ==> !Faults(spec, writes[i].line)
  }

  /**
   * A fault discards everything accumulated before it: whatever the bucket
   * held, only the writes after the faulting one are left.
   */
  lemma FaultForgetsEarlier(spec: InstrumentSpec, b: Bucket, writes: seq<WriteCall>, i: nat, now: Timestamp)
    requires i < |writes| && Faults(spec, writes[i].line)
    ensures Feed(spec, b, writes, now) == Feed(spec, Empty, writes[i + 1..], now)
  {
    calc {
      Feed(spec, b, writes, now);
      { assert writes == writes[..i + 1] + writes[i + 1..]; FeedConcat(spec, b, writes[..i + 1], writes[i + 1..], now); }
      Feed(spec, Feed(spec, b, writes[..i + 1], now), writes[i + 1..], now);
      { assert writes[..i + 1][..i] == writes[..i]; }
      Feed(spec, Empty, writes[i + 1..], now);
    }
  }

  /** The number of writes to `g` whose line the instrument's expression matches. */
  function CountFor(test: Matcher, writes: seq<WriteCall>, g: string): nat {
    if writes == [] then 0
    else
      var w := writes[|writes| - 1];
      CountFor(test, writes[..|writes| - 1], g) + (if w.group == g && test(w.line).Some? then 1 else 0)
  }

  /**
   * CounterInc counts: after a run of writes, a group's count has grown by
   * the number of its matching lines, and the group is touched exactly when
   * it was already or one of them matched. It never resets.
   */
  lemma {:induction false} CounterIncCounts(spec: InstrumentSpec, b: Bucket, writes: seq<WriteCall>, g: string, now: Timestamp)
    requires spec.kind == CounterInc
    ensures Get(Feed(spec, b, writes, now).data, g) == Get(b.data, g) + CountFor(spec.test, writes, g)
    ensures g in Feed(spec, b, writes, now).groups <==> g in b.groups || CountFor(spec.test, writes, g) > 0
  {
    if writes != [] {
      CounterIncCounts(spec, b, writes[..|writes| - 1], g, now);
    }
  }

  /**
   * What a write contributes to group `g`: the cast value when the write is
   * for `g`, its line matches and the cast succeeds; nothing otherwise.
   */
  function ValueFor(spec: InstrumentSpec, w: WriteCall, g: string): Option<int> {
    if w.group == g && spec.test(w.line).Some? then
      match ValueOf(spec, spec.test(w.line).value)
      case Value(n) => Some(n)
      case _ => None
    else None
  }

  /** Some write to `g` matched and its value was accepted. */
  predicate AcceptedFor(spec: InstrumentSpec, writes: seq<WriteCall>, g: string) {
    writes != [] && (ValueFor(spec, writes[|writes| - 1], g).Some? || AcceptedFor(spec, writes[..|writes| - 1], g))
  }

  /** A write that does not fault touches `g` exactly when it stores a value for `g`. */
  lemma TouchStep(spec: InstrumentSpec, b: Bucket, w: WriteCall, g: string, now: Timestamp)
    requires !Faults(spec, w.line)
    ensures g in Step(spec, b, w.group, w.line, now).groups <==> g in b.groups || ValueFor(spec, w, g).Some?
  {
  }

  /**
   * While no write faults, a group is touched, and so among the groups `read`
   * reports before trimming, exactly when it already was or one of its writes
   * was accepted.
   */
  lemma {:induction false} AcceptedWritesTouch(spec: InstrumentSpec, b: Bucket, writes: seq<WriteCall>, g: string, now: Timestamp)
    requires NoFaults(spec, writes)
    ensures g in Feed(spec, b, writes, now).groups <==> g in b.groups || AcceptedFor(spec, writes, g)
  {
    if writes != [] {
      var init := writes[..|writes| - 1];
      assert NoFaults(spec, init) by {
        forall i | 0 <= i < |init| ensures !Faults(spec, init[i].line) {
          assert init[i] == writes[i];
        }
      }
      AcceptedWritesTouch(spec, b, init, g, now);
      TouchStep(spec, Feed(spec, b, init, now), writes[|writes| - 1], g, now);
    }
  }

  /** The sum of the cast values CounterSum extracts from the writes to `g`. */
  function SumFor(spec: InstrumentSpec, writes: seq<WriteCall>, g: string): int {
    if writes == [] then 0
    else
      var w := writes[|writes| - 1];
      var v := ValueFor(spec, w, g);
      SumFor(spec, writes[..|writes| - 1], g) + (if v.Some? then v.value else 0)
  }

  /**
   * CounterSum sums: while no write faults, a group's total is what it was
   * (from `value_cast(0)` = 0 for a new group) plus the cast value of every
   * accepted capture; non-numeric captures add nothing.
   */
  lemma {:induction false} CounterSumSums(spec: InstrumentSpec, b: Bucket, writes: seq<WriteCall>, g: string, now: Timestamp)
    requires spec.kind == CounterSum && NoFaults(spec, writes)
    ensures Get(Feed(spec, b, writes, now).data, g) == Get(b.data, g) + SumFor(spec, writes, g)
    ensures g in Feed(spec, b, writes, now).groups <==> g in b.groups || AcceptedFor(spec, writes, g)
  {
    AcceptedWritesTouch(spec, b, writes, g, now);
    if writes != [] {
      var init := writes[..|writes| - 1];
      CounterSumSums(spec, b, init, g, now);
      SumStep(spec, Feed(spec, b, init, now), writes[|writes| - 1], g, now);
    }
  }

  lemma SumStep(spec: InstrumentSpec, b: Bucket, w: WriteCall, g: string, now: Timestamp)
    requires spec.kind == CounterSum && !Faults(spec, w.line)
    ensures Get(Step(spec, b, w.group, w.line, now).data, g)
         == Get(b.data, g) + (if ValueFor(spec, w, g).Some? then ValueFor(spec, w, g).value else 0)
  {
  }

  /** The value of the last accepted write to `g`, or `init` when there is none. */
  function LastFor(spec: InstrumentSpec, writes: seq<WriteCall>, g: string, init: Option<int>): Option<int> {
    if writes == [] then init
    else
      var w := writes[|writes| - 1];
      var v := ValueFor(spec, w, g);
      if v.Some? then v else LastFor(spec, writes[..|writes| - 1], g, init)
  }

  /** GaugeInt overwrites: while no write faults, the last accepted value of a group wins. */
  lemma {:induction false} GaugeKeepsLast(spec: InstrumentSpec, b: Bucket, writes: seq<WriteCall>, g: string, now: Timestamp)
    requires spec.kind == GaugeInt && NoFaults(spec, writes)
    ensures Lookup(Feed(spec, b, writes, now).data, g) == LastFor(spec, writes, g, Lookup(b.data, g))
    ensures g in Feed(spec, b, writes, now).groups <==> g in b.groups || AcceptedFor(spec, writes, g)
  {
    AcceptedWritesTouch(spec, b, writes, g, now);
    if writes != [] {
      var init := writes[..|writes| - 1];
      GaugeKeepsLast(spec, b, init, g, now);
      GaugeStep(spec, Feed(spec, b, init, now), writes[|writes| - 1], g, now);
    }
  }

  lemma GaugeStep(spec: InstrumentSpec, b: Bucket, w: WriteCall, g: string, now: Timestamp)
    requires spec.kind == GaugeInt && !Faults(spec, w.line)
    ensures Lookup(Step(spec, b, w.group, w.line, now).data, g)
         == if ValueFor(spec, w, g).Some? then ValueFor(spec, w, g) else Lookup(b.data, g)
  {
  }

  /** The largest of `init` and the accepted values written to `g`. */
  function MaxFor(spec: InstrumentSpec, writes: seq<WriteCall>, g: string, init: Option<int>): Option<int> {
    if writes == [] then init
    else
      var w := writes[|writes| - 1];
      var v := ValueFor(spec, w, g);
      var m := MaxFor(spec, writes[..|writes| - 1], g, init);
      if v.None? then m
      else if m.Some? && m.value >= v.value then m
      else v
  }

  /** Max keeps the running maximum: while no write faults, a group holds the largest accepted value. */
  lemma {:induction false} MaxKeepsMaximum(spec: InstrumentSpec, b: Bucket, writes: seq<WriteCall>, g: string, now: Timestamp)
    requires spec.kind == Max && NoFaults(spec, writes)
    ensures Lookup(Feed(spec, b, writes, now).data, g) == MaxFor(spec, writes, g, Lookup(b.data, g))
    ensures g in Feed(spec, b, writes, now).groups <==> g in b.groups || AcceptedFor(spec, writes, g)
  {
    AcceptedWritesTouch(spec, b, writes, g, now);
    if writes != [] {
      var init := writes[..|writes| - 1];
      MaxKeepsMaximum(spec, b, init, g, now);
      MaxStep(spec, Feed(spec, b, init, now), writes[|writes| - 1], g, now);
    }
  }

  lemma MaxStep(spec: InstrumentSpec, b: Bucket, w: WriteCall, g: string, now: Timestamp)
    requires spec.kind == Max && !Faults(spec, w.line)
    ensures var v := ValueFor(spec, w, g); var m := Lookup(b.data, g);
      Lookup(Step(spec, b, w.group, w.line, now).data, g)
        == if v.None? then m else if m.Some? && m.value >= v.value then m else v
  {
  }

  /**
   * GaugeInt and Max with a group name set record nothing: once any line
   * matches, the bucket is empty, and it stays so.
   */
  lemma {:induction false} NamedGaugeRecordsNothing(spec: InstrumentSpec, b: Bucket, writes: seq<WriteCall>, now: Timestamp)
    requires ResetsOnRead(spec.kind) && Truthy(spec.regexGroup)
    ensures Feed(spec, b, writes, now) == if exists i :: 0 <= i < |writes| && spec.test(writes[i].line).Some? then Empty else b
  {
    if writes != [] {
      var init := writes[..|writes| - 1];
      NamedGaugeRecordsNothing(spec, b, init, now);
      assert forall i :: 0 <= i < |init| ==> init[i] == writes[i];
      if exists i :: 0 <= i < |writes| && spec.test(writes[i].line).Some? {
        if !exists i :: 0 <= i < |init| && spec.test(init[i].line).Some? {
          assert spec.test(writes[|writes| - 1].line).Some?;
        }
      }
    }
  }

  // ---------------------------------------------------------------------
  // Trimming and reading
  // ---------------------------------------------------------------------

  /**
   * `trim_groups` keeps `len(groups[:maxgroups])` groups, and they are the
   * alphabetically smallest: every survivor is below every evicted key. The
   * timestamps never decide, because dictionary keys are unique.
   */
  lemma TrimKeepsSmallest(groups: map<string, Timestamp>, maxgroups: int)
    ensures |Trim(groups, maxgroups)| == SliceEnd(|groups|, maxgroups)
    ensures maxgroups >= 0 ==> |Trim(groups, maxgroups)| == if |groups| < maxgroups then |groups| else maxgroups
    ensures forall s, e :: s in Trim(groups, maxgroups) && e in groups && e !in Trim(groups, maxgroups) ==> Less(s, e)
  {
    SortedKeysSpec(groups.Keys);
    var items := SortedKeys(groups.Keys);
    var kept := items[..SliceEnd(|items|, maxgroups)];
    assert StrictlySorted(kept);
    SortedElementsCard(kept);
    SortedPrefixSmallest(items, SliceEnd(|items|, maxgroups));
    assert Trim(groups, maxgroups).Keys == set k | k in kept;
  }

  /** Trimming to a non-negative cap twice is trimming once. */
  lemma TrimIdempotent(groups: map<string, Timestamp>, maxgroups: int)
    requires maxgroups >= 0
    ensures Trim(Trim(groups, maxgroups), maxgroups) == Trim(groups, maxgroups)
  {
    var h := Trim(groups, maxgroups);
    TrimKeepsSmallest(groups, maxgroups);
    SortedKeysSpec(h.Keys);
    var items := SortedKeys(h.Keys);
    assert SliceEnd(|items|, maxgroups) == |items|;
    assert items[..|items|] == items;
    assert Trim(h, maxgroups).Keys == h.Keys;
  }

  /**
   * After `read`: at most `maxgroups` groups, the smallest ones, are
   * returned, every value cast into [0, 2**32); the bucket left behind holds
   * only returned groups, at most `maxgroups` of them, and none of the evicted
   * groups' data; a counter keeps exactly the returned items and the trimmed
   * groups.
   */
  lemma ReadBounds(spec: InstrumentSpec, b: Bucket)
    requires b.Valid()
    ensures var r := ReadOf(spec, b);
      && r.items.Keys <= b.groups.Keys
      && |r.items| == SliceEnd(|b.groups|, spec.maxgroups)
      && (spec.maxgroups >= 0 ==> |r.items| <= spec.maxgroups)
      && (forall s, e :: s in r.items && e in b.groups && e !in r.items ==> Less(s, e))
      && (forall k :: k in r.items ==> 0 <= r.items[k] < NUM32 && r.items[k] == Wrap32(b.data[k]))
      && r.after.Valid()
      && r.after.data.Keys == r.after.groups.Keys
      && r.after.groups.Keys <= r.items.Keys
      && (spec.maxgroups >= 0 ==> |r.after.groups| <= spec.maxgroups)
      && (forall k :: k in b.groups && k !in r.items ==> k !in r.after.data)
      && (!ResetsOnRead(spec.kind) ==> r.after == Bucket(r.items, Trim(b.groups, spec.maxgroups)))
  {
    var g := Trim(b.groups, spec.maxgroups);
    TrimKeepsSmallest(b.groups, spec.maxgroups);
    var r := ReadOf(spec, b);
    assert r.items.Keys == g.Keys;
  }

  /**
   * CounterInc and CounterSum never reset on read: with a non-negative cap,
   * a second read with no write in between returns the same values and
   * leaves the same bucket.
   */
  lemma CountersRereadSame(spec: InstrumentSpec, b: Bucket)
    requires b.Valid() && !ResetsOnRead(spec.kind) && spec.maxgroups >= 0
    ensures ReadOf(spec, ReadOf(spec, b).after) == ReadOf(spec, b)
  {
    var first := ReadOf(spec, b);
    TrimIdempotent(b.groups, spec.maxgroups);
    var second := ReadOf(spec, first.after);
    assert second.items == first.items;
  }

  /** GaugeInt and Max return their snapshot and then hold nothing: the next read returns nothing. */
  lemma GaugesResetOnRead(spec: InstrumentSpec, b: Bucket)
    requires b.Valid() && ResetsOnRead(spec.kind)
    ensures ReadOf(spec, b).after == Empty
    ensures ReadOf(spec, ReadOf(spec, b).after).items == map[]
  {
  }

  /** An instrument object: the constructor's arguments and the two dictionaries it mutates. */
  class Instrument {
    const kind: Kind
    const test: Matcher
    const maxgroups: int
    const regexGroup: Option<string>
    var data: map<string, int>
    var groups: map<string, Timestamp>

    function Spec(): InstrumentSpec {
      InstrumentSpec(kind, test, maxgroups, regexGroup)
    }

    function State(): Bucket
      reads this
    {
      Bucket(data, groups)
    }

    ghost predicate Valid()
      reads this
    {
      State().Valid()
    }

    /** `__init__`: store the arguments and start from an empty bucket. */
    constructor (kind: Kind, test: Matcher, maxgroups: int, regexGroup: Option<string>)
      ensures Spec() == InstrumentSpec(kind, test, maxgroups, regexGroup)
      ensures State() == Empty && Valid()
    {
      this.kind := kind;
      this.test := test;
      this.maxgroups := maxgroups;
      this.regexGroup := regexGroup;
      data := map[];
      groups := map[];
    }

    /** `reset`: empty the bucket and start again. */
    method Reset()
      modifies this
      ensures State() == Empty && Valid()
    {
      data := map[];
      groups := map[];
    }

    /** `touch_group`: record the time the group was last written. */
    method TouchGroup(group: string, now: Timestamp)
      modifies this
      ensures groups == old(groups)[group := now] && data == old(data)
    {
      groups := groups[group := now];
    }

    /** `trim_groups`: sort the group items and keep the first `maxgroups` of them. */
    method TrimGroups()
      modifies this
      ensures groups == Trim(old(groups), maxgroups) && data == old(data)
    {
      var items := SortKeys(groups.Keys);
      SortedKeysSpec(groups.Keys);
      var kept := items[..SliceEnd(|items|, maxgroups)];
      groups := map k | k in kept :: groups[k];
    }

    /** `normalise`: rebuild `data` for the touched groups only, through the cast. */
    method Normalise()
      requires Valid()
      modifies this
      ensures groups == old(groups)
      ensures data == map k | k in old(groups) :: Wrap32(old(data)[k])
    {
      var newdata: map<string, int> := map[];
      var todo := groups.Keys;
      while todo != {}
        invariant todo <= groups.Keys
        invariant newdata == map k | k in groups.Keys - todo :: Wrap32(data[k])
        decreases |todo|
      {
        var k :| k in todo;
        newdata := newdata[k := Wrap32(data[k])];
        todo := todo - {k};
      }
      data := newdata;
    }

    /** `read`: the current results of the bucket; GaugeInt and Max then reset. */
    method Read() returns (items: map<string, int>)
      requires Valid()
      modifies this
      ensures Valid()
      ensures items == ReadOf(Spec(), old(State())).items
      ensures State() == ReadOf(Spec(), old(State())).after
    {
      TrimGroups();
      Normalise();
      items := data;
      if kind == GaugeInt || kind == Max {
        Reset();
      }
    }

    /** `write`: match the line, fold its value in, and touch the group on success. */
    method Write(group: string, line: string, now: Timestamp)
      requires Valid()
      modifies this
      ensures Valid()
      ensures State() == Step(Spec(), old(State()), group, line, now)
    {
      var mo := test(line);
      if mo.Some? {
        var outcome := AppendData(Spec(), data, group, mo.value);
        match outcome {
          case Rejected =>
          case Failed =>
            Reset();
          case Stored(d) =>
            data := d;
            TouchGroup(group, now);
        }
      }
    }
  }
}
