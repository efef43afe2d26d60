/**
 * One tailed source and the match definitions attached to it.
 *
 * `update` reads the lines that arrived since the last call, classifies each
 * by the grouping expression into a group key (the first positional capture,
 * or the named capture when a group name is configured), normalises the key
 * by turning '.' and '-' into '_', and writes the line under that key to
 * every attached instrument in the order they were added. `read_metrics`
 * reads every instrument and names each value `<group>*<instance>`.
 *
 * The source of lines (a followed file or a syslog socket) is outside the
 * model: a syslog source is a FIFO queue, and `update` takes the lines it
 * produced as a parameter.
 */
module GroupingTails {
  import opened Wrappers
  import opened PyBuiltins
  import opened Instruments

  // ---------------------------------------------------------------------
  // QueueFile: lines handed over by the syslog handler
  // ---------------------------------------------------------------------

  /** The queue the syslog handler fills and `update` drains. */
  class QueueFile {
    var queue: seq<string>

    constructor ()
      ensures queue == []
    {
      queue := [];
    }

    /** `queue.put(line)`: the handler's hand-over, at the back. */
    method Put(line: string)
      modifies this
      ensures queue == old(queue) + [line]
    {
      queue := queue + [line];
    }

    /** `readlines`: take lines from the front until the queue is empty. */
    method ReadLines() returns (lines: seq<string>)
      modifies this
      ensures lines == old(queue) && queue == []
    {
      lines := [];
      while queue != []
        invariant old(queue) == lines + queue
        decreases |queue|
      {
        lines := lines + [queue[0]];
        queue := queue[1..];
      }
    }
  }

  // ---------------------------------------------------------------------
  // The starting offset for a followed file
  // ---------------------------------------------------------------------

  /** What `os.stat` and `os.path.getsize` report; None stands for OSError. */
  datatype FileStat = FileStat(inode: nat, size: nat)

  /** The offset file's content: the inode and the offset to start reading from. */
  datatype OffsetRecord = OffsetRecord(inode: nat, offset: int)

  const TailBytes: nat := 1024

  /**
   * An offset record is written only when the file could be examined and the
   * offset `size - 1024` is positive; the tail then starts within the file,
   * 1024 bytes before its end.
   */
  function InitialOffset(stat: Option<FileStat>): (r: Option<OffsetRecord>)
    ensures r.Some? <==> stat.Some? && stat.value.size > TailBytes
    ensures r.Some? ==> r.value.inode == stat.value.inode
    ensures r.Some? ==> 0 < r.value.offset < stat.value.size && stat.value.size - r.value.offset == TailBytes
  {
    match stat
    case None => None
    case Some(st) =>
      var offset := st.size - TailBytes;
      if offset > 0 then Some(OffsetRecord(st.inode, offset)) else None
  }

  /** `"%s\n%s" % (inode, offset)`. */
  function OffsetText(rec: OffsetRecord): string {
    FormatInt(rec.inode) + "\n" + FormatInt(rec.offset)
  }

  /** The text before the first newline and the text after it. */
  function SplitLine(s: string): (r: (string, string))
    ensures forall i :: 0 <= i < |r.0| ==> r.0[i] != '\n'
  {
    if s == [] then ("", "")
    else if s[0] == '\n' then ("", s[1..])
    else
      var rest := SplitLine(s[1..]);
      ([s[0]] + rest.0, rest.1)
  }

  /** Reading the offset file back: one integer per line. */
  function ParseOffsetText(s: string): Option<OffsetRecord> {
    var (first, second) := SplitLine(s);
    match (ParseInt(first), ParseInt(second))
    case (Some(i), Some(o)) => if i >= 0 then Some(OffsetRecord(i, o)) else None
    case _ => None
  }

  lemma {:induction false} SplitLineAt(a: string, b: string)
    requires forall i :: 0 <= i < |a| ==> a[i] != '\n'
    ensures SplitLine(a + "\n" + b) == (a, b)
  {
    if a != [] {
      var s := a + "\n" + b;
      assert s[0] == a[0] && s[1..] == a[1..] + "\n" + b;
      SplitLineAt(a[1..], b);
      assert [a[0]] + a[1..] == a;
    } else {
      assert (a + "\n" + b)[1..] == b;
    }
  }

  lemma FormatNatNoNewline(n: nat)
    ensures forall i :: 0 <= i < |FormatNat(n)| ==> FormatNat(n)[i] != '\n'
  {
  }

  /** The offset record written for a file reads back as the same record. */
  lemma OffsetTextRoundTrip(rec: OffsetRecord)
    ensures ParseOffsetText(OffsetText(rec)) == Some(rec)
  {
    var a := FormatInt(rec.inode);
    FormatNatNoNewline(rec.inode);
    assert a == FormatNat(rec.inode);
    SplitLineAt(a, FormatInt(rec.offset));
    ParseFormatRoundTrip(rec.inode);
    ParseFormatRoundTrip(rec.offset);
  }

  // ---------------------------------------------------------------------
  // Classifying lines into groups
  // ---------------------------------------------------------------------

  /** `groupname.replace(".", "_").replace("-", "_")`. */
  function NormaliseKey(g: string): (r: string)
    ensures |r| == |g|
    ensures forall i :: 0 <= i < |g| ==> r[i] == if g[i] == '.' || g[i] == '-' then '_' else g[i]
    ensures forall i :: 0 <= i < |r| ==> r[i] != '.' && r[i] != '-'
  {
    Replace(Replace(g, '.', '_'), '-', '_')
  }

  /** Normalising a key twice is normalising it once. */
  lemma NormaliseKeyIdempotent(g: string)
    ensures NormaliseKey(NormaliseKey(g)) == NormaliseKey(g)
  {
    var n := NormaliseKey(g);
    assert forall i :: 0 <= i < |n| ==> NormaliseKey(n)[i] == n[i];
  }

  /**
   * The group key of a line, before normalisation: nothing when the
   * grouping expression does not match; without a group name, the first
   * positional capture (nothing when there are no groups); with one, the
   * named capture (nothing when that group is unknown). A group that did
   * not take part in the match is nothing as well.
   */
  function GroupKey(groupbygroup: Option<string>, mo: Option<Captures>): (r: Option<string>)
    ensures mo.None? ==> r.None?
    ensures mo.Some? && groupbygroup.None? ==>
      r == if |mo.value.positional| > 0 then mo.value.positional[0] else None
    ensures mo.Some? && groupbygroup.Some? ==>
      r == if groupbygroup.value in mo.value.named then mo.value.named[groupbygroup.value] else None
  {
    match mo
    case None => None
    case Some(m) =>
      if groupbygroup.None? then
        if |m.positional| > 0 then m.positional[0] else None
      else if groupbygroup.value in m.named then m.named[groupbygroup.value]
      else None
  }

  /** The normalised group key of a line, or None when the line is dropped. */
  function Classify(groupmatch: Matcher, groupbygroup: Option<string>, line: string): (r: Option<string>)
    ensures r.None? <==> GroupKey(groupbygroup, groupmatch(line)).None?
    ensures r.Some? ==> r.value == NormaliseKey(GroupKey(groupbygroup, groupmatch(line)).value)
  {
    match GroupKey(groupbygroup, groupmatch(line))
    case None => None
    case Some(g) => Some(NormaliseKey(g))
  }

  /** The writes `update` makes to each instrument for a run of lines. */
  function Classified(groupmatch: Matcher, groupbygroup: Option<string>, lines: seq<string>): seq<WriteCall> {
    if lines == [] then []
    else
      var line := lines[|lines| - 1];
      Classified(groupmatch, groupbygroup, lines[..|lines| - 1])
        + match Classify(groupmatch, groupbygroup, line)
          case None => []
          case Some(g) => [WriteCall(g, line)]
  }

  /**
   * Every write comes from a line of the run, is keyed by that line's
   * normalised key, and carries no '.' or '-' in its key; there is at most
   * one per line.
   */
  lemma {:induction false} ClassifiedWrites(groupmatch: Matcher, groupbygroup: Option<string>, lines: seq<string>)
    ensures |Classified(groupmatch, groupbygroup, lines)| <= |lines|
    ensures forall w :: w in Classified(groupmatch, groupbygroup, lines) ==>
      w.line in lines && Classify(groupmatch, groupbygroup, w.line) == Some(w.group)
    ensures forall w, i :: w in Classified(groupmatch, groupbygroup, lines) && 0 <= i < |w.group| ==>
      w.group[i] != '.' && w.group[i] != '-'
  {
    if lines != [] {
      ClassifiedWrites(groupmatch, groupbygroup, lines[..|lines| - 1]);
    }
  }

  /** A line that classifies to nothing makes no write. */
  lemma ClassifiedDropped(groupmatch: Matcher, groupbygroup: Option<string>, lines: seq<string>, line: string)
    requires Classify(groupmatch, groupbygroup, line).None?
    ensures Classified(groupmatch, groupbygroup, lines + [line]) == Classified(groupmatch, groupbygroup, lines)
  {
    assert (lines + [line])[..|lines|] == lines;
  }

  /** A line that has a group key makes exactly one write, after the writes of the earlier lines. */
  lemma ClassifiedKept(groupmatch: Matcher, groupbygroup: Option<string>, lines: seq<string>, line: string)
    requires Classify(groupmatch, groupbygroup, line).Some?
    ensures Classified(groupmatch, groupbygroup, lines + [line])
         == Classified(groupmatch, groupbygroup, lines) + [WriteCall(Classify(groupmatch, groupbygroup, line).value, line)]
  {
    assert (lines + [line])[..|lines|] == lines;
  }

  /** Classifying a run of lines is classifying its parts one after the other. */
  lemma {:induction false} ClassifiedConcat(groupmatch: Matcher, groupbygroup: Option<string>, xs: seq<string>, ys: seq<string>)
    ensures Classified(groupmatch, groupbygroup, xs + ys)
         == Classified(groupmatch, groupbygroup, xs) + Classified(groupmatch, groupbygroup, ys)
    decreases |ys|
  {
    if ys == [] {
      assert xs + ys == xs;
    } else {
      var init := ys[..|ys| - 1];
      assert (xs + ys)[..|xs + ys| - 1] == xs + init;
      assert (xs + ys)[|xs + ys| - 1] == ys[|ys| - 1];
      ClassifiedConcat(groupmatch, groupbygroup, xs, init);
    }
  }

  // ---------------------------------------------------------------------
  // Metrics
  // ---------------------------------------------------------------------

  /** One value handed to collectd: its name, its collectd type and the value. */
  datatype Metric = Metric(name: string, valuetype: string, value: int)

  /** `"%s*%s" % (groupname, instance_name)`. */
  function MetricName(group: string, instanceName: string): (r: string)
    ensures |r| == |group| + 1 + |instanceName|
    ensures r[..|group|] == group && r[|group|] == '*' && r[|group| + 1..] == instanceName
  {
    group + "*" + instanceName
  }

  /** Within one match definition, different groups never share a metric name. */
  lemma MetricNameInjective(g1: string, g2: string, instanceName: string)
    requires MetricName(g1, instanceName) == MetricName(g2, instanceName)
    ensures g1 == g2
  {
    assert |g1| == |g2|;
    assert g1 == MetricName(g1, instanceName)[..|g1|];
  }

  /** An attached instrument with the instance name and collectd type its values are reported under. */
  datatype MatchDefinition = MatchDefinition(instanceName: string, valuetype: string, instrument: Instrument)

  /** The metrics one definition reports for the items its instrument's read returned. */
  function Batch(instanceName: string, valuetype: string, items: map<string, int>): set<Metric> {
    set g | g in items :: Metric(MetricName(g, instanceName), valuetype, items[g])
  }

  /** No two metrics of one batch share a name. */
  lemma BatchNamesUnique(instanceName: string, valuetype: string, items: map<string, int>)
    ensures forall m1, m2 ::
      (m1 in Batch(instanceName, valuetype, items) && m2 in Batch(instanceName, valuetype, items) && m1.name == m2.name)
      ==> m1 == m2
  {
    var b := Batch(instanceName, valuetype, items);
    forall m1, m2 | m1 in b && m2 in b && m1.name == m2.name
      ensures m1 == m2
    {
      var g1 :| g1 in items && m1 == Metric(MetricName(g1, instanceName), valuetype, items[g1]);
      var g2 :| g2 in items && m2 == Metric(MetricName(g2, instanceName), valuetype, items[g2]);
      MetricNameInjective(g1, g2, instanceName);
    }
  }

  /** One metric per group: a batch is as large as the items it reports. */
  lemma {:induction false} BatchSize(instanceName: string, valuetype: string, items: map<string, int>)
    ensures |Batch(instanceName, valuetype, items)| == |items|
    decreases |items|
  {
    if items != map[] {
      var g :| g in items;
      var rest := items - {g};
      BatchSize(instanceName, valuetype, rest);
      var m := Metric(MetricName(g, instanceName), valuetype, items[g]);
      assert Batch(instanceName, valuetype, items) == Batch(instanceName, valuetype, rest) + {m};
      forall h | h in rest
        ensures Metric(MetricName(h, instanceName), valuetype, rest[h]) != m
      {
        if MetricName(h, instanceName) == MetricName(g, instanceName) {
          MetricNameInjective(g, h, instanceName);
        }
      }
    }
  }

  /**
   * What one definition reports on a read: at most `maxgroups` metrics (for
   * a non-negative cap), one per surviving group, each value in [0, 2**32).
   */
  lemma BatchOfRead(d: MatchDefinition, spec: InstrumentSpec, b: Bucket)
    requires b.Valid()
    ensures var items := ReadOf(spec, b).items;
      var batch := Batch(d.instanceName, d.valuetype, items);
      && |batch| == |items|
      && (spec.maxgroups >= 0 ==> |batch| <= spec.maxgroups)
      && forall m :: m in batch ==> 0 <= m.value < NUM32 && m.valuetype == d.valuetype
  {
    var items := ReadOf(spec, b).items;
    ReadBounds(spec, b);
    BatchSize(d.instanceName, d.valuetype, items);
  }

  // ---------------------------------------------------------------------
  // GroupingTail
  // ---------------------------------------------------------------------

  /** All matchings for one source: the grouping expression and the attached definitions. */
  class GroupingTail {
    /** The file path or `syslog://host:port` URL the lines come from. */
    const source: string
    /** `re.compile(groupby).match`. */
    const groupmatch: Matcher
    /** The regular-expression group that holds the group key, if any. */
    const groupbygroup: Option<string>
    var matchDefinitions: seq<MatchDefinition>

    ghost function Instruments(): set<Instrument>
      reads this
    {
      set d | d in matchDefinitions :: d.instrument
    }

    /** Every definition has its own instrument, and every instrument keeps its invariant. */
    ghost predicate Valid()
      reads this, Instruments()
    {
      && (forall i, j :: 0 <= i < j < |matchDefinitions| ==> matchDefinitions[i].instrument != matchDefinitions[j].instrument)
      && (forall i :: 0 <= i < |matchDefinitions| ==> matchDefinitions[i].instrument.Valid())
    }

    /** `__init__` with the grouping expression already compiled; no definitions yet. */
    constructor (source: string, groupmatch: Matcher, groupbygroup: Option<string>)
      ensures this.source == source && this.groupmatch == groupmatch && this.groupbygroup == groupbygroup
      ensures matchDefinitions == [] && Valid()
    {
      this.source := source;
      this.groupmatch := groupmatch;
      this.groupbygroup := groupbygroup;
      matchDefinitions := [];
    }

    /** `add_match`: append one definition; the earlier ones stay as they are. */
    method AddMatch(instanceName: string, valuetype: string, instrument: Instrument)
      requires Valid() && instrument.Valid() && instrument !in Instruments()
      modifies this
      ensures Valid()
      ensures matchDefinitions == old(matchDefinitions) + [MatchDefinition(instanceName, valuetype, instrument)]
      ensures Instruments() == old(Instruments()) + {instrument}
    {
      matchDefinitions := matchDefinitions + [MatchDefinition(instanceName, valuetype, instrument)];
    }

    /** Write one line to the `j`-th instrument; every other instrument keeps its state. */
    method WriteAt(j: nat, group: string, line: string, now: Timestamp)
      requires Valid() && j < |matchDefinitions|
      modifies matchDefinitions[j].instrument
      ensures Valid()
      ensures matchDefinitions[j].instrument.State()
        == Step(matchDefinitions[j].instrument.Spec(), old(matchDefinitions[j].instrument.State()), group, line, now)
      ensures forall i :: 0 <= i < |matchDefinitions| && i != j ==>
        matchDefinitions[i].instrument.State() == old(matchDefinitions[i].instrument.State())
    {
      matchDefinitions[j].instrument.Write(group, line, now);
    }

    /** Write one classified line to every instrument, in the order the definitions were added. */
    method WriteEach(group: string, line: string, now: Timestamp)
      requires Valid()
      modifies Instruments()
      ensures Valid()
      ensures forall i :: 0 <= i < |matchDefinitions| ==>
        matchDefinitions[i].instrument.State()
          == Step(matchDefinitions[i].instrument.Spec(), old(matchDefinitions[i].instrument.State()), group, line, now)
    {
      var j := 0;
      while j < |matchDefinitions|
        invariant 0 <= j <= |matchDefinitions|
        invariant Valid()
        invariant forall i :: 0 <= i < j ==>
          matchDefinitions[i].instrument.State()
            == Step(matchDefinitions[i].instrument.Spec(), old(matchDefinitions[i].instrument.State()), group, line, now)
        invariant forall i :: j <= i < |matchDefinitions| ==>
          matchDefinitions[i].instrument.State() == old(matchDefinitions[i].instrument.State())
      {
        WriteAt(j, group, line, now);
        j := j + 1;
      }
    }

    /** The body of `update` for one line: classify it and, when it has a group, write it everywhere. */
    method UpdateLine(line: string, now: Timestamp)
      requires Valid()
      modifies Instruments()
      ensures Valid()
      ensures forall i :: 0 <= i < |matchDefinitions| ==>
        matchDefinitions[i].instrument.State()
          == Feed(matchDefinitions[i].instrument.Spec(), old(matchDefinitions[i].instrument.State()),
                  Classified(groupmatch, groupbygroup, [line]), now)
    {
      assert [line][..0] == [];
      var key := GroupKey(groupbygroup, groupmatch(line));
      if key.Some? {
        var group := NormaliseKey(key.value);
        assert Classified(groupmatch, groupbygroup, [line]) == [WriteCall(group, line)];
        WriteEach(group, line, now);
      } else {
        assert Classified(groupmatch, groupbygroup, [line]) == [];
      }
    }

    /**
     * `update`: every line of the run that classifies to a group is written,
     * under its normalised key, to every instrument; each instrument ends in
     * the state the classified writes lead to.
     */
    method Update(lines: seq<string>, now: Timestamp)
      requires Valid()
      modifies Instruments()
      ensures Valid()
      ensures forall i :: 0 <= i < |matchDefinitions| ==>
        matchDefinitions[i].instrument.State()
          == Feed(matchDefinitions[i].instrument.Spec(), old(matchDefinitions[i].instrument.State()),
                  Classified(groupmatch, groupbygroup, lines), now)
    {
      var n := 0;
      while n < |lines|
        invariant 0 <= n <= |lines|
        invariant Valid()
        invariant forall i :: 0 <= i < |matchDefinitions| ==>
          matchDefinitions[i].instrument.State()
            == Feed(matchDefinitions[i].instrument.Spec(), old(matchDefinitions[i].instrument.State()),
                    Classified(groupmatch, groupbygroup, lines[..n]), now)
      {
        assert lines[..n + 1] == lines[..n] + [lines[n]];
        ClassifiedConcat(groupmatch, groupbygroup, lines[..n], [lines[n]]);
        UpdateLine(lines[n], now);
        forall i | 0 <= i < |matchDefinitions|
          ensures matchDefinitions[i].instrument.State()
            == Feed(matchDefinitions[i].instrument.Spec(), old(matchDefinitions[i].instrument.State()),
                    Classified(groupmatch, groupbygroup, lines[..n + 1]), now)
        {
          FeedConcat(matchDefinitions[i].instrument.Spec(), old(matchDefinitions[i].instrument.State()),
                     Classified(groupmatch, groupbygroup, lines[..n]), Classified(groupmatch, groupbygroup, [lines[n]]), now);
        }
        n := n + 1;
      }
      assert lines[..n] == lines;
    }

    /** Read the `j`-th instrument; every other instrument keeps its state. */
    method ReadAt(j: nat) returns (items: map<string, int>)
      requires Valid() && j < |matchDefinitions|
      modifies matchDefinitions[j].instrument
      ensures Valid()
      ensures old(matchDefinitions[j].instrument.State()).Valid()
      ensures items == ReadOf(matchDefinitions[j].instrument.Spec(), old(matchDefinitions[j].instrument.State())).items
      ensures matchDefinitions[j].instrument.State()
        == ReadOf(matchDefinitions[j].instrument.Spec(), old(matchDefinitions[j].instrument.State())).after
      ensures forall i :: 0 <= i < |matchDefinitions| && i != j ==>
        matchDefinitions[i].instrument.State() == old(matchDefinitions[i].instrument.State())
    {
      items := matchDefinitions[j].instrument.Read();
    }

    /**
     * `read_metrics`: read every instrument in definition order and report
     * what each read returned under `<group>*<instance>`; each instrument is
     * left as its read leaves it.
     */
    method ReadMetrics() returns (batches: seq<set<Metric>>)
      requires Valid()
      modifies Instruments()
      ensures Valid()
      ensures |batches| == |matchDefinitions|
      ensures forall i :: 0 <= i < |matchDefinitions| ==>
        var d := matchDefinitions[i];
        && old(d.instrument.State()).Valid()
        && batches[i] == Batch(d.instanceName, d.valuetype, ReadOf(d.instrument.Spec(), old(d.instrument.State())).items)
        && d.instrument.State() == ReadOf(d.instrument.Spec(), old(d.instrument.State())).after
    {
      batches := [];
      var j := 0;
      while j < |matchDefinitions|
        invariant 0 <= j <= |matchDefinitions| && |batches| == j
        invariant Valid()
        invariant forall i :: 0 <= i < |matchDefinitions| ==> old(matchDefinitions[i].instrument.State()).Valid()
        invariant forall i :: 0 <= i < j ==>
          var d := matchDefinitions[i];
          && batches[i] == Batch(d.instanceName, d.valuetype, ReadOf(d.instrument.Spec(), old(d.instrument.State())).items)
          && d.instrument.State() == ReadOf(d.instrument.Spec(), old(d.instrument.State())).after
        invariant forall i :: j <= i < |matchDefinitions| ==>
          matchDefinitions[i].instrument.State() == old(matchDefinitions[i].instrument.State())
      {
        var items := ReadAt(j);
        batches := batches + [Batch(matchDefinitions[j].instanceName, matchDefinitions[j].valuetype, items)];
        j := j + 1;
      }
    }
  }

  /**
   * Two updates in a row write what one update over both runs of lines
   * writes, when they happen at the same time.
   */
  lemma UpdatesCompose(spec: InstrumentSpec, b: Bucket, groupmatch: Matcher, groupbygroup: Option<string>,
                       xs: seq<string>, ys: seq<string>, now: Timestamp)
    ensures Feed(spec, Feed(spec, b, Classified(groupmatch, groupbygroup, xs), now), Classified(groupmatch, groupbygroup, ys), now)
         == Feed(spec, b, Classified(groupmatch, groupbygroup, xs + ys), now)
  {
    ClassifiedConcat(groupmatch, groupbygroup, xs, ys);
    FeedConcat(spec, b, Classified(groupmatch, groupbygroup, xs), Classified(groupmatch, groupbygroup, ys), now);
  }
}
