# groupingtail: a Dafny model of the log-tail accumulation engine

This project models the core of `pretaweb.collectd.groupingtail`, a collectd
plugin written in Python 2. The plugin follows log files, or listens for
syslog datagrams, and turns matching lines into metrics.

The model has three parts.

- **Instruments** (`instruments.dfy`, module `Instruments`).
  - Each instrument has two dictionaries: `data` (group key to accumulated
    value) and `groups` (group key to the time it was last touched).
  - `write` runs the instrument's regular expression on a line. On a match,
    the variant's `append_data` folds the captured value in.
  - How a write ends:
    - A ValueError from the cast changes nothing.
    - Any other exception empties both dictionaries.
    - Success touches the group.
  - `read` keeps the alphabetically first `maxgroups` groups. It rebuilds
    `data` for those groups through the cast `int(x) % 2**32` and returns it.
  - The variants:
    - CounterInc counts matching lines.
    - CounterSum sums the captured values.
    - GaugeInt keeps the last value.
    - Max keeps the largest value.
    - GaugeInt and Max reset after each read; the counters never do.
  - The class `Instruments.Instrument` has the dictionaries as `map` fields
    and a method per Python method. Each method is proved against pure
    functions on a `Bucket` value: `Step` for one write, `Feed` for a
    sequence of writes, and `ReadOf` for a read. The lemmas are about those
    functions.
- **GroupingTail** (`groupingtail.dfy`, module `GroupingTails`).
  - The class `GroupingTail` has one grouping expression and an ordered list
    of match definitions.
  - `update` finds each line's group key: the first positional capture, or
    the named capture when a group name is configured. It drops lines
    without a key and replaces '.' and '-' in the key by '_'. It then writes
    the line to every instrument, in the order the definitions were added.
  - `read_metrics` reads every instrument and names each value
    `<group>*<instance>`.
  - The syslog `QueueFile` is a FIFO class.
  - The decision whether to write an initial offset record is a function.
- **Configuration** (`conftools.dfy`, module `ConfTools`).
  - Case-insensitive lookups over a collectd configuration tree.
  - The `INSTRUMENTS` factory table.
  - `read_config`, which builds one grouping tail per `File` block and
    attaches one new instrument per `Match` block.
  - The exceptions from the configuration lookups, `int()`, the factory
    table and `re.compile` are `Failure` values.
  - `PlanConfig` states, as values, what a successful configuration builds.
    The method `ReadConfig` is proved to build exactly that, out of fresh
    objects that share nothing.

Two support modules model the Python 2 built-ins the core relies on:

- `pybuiltins.dfy`: `int()` on a decimal string, `"%s" % n`, `str.lower`,
  and `str.replace` of one character.
- `ordering.dfy`: byte-string ordering and the sorted list that
  `items.sort()` produces over a dictionary's keys.

`wrappers.dfy` holds `Option` and `Result`.

Regular expressions are oracles. A compiled expression is a function from a
line to its captures, or `None` when the line does not match. `re.compile` is
a function from a pattern to a matcher, or `None` for `re.error`. Timestamps
are a parameter and no proof depends on their value.

## Behaviour worth knowing

- CounterInc does not override `read`, so it never resets on read
  (`src/pretaweb/collectd/groupingtail/instruments.py:109-117`).
- GaugeInt overwrites the stored value; it does not accumulate
  (`instruments.py:106`).
- With a group name set, GaugeInt and Max call `mo.groupdict.get` on the
  method object (`instruments.py:100`, `instruments.py:134`). That raises
  AttributeError on every matching line, so such an instrument never records
  anything (`Instruments.NamedGaugeRecordsNothing`).
- `read_config` parses `MaxGroups` but passes it to no constructor, so every
  instrument keeps the default cap of 64 (`conftools.py:65`,
  `instruments.py:12`).
- Without a group name, the group key is the first positional capture, and
  the grouping expression may have any number of groups.
- Dictionary keys are unique, so the timestamps never decide the order of
  `trim_groups`.

## Model

| member | source | states |
|---|---|---|
| Instruments.Wrap32 | src/pretaweb/collectd/groupingtail/instruments.py:86 | `n % 2**32` lies in [0, 2**32), is the identity on that range and differs from `n` by a multiple of 2**32 |
| Instruments.CastText | src/pretaweb/collectd/groupingtail/instruments.py:86 | casting a capture: a missing capture is a fault (TypeError), text `int()` refuses is a ValueError, anything else gives the wrapped parsed value |
| Instruments.FirstCapture | src/pretaweb/collectd/groupingtail/instruments.py:103 | `value_cast(mo.groups()[0])`: IndexError without groups, else the cast of the first capture; its meaning on writes is stated by `WriteMissingCaptureResets` and `WriteNonNumericIgnored` |
| Instruments.SumValue | src/pretaweb/collectd/groupingtail/instruments.py:123-127 | CounterSum's value, the named capture through `groupdict().get` or the first capture; stated on writes by `WriteMissingNamedCaptureResets`, `SumStep` and `CounterSumSums` |
| Instruments.GaugeValue | src/pretaweb/collectd/groupingtail/instruments.py:97-103 | GaugeInt's and Max's value, always the AttributeError fault with a group name set (also `instruments.py:133-136`); stated by `WriteNamedGaugeResets` and `NamedGaugeRecordsNothing` |
| Instruments.ResetsOnRead | src/pretaweb/collectd/groupingtail/instruments.py:87-91 | GaugeInt overrides `read` to call `reset` afterwards and Max inherits it (`instruments.py:130`); the counters do not; used by `ReadOf` and stated by `CountersRereadSame` and `GaugesResetOnRead` |
| Instruments.Truthy | src/pretaweb/collectd/groupingtail/instruments.py:97 | `if self.regex_group:` holds for a set, non-empty name only (also `instruments.py:123`, `instruments.py:133`); used by `SumValue` and `GaugeValue` |
| Instruments.ValueOf | src/pretaweb/collectd/groupingtail/instruments.py:95-139 | the value each variant's `append_data` extracts from a match: 1 for CounterInc, `SumValue` for CounterSum, `GaugeValue` for GaugeInt and Max; `AppendData` fails and rejects exactly on its Fault and ValueErr |
| Instruments.Get | src/pretaweb/collectd/groupingtail/instruments.py:117 | `d.get(k, 0)`: the value at `k`, or 0 when absent (also `instruments.py:128`, where `value_cast(0)` is 0); stated on writes by `CounterIncCounts` and `CounterSumSums` |
| Instruments.Lookup | src/pretaweb/collectd/groupingtail/instruments.py:137 | `d.get(k, None)`: the value at `k`, or None when absent; stated on writes by `GaugeKeepsLast` and `MaxKeepsMaximum` |
| Instruments.AppendData | src/pretaweb/collectd/groupingtail/instruments.py:95-139 | a stored result has exactly the old keys plus the written group and keeps every other group's value; it fails exactly when value extraction faults and is rejected exactly on a ValueError |
| Instruments.Step | src/pretaweb/collectd/groupingtail/instruments.py:61-81 | one write keeps every touched group's data present and touches no group other than the written one; `WriteStoredTouches` and `TouchStep` state that a stored value touches its group |
| Instruments.WriteStoredTouches | src/pretaweb/collectd/groupingtail/instruments.py:66-81 | a matching write whose value is stored leaves the stored data and stamps its group with `now` |
| Instruments.TouchStep | src/pretaweb/collectd/groupingtail/instruments.py:61-81 | a write that does not fault touches a group exactly when the group was touched already or the write stored a value for it |
| Instruments.AcceptedWritesTouch | src/pretaweb/collectd/groupingtail/instruments.py:29-30 | while no write faults, a group is in `groups` after a run of writes exactly when it was before or one of its writes stored a value (also `instruments.py:66-81`) |
| Instruments.Feed | src/pretaweb/collectd/groupingtail/instruments.py:61-81 | a run of writes keeps every touched group's data present |
| Instruments.FeedAppend | src/pretaweb/collectd/groupingtail/instruments.py:61-81 | one more write is one more step |
| Instruments.Trim | src/pretaweb/collectd/groupingtail/instruments.py:32-36 | the trimmed groups are a subset of the groups, with their timestamps |
| Instruments.SliceEnd | src/pretaweb/collectd/groupingtail/instruments.py:36 | the length of `items[:n]`, negative `n` counting from the end; `TrimKeepsSmallest` states that the trimmed map has exactly that many groups |
| Instruments.ReadOf | src/pretaweb/collectd/groupingtail/instruments.py:48-54 | `read` and, for GaugeInt and Max, the reset after it (`instruments.py:89-93`); stated by `ReadBounds`, `CountersRereadSame` and `GaugesResetOnRead`, and `Instrument.Read` is proved equal to it |
| Instruments.WriteNoMatch | src/pretaweb/collectd/groupingtail/instruments.py:63-65 | a line the instrument's expression does not match leaves data and groups unchanged |
| Instruments.WriteNonNumericIgnored | src/pretaweb/collectd/groupingtail/instruments.py:70-72 | a capture `int()` refuses leaves data and groups unchanged and touches nothing |
| Instruments.WriteMissingCaptureResets | src/pretaweb/collectd/groupingtail/instruments.py:73-78 | no positional group (IndexError) or an unset first group (TypeError) empties both dictionaries |
| Instruments.WriteMissingNamedCaptureResets | src/pretaweb/collectd/groupingtail/instruments.py:123-125 | CounterSum with a group name the match lacks or left unset empties both dictionaries |
| Instruments.WriteNamedGaugeResets | src/pretaweb/collectd/groupingtail/instruments.py:97-100 | GaugeInt and Max with a group name empty both dictionaries on every matching line |
| Instruments.WriteCounterIncTouches | src/pretaweb/collectd/groupingtail/instruments.py:114-117 | a CounterInc match adds one to the group's count (from 0) and touches the group |
| Instruments.FeedConcat | src/pretaweb/collectd/groupingtail/instruments.py:61-81 | two runs of writes in a row give the same state as the concatenated run |
| Instruments.FaultForgetsEarlier | src/pretaweb/collectd/groupingtail/instruments.py:73-78 | after a faulting write only the writes that follow it count; the earlier state and writes are lost |
| Instruments.CounterIncCounts | src/pretaweb/collectd/groupingtail/instruments.py:114-117 | a group's count grows by exactly its number of matching lines, and the group is touched exactly when it already was or one of its lines matched |
| Instruments.SumStep | src/pretaweb/collectd/groupingtail/instruments.py:120-128 | one non-faulting CounterSum write adds its value to its own group (from `value_cast(0)` = 0) and nothing to any other |
| Instruments.CounterSumSums | src/pretaweb/collectd/groupingtail/instruments.py:120-128 | while no write faults, a group's total grows by the sum of its accepted values, and the group is touched exactly when it was before or one of its values was accepted |
| Instruments.GaugeStep | src/pretaweb/collectd/groupingtail/instruments.py:95-106 | one non-faulting GaugeInt write replaces its group's value with the new one and leaves the others |
| Instruments.GaugeKeepsLast | src/pretaweb/collectd/groupingtail/instruments.py:95-106 | while no write faults, a group holds its last accepted value, or its earlier value when none was accepted, and the group is touched exactly when it was before or one of its values was accepted |
| Instruments.MaxStep | src/pretaweb/collectd/groupingtail/instruments.py:131-139 | one non-faulting Max write keeps the larger of the stored and the new value (a new group takes the value) |
| Instruments.MaxKeepsMaximum | src/pretaweb/collectd/groupingtail/instruments.py:131-139 | while no write faults, a group holds the largest of its earlier value and its accepted values, and the group is touched exactly when it was before or one of its values was accepted |
| Instruments.NamedGaugeRecordsNothing | src/pretaweb/collectd/groupingtail/instruments.py:95-100 | a GaugeInt or Max with a group name ends empty once any written line matches, and unchanged otherwise |
| Instruments.TrimKeepsSmallest | src/pretaweb/collectd/groupingtail/instruments.py:32-36 | trimming keeps `len(items[:maxgroups])` groups (min of size and cap when the cap is non-negative), and every kept key is below every evicted key |
| Instruments.TrimIdempotent | src/pretaweb/collectd/groupingtail/instruments.py:32-36 | trimming twice to a non-negative cap is trimming once |
| Instruments.ReadBounds | src/pretaweb/collectd/groupingtail/instruments.py:32-54 | a read returns at most `maxgroups` of the touched groups, the smallest ones, each valued in [0, 2**32) as the cast of its data; the bucket left behind holds only returned groups, at most `maxgroups`, with data and groups on the same keys and no evicted group's data; a counter keeps exactly the returned items and the trimmed groups |
| Instruments.CountersRereadSame | src/pretaweb/collectd/groupingtail/instruments.py:48-54 | CounterInc and CounterSum: a second read with no write in between returns the same values and leaves the same state |
| Instruments.GaugesResetOnRead | src/pretaweb/collectd/groupingtail/instruments.py:89-93 | GaugeInt and Max are empty after a read, so the next read returns nothing |
| Instruments.Instrument.constructor | src/pretaweb/collectd/groupingtail/instruments.py:11-22 | the instrument keeps its arguments and starts with empty dictionaries |
| Instruments.Instrument.Reset | src/pretaweb/collectd/groupingtail/instruments.py:24-27 | both dictionaries become empty |
| Instruments.Instrument.TouchGroup | src/pretaweb/collectd/groupingtail/instruments.py:29-30 | the group is stamped with the time and data is unchanged |
| Instruments.Instrument.TrimGroups | src/pretaweb/collectd/groupingtail/instruments.py:32-36 | groups becomes the trimmed map and data is unchanged |
| Instruments.Instrument.Normalise | src/pretaweb/collectd/groupingtail/instruments.py:38-46 | data becomes the cast value of every touched group and nothing else; groups are unchanged |
| Instruments.Instrument.Read | src/pretaweb/collectd/groupingtail/instruments.py:48-54 | returns the read result of the old state and leaves the state after the read (empty for GaugeInt and Max) |
| Instruments.Instrument.Write | src/pretaweb/collectd/groupingtail/instruments.py:61-81 | the new state is one step of the old state on the line, and the touched groups keep their data |
| Ordering.Less | src/pretaweb/collectd/groupingtail/instruments.py:35 | Python 2 string comparison, the order `items.sort()` uses; a strict total order by `LessIrreflexive`, `LessAsymmetric`, `LessTransitive` and `LessTotal` |
| Ordering.LessIrreflexive | src/pretaweb/collectd/groupingtail/instruments.py:35 | no key sorts below itself |
| Ordering.LessAsymmetric | src/pretaweb/collectd/groupingtail/instruments.py:35 | two keys never each sort below the other |
| Ordering.LessTransitive | src/pretaweb/collectd/groupingtail/instruments.py:35 | the string order is transitive |
| Ordering.LessTotal | src/pretaweb/collectd/groupingtail/instruments.py:35 | any two different keys are ordered |
| Ordering.LeastExists | src/pretaweb/collectd/groupingtail/instruments.py:35 | a non-empty key set has a smallest key |
| Ordering.LeastUnique | src/pretaweb/collectd/groupingtail/instruments.py:35 | the smallest key is unique |
| Ordering.Least | src/pretaweb/collectd/groupingtail/instruments.py:35 | picks the smallest key of a non-empty set |
| Ordering.SortedKeysSpec | src/pretaweb/collectd/groupingtail/instruments.py:34-35 | the sorted key list has every key exactly once, in strictly increasing order |
| Ordering.SortedElementsCard | src/pretaweb/collectd/groupingtail/instruments.py:35-36 | a strictly sorted list holds as many distinct keys as it is long |
| Ordering.SortedPrefixSmallest | src/pretaweb/collectd/groupingtail/instruments.py:36 | a prefix of the sorted list holds keys below all the rest |
| Ordering.SmallestKey | src/pretaweb/collectd/groupingtail/instruments.py:35 | a scan of the set returns its smallest key |
| Ordering.SortedKeysUnfold | src/pretaweb/collectd/groupingtail/instruments.py:35 | the sorted list begins with the smallest key |
| Ordering.SortKeys | src/pretaweb/collectd/groupingtail/instruments.py:34-35 | repeatedly taking the smallest key gives the sorted key list |
| PyBuiltins.StripLeft | src/pretaweb/collectd/groupingtail/instruments.py:86 | `lstrip` returns a suffix that does not start with white space, and every dropped character is white space |
| PyBuiltins.StripRight | src/pretaweb/collectd/groupingtail/instruments.py:86 | `rstrip` returns a prefix that does not end with white space, and every dropped character is white space |
| PyBuiltins.Strip | src/pretaweb/collectd/groupingtail/instruments.py:86 | `strip` is no longer than its input and neither starts nor ends with white space |
| PyBuiltins.DigitChar | src/pretaweb/collectd/groupingtail/groupingtail.py:61 | a digit value's character is a digit with that value |
| PyBuiltins.FormatNat | src/pretaweb/collectd/groupingtail/groupingtail.py:61 | `"%s" % n` of a natural number is a non-empty run of digits |
| PyBuiltins.FormatInt | src/pretaweb/collectd/groupingtail/groupingtail.py:61 | `"%s" % n` is non-empty and starts with '-' exactly when n is negative |
| PyBuiltins.DigitsValueOfFormat | src/pretaweb/collectd/groupingtail/groupingtail.py:61 | the digits of `"%s" % n` have the value n |
| PyBuiltins.StripUnspaced | src/pretaweb/collectd/groupingtail/instruments.py:86 | a string that neither starts nor ends with white space is its own strip |
| PyBuiltins.ParseInt | src/pretaweb/collectd/groupingtail/instruments.py:86 | `int(s)` on text, also at `conftools.py:65`; `ParseFormatRoundTrip`, `ParseDecimal` and `ParseRejectsDigitless` state what it accepts and refuses |
| PyBuiltins.ParseDecimal | src/pretaweb/collectd/groupingtail/instruments.py:86 | `int()` of a run of digits is its value |
| PyBuiltins.ParseNegatedDecimal | src/pretaweb/collectd/groupingtail/instruments.py:86 | `int()` of '-' and a run of digits is the negated value |
| PyBuiltins.ParseFormatRoundTrip | src/pretaweb/collectd/groupingtail/groupingtail.py:61 | `int("%s" % n) == n` for every integer |
| PyBuiltins.NoDigitsSlice | src/pretaweb/collectd/groupingtail/instruments.py:86 | a slice of a digitless string is digitless |
| PyBuiltins.ParseStrippedRejectsDigitless | src/pretaweb/collectd/groupingtail/instruments.py:86 | digitless text is no number, with or without a sign |
| PyBuiltins.ParseRejectsDigitless | src/pretaweb/collectd/groupingtail/instruments.py:70-72 | `int()` raises ValueError on a string without a digit |
| PyBuiltins.LowerChar | src/pretaweb/collectd/groupingtail/conftools.py:12 | lower-casing a byte maps 'A'-'Z' to 'a'-'z', leaves every other byte, and never yields an upper-case letter |
| PyBuiltins.Lower | src/pretaweb/collectd/groupingtail/conftools.py:12 | `lower()` keeps the length and lower-cases each character |
| PyBuiltins.Replace | src/pretaweb/collectd/groupingtail/groupingtail.py:90 | `replace(a, b)` of single characters keeps the length and changes exactly the occurrences of `a` into `b` |
| GroupingTails.QueueFile.constructor | src/pretaweb/collectd/groupingtail/groupingtail.py:25-26 | a new queue is empty |
| GroupingTails.QueueFile.Put | src/pretaweb/collectd/groupingtail/groupingtail.py:20 | the handler's line joins the back of the queue |
| GroupingTails.QueueFile.ReadLines | src/pretaweb/collectd/groupingtail/groupingtail.py:28-30 | returns every queued line in FIFO order and leaves the queue empty |
| GroupingTails.InitialOffset | src/pretaweb/collectd/groupingtail/groupingtail.py:54-62 | an offset record exists exactly when the file could be examined and is longer than 1024 bytes; it keeps the inode, and its offset lies inside the file 1024 bytes before the end |
| GroupingTails.SplitLine | src/pretaweb/collectd/groupingtail/groupingtail.py:61 | the first part has no newline |
| GroupingTails.OffsetText | src/pretaweb/collectd/groupingtail/groupingtail.py:61 | the offset file's text `"%s\n%s" % (inode, offset)`; `OffsetTextRoundTrip` states that it reads back as the same record |
| GroupingTails.SplitLineAt | src/pretaweb/collectd/groupingtail/groupingtail.py:61 | splitting `a + "\n" + b` at the first newline gives back `a` and `b` when `a` has no newline |
| GroupingTails.FormatNatNoNewline | src/pretaweb/collectd/groupingtail/groupingtail.py:61 | the spelling of a number has no newline |
| GroupingTails.OffsetTextRoundTrip | src/pretaweb/collectd/groupingtail/groupingtail.py:61 | the offset file's text `"%s\n%s" % (inode, offset)` reads back as the same record |
| GroupingTails.NormaliseKey | src/pretaweb/collectd/groupingtail/groupingtail.py:90 | the key keeps its length, '.' and '-' become '_', every other character stays, and no '.' or '-' remains |
| GroupingTails.NormaliseKeyIdempotent | src/pretaweb/collectd/groupingtail/groupingtail.py:90 | normalising a key twice is normalising it once |
| GroupingTails.GroupKey | src/pretaweb/collectd/groupingtail/groupingtail.py:79-86 | no match gives no key; without a group name the key is the first positional capture (none without groups); with one, the named capture (none when absent) |
| GroupingTails.Classify | src/pretaweb/collectd/groupingtail/groupingtail.py:79-90 | a line is dropped exactly when it has no group key; otherwise its group is the normalised key |
| GroupingTails.Classified | src/pretaweb/collectd/groupingtail/groupingtail.py:77-94 | the writes `update` makes to each instrument for a run of lines; stated by `ClassifiedKept` (a keyed line is written, after the earlier writes), `ClassifiedDropped`, `ClassifiedWrites` and `ClassifiedConcat`, and `GroupingTail.Update` is proved equal to feeding them |
| GroupingTails.ClassifiedWrites | src/pretaweb/collectd/groupingtail/groupingtail.py:77-94 | at most one write per line; every write carries a line of the run and that line's normalised key, which has no '.' or '-' |
| GroupingTails.ClassifiedKept | src/pretaweb/collectd/groupingtail/groupingtail.py:88-94 | a line with a group key makes exactly one write, its normalised key and the line, after the writes of the earlier lines |
| GroupingTails.ClassifiedDropped | src/pretaweb/collectd/groupingtail/groupingtail.py:88 | a line without a group key makes no write |
| GroupingTails.ClassifiedConcat | src/pretaweb/collectd/groupingtail/groupingtail.py:77-94 | the writes for two runs of lines are the writes for each run, in order |
| GroupingTails.MetricName | src/pretaweb/collectd/groupingtail/groupingtail.py:115 | the metric name is the group, '*', then the instance name |
| GroupingTails.MetricNameInjective | src/pretaweb/collectd/groupingtail/groupingtail.py:115 | different groups of one definition never share a metric name |
| GroupingTails.Batch | src/pretaweb/collectd/groupingtail/groupingtail.py:113-117 | the metrics one definition yields for what its instrument's read returned; stated by `BatchNamesUnique`, `BatchSize` and `BatchOfRead` |
| GroupingTails.BatchNamesUnique | src/pretaweb/collectd/groupingtail/groupingtail.py:113-117 | no two metrics reported for one definition share a name |
| GroupingTails.BatchSize | src/pretaweb/collectd/groupingtail/groupingtail.py:113-117 | one metric per returned group |
| GroupingTails.BatchOfRead | src/pretaweb/collectd/groupingtail/groupingtail.py:107-117 | a definition reports one metric per surviving group, at most `maxgroups` of them, each of its collectd type and valued in [0, 2**32) |
| GroupingTails.GroupingTail.constructor | src/pretaweb/collectd/groupingtail/groupingtail.py:35-69 | a new tail keeps its source, grouping matcher and group name and has no definitions |
| GroupingTails.GroupingTail.AddMatch | src/pretaweb/collectd/groupingtail/groupingtail.py:97-102 | exactly one definition joins the end and the earlier ones are unchanged |
| GroupingTails.GroupingTail.WriteAt | src/pretaweb/collectd/groupingtail/groupingtail.py:93-94 | one instrument takes the write and every other keeps its state |
| GroupingTails.GroupingTail.WriteEach | src/pretaweb/collectd/groupingtail/groupingtail.py:92-94 | every instrument takes one step on the same key and line |
| GroupingTails.GroupingTail.UpdateLine | src/pretaweb/collectd/groupingtail/groupingtail.py:78-94 | one line reaches every instrument under its normalised key, or none when it has no key |
| GroupingTails.GroupingTail.Update | src/pretaweb/collectd/groupingtail/groupingtail.py:76-94 | every instrument ends in the state its old state reaches through the writes of the classified lines, in order |
| GroupingTails.GroupingTail.ReadAt | src/pretaweb/collectd/groupingtail/groupingtail.py:113 | one instrument is read and every other keeps its state |
| GroupingTails.GroupingTail.ReadMetrics | src/pretaweb/collectd/groupingtail/groupingtail.py:105-117 | one batch per definition, in order, holding `(<group>*<instance>, valuetype, value)` for every item its instrument's read returns; each instrument is left as its read leaves it |
| GroupingTails.UpdatesCompose | src/pretaweb/collectd/groupingtail/groupingtail.py:76-94 | two updates in a row write the same as one update over both runs |
| ConfTools.KeyMatches | src/pretaweb/collectd/groupingtail/conftools.py:22 | `o.key.lower() == key.lower()`, with ASCII-only `lower` as `PyBuiltins.Lower` states (also `conftools.py:12`); `ChildrenNamedSpec` is stated through it |
| ConfTools.ChildrenNamed | src/pretaweb/collectd/groupingtail/conftools.py:19-24 | the children whose key matches ignoring case, in order; stated by `ChildrenNamedSpec` and `ChildrenNamedConcat`, and `GetConfChildren` is proved equal to it |
| ConfTools.ChildrenNamedSpec | src/pretaweb/collectd/groupingtail/conftools.py:19-24 | the children found are exactly those whose key matches ignoring case, and there are no more of them than children |
| ConfTools.ChildrenNamedConcat | src/pretaweb/collectd/groupingtail/conftools.py:19-24 | the filter keeps the original order |
| ConfTools.GetConfChildren | src/pretaweb/collectd/groupingtail/conftools.py:19-24 | the loop collects exactly the matching children, in order |
| ConfTools.FirstValue | src/pretaweb/collectd/groupingtail/conftools.py:10-16 | `getConfFirstValue`: the lookup's value, default or exception; stated by `FirstValueOfFirstChild` and `FirstValueIsText`, and `GetConfFirstValue` is proved equal to it |
| ConfTools.FirstValueOfFirstChild | src/pretaweb/collectd/groupingtail/conftools.py:10-16 | the lookup gives the first value of the first matching child and IndexError when it has none; with no matching child, the default, or KeyError when there is none |
| ConfTools.GetConfFirstValue | src/pretaweb/collectd/groupingtail/conftools.py:10-16 | the scan with early return computes that lookup |
| ConfTools.FirstValueIsText | src/pretaweb/collectd/groupingtail/conftools.py:10-13 | without a default a found value is configuration text |
| ConfTools.FirstText | src/pretaweb/collectd/groupingtail/conftools.py:10-16 | a lookup without a default succeeds exactly when the value exists and then gives its text; otherwise it fails with the lookup's exception |
| ConfTools.OptionalText | src/pretaweb/collectd/groupingtail/conftools.py:38 | a lookup with default `None` is `None` exactly when no child matches, the first matching child's first value otherwise, and fails only with IndexError |
| ConfTools.PyToInt | src/pretaweb/collectd/groupingtail/conftools.py:65 | `int(v)`: an integer stays, text parses (ValueError when it is no number), `None` raises TypeError |
| ConfTools.Compile | src/pretaweb/collectd/groupingtail/instruments.py:15 | compiling succeeds exactly when the oracle gives a matcher, and fails with the regex error otherwise |
| ConfTools.InstrumentKindFor | src/pretaweb/collectd/groupingtail/conftools.py:50-54 | exactly "CounterInc", "CounterSumInt" and "GaugeInt" have a factory, giving CounterInc, CounterSum and GaugeInt; any other DSType raises KeyError; Max is never built |
| ConfTools.Configure | src/pretaweb/collectd/groupingtail/conftools.py:30-47 | a built instrument has the requested kind, the cap 64 and the compiled Regex; CounterInc gets no group name, the others the optional GroupName; a missing Regex fails with its lookup's exception |
| ConfTools.ConfigureFields | src/pretaweb/collectd/groupingtail/conftools.py:30-47 | conversely, a found Regex that compiles and (for CounterSum and GaugeInt) a GroupName lookup that succeeds give exactly that instrument |
| ConfTools.PlanMatch | src/pretaweb/collectd/groupingtail/conftools.py:76-82 | an accepted `Match` block carries its Instance and Type as the metric's instance name and collectd type, and an instrument its factory built for the kind its DSType names, with the cap 64 and never a Max |
| ConfTools.PlanMatchFields | src/pretaweb/collectd/groupingtail/conftools.py:76-85 | conversely, a block whose Instance, Type and DSType are found, whose DSType has a factory and whose factory succeeds is accepted with exactly those fields |
| ConfTools.PlanHeader | src/pretaweb/collectd/groupingtail/conftools.py:61-69 | the lookups at the head of a `File` block and the compiled GroupBy; stated both ways by `PlanHeaderFields` and `PlanHeaderNeedsAll`, and by `PlanHeaderNeedsInstance` |
| ConfTools.PlanHeaderFields | src/pretaweb/collectd/groupingtail/conftools.py:61-69 | when every lookup succeeds, the header holds Instance, the block's first value, the compiled GroupBy, GroupName and MaxGroups as an integer (default 64) |
| ConfTools.PlanHeaderNeedsAll | src/pretaweb/collectd/groupingtail/conftools.py:61-69 | a header is read only when every one of those lookups succeeds |
| ConfTools.PlanHeaderNeedsInstance | src/pretaweb/collectd/groupingtail/conftools.py:61 | a `File` block without Instance fails with KeyError, whatever else it holds |
| ConfTools.MapResultSuccess | src/pretaweb/collectd/groupingtail/conftools.py:60-85 | a loop that may raise succeeds exactly when every step does, with one result per element, in order |
| ConfTools.MapResultPrefixFailure | src/pretaweb/collectd/groupingtail/conftools.py:60-85 | a failure among the first elements is the failure of the whole loop |
| ConfTools.MapResultStep | src/pretaweb/collectd/groupingtail/conftools.py:60-85 | one more element adds its own result or the first failure |
| ConfTools.PlanFile | src/pretaweb/collectd/groupingtail/conftools.py:61-85 | one `File` block as a value, header then `Match` blocks in order; stated by `PlanConfigShape`, and `ReadFile` is proved to build it |
| ConfTools.PlanConfig | src/pretaweb/collectd/groupingtail/conftools.py:57-86 | `read_config` as a value, one plan per `File` block or the first exception; stated by `PlanConfigShape` and the `MapResult` lemmas, and `ReadConfig` is proved to build it |
| ConfTools.PlanConfigShape | src/pretaweb/collectd/groupingtail/conftools.py:57-86 | a successful configuration has one plan per `File` child and one match per `Match` child, in order; every instrument has the cap 64 whatever MaxGroups says, and none is a Max |
| ConfTools.DefinitionsBuiltExtend | src/pretaweb/collectd/groupingtail/conftools.py:85 | attaching one more planned definition keeps the list as planned |
| ConfTools.EntriesExtend | src/pretaweb/collectd/groupingtail/conftools.py:71-74 | appending a separately built entry keeps the entries as planned and disjoint |
| ConfTools.ReadConfig | src/pretaweb/collectd/groupingtail/conftools.py:57-86 | fails exactly when the plan fails, with the same exception; otherwise one entry per `File` block, each built as planned out of new objects, no two sharing an object |
| ConfTools.ReadFiles | src/pretaweb/collectd/groupingtail/conftools.py:60-85 | the loop over `File` blocks builds, in order, the entries the plan describes, or stops at the first exception |
| ConfTools.AttachInstrument | src/pretaweb/collectd/groupingtail/conftools.py:82-85 | a new, empty instrument for one `Match` block joins the end of the tail's definitions |
| ConfTools.AttachAll | src/pretaweb/collectd/groupingtail/conftools.py:76-85 | the `Match` loop attaches one new instrument per block, in order, or reports the first exception |
| ConfTools.ReadFile | src/pretaweb/collectd/groupingtail/conftools.py:61-85 | one `File` block fails exactly when its plan fails; otherwise a new tail is built as planned |
| ConfTools.BuildTail | src/pretaweb/collectd/groupingtail/conftools.py:69-85 | a new tail with the header's matcher and group name, and the `Match` blocks attached as planned |

## Left out

- The regular-expression engine: matching and `re.compile` are oracles, and `re.error` is the `RegexError` value.
- Pygtail file following, `os.stat` and `os.path.getsize`: they are file-system I/O. `GroupingTails.InitialOffset` models only the decision whether to write an offset record.
- Writing the offset file and its `uuid` path: file-system I/O. `GroupingTails.ParseOffsetText` is a reference reader of that text, not code of the plugin.
- The syslog UDP server, its daemon thread and the socket close in `__del__`: network and concurrency. `QueueFile` is modelled as a sequential FIFO.
- The `strip` of the received datagram and its decoding in `SyslogUDPHandler.handle`: byte decoding and NUL handling are outside the model.
- Parsing the `syslog://host:port` URL, and the exceptions a malformed URL or a failed socket bind raise out of `read_config`: the source is kept as an uninterpreted string.
- The IOError from opening the offset file (`groupingtail.py:60`, outside the `try`) and any exception `Pygtail(...)` raises (`groupingtail.py:64`): file-system I/O. The model's `read_config` never fails while a grouping tail is being built.
- The default `value_cast=float`: floating point. Only the cast `int(x) % 2**32`, which the factories install, is modelled.
- `logging` calls and the plugin's `print`: no effect on state.
- `plugin.py`, `setup.py` and `test_regex.py` are not part of this model.
- Configuration values other than strings: collectd may also deliver numbers and booleans.
- PyBuiltins.ParseInt: refuses white space between the sign and the digits (`int("- 5")`), which Python 2 accepts; only optional surrounding white space, an optional sign and decimal digits parse.
- `self.fin` and the tail it follows: `GroupingTails.GroupingTail.Update(lines, now)` takes as `lines` what `self.fin.readlines()` would return (`groupingtail.py:77`), for Pygtail and a `QueueFile` alike, and no `QueueFile` is attached to a `GroupingTail` in the model.
- The wall-clock time of `datetime.now()`: `Update` takes one timestamp for the whole run of lines.
- GroupingTails.GroupingTail.ReadMetrics: returns one set of metrics per definition. The order within one read is not modelled, because Python 2 dictionary order is unspecified, and the generator's laziness is not modelled either.
- GroupingTails.GroupingTail.AddMatch: requires that the instrument is not already attached. The source does not check this; `read_config` always attaches new instruments.
- GroupingTails.GroupingTail.constructor: takes the grouping expression already compiled. Compiling it, and the error this can raise, is part of `ConfTools.PlanHeader`.
- ConfTools.ReadConfig: on an exception it promises nothing about the objects built before the exception. In the source those objects become garbage.
- ConfTools.Configure: requires a kind other than Max, because the factory table has no entry for Max.
