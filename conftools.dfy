/**
 * The plugin's configuration: case-insensitive lookups over a collectd
 * configuration tree, the table of instrument factories, and `read_config`,
 * which builds one grouping tail per `File` block and attaches one
 * instrument per `Match` block inside it.
 *
 * Every failure of the configuration lookups, `int()`, the factory table and
 * `re.compile` (a missing key, a key without a value, an unknown DSType, a
 * MaxGroups that is not a number, a regular expression that does not
 * compile) is a `Failure` carrying the exception.
 * Compiling a regular expression is an oracle.
 */
module ConfTools {
  import opened Wrappers
  import opened PyBuiltins
  import opened Instruments
  import opened GroupingTails

  /** A node of the collectd configuration tree: its key, its values and its children. */
  datatype ConfNode = ConfNode(key: string, values: seq<string>, children: seq<ConfNode>)

  /** A value a lookup returns: a configuration value, or the caller's default (`None`, `64`). */
  datatype PyValue = PyStr(s: string) | PyInt(i: int) | PyNone

  /** The exceptions of the configuration lookups, `int()`, the factory table and `re.compile`. */
  datatype ConfError = KeyError | IndexError | ValueError | TypeError | RegexError

  /** `re.compile`: the matcher of a regular expression, None when it raises re.error. */
  type Compiler = string -> Option<Matcher>

  /** `o.key.lower() == key.lower()`. */
  predicate KeyMatches(o: ConfNode, key: string) {
    Lower(o.key) == Lower(key)
  }

  // ---------------------------------------------------------------------
  // Lookups
  // ---------------------------------------------------------------------

  /** The children whose key equals `key` ignoring case, in their original order. */
  function ChildrenNamed(children: seq<ConfNode>, key: string): seq<ConfNode> {
    if children == [] then []
    else
      var init := ChildrenNamed(children[..|children| - 1], key);
      var o := children[|children| - 1];
      if KeyMatches(o, key) then init + [o] else init
  }

  /** Exactly the matching children, none of the others, and no child twice more than it occurs. */
  lemma {:induction false} ChildrenNamedSpec(children: seq<ConfNode>, key: string)
    ensures |ChildrenNamed(children, key)| <= |children|
    ensures forall o :: o in ChildrenNamed(children, key) <==> o in children && KeyMatches(o, key)
  {
    if children != [] {
      var init := children[..|children| - 1];
      ChildrenNamedSpec(init, key);
      assert children == init + [children[|children| - 1]];
    }
  }

  /** The filter keeps the original order: filtering a concatenation concatenates the filtered parts. */
  lemma {:induction false} ChildrenNamedConcat(xs: seq<ConfNode>, ys: seq<ConfNode>, key: string)
    ensures ChildrenNamed(xs + ys, key) == ChildrenNamed(xs, key) + ChildrenNamed(ys, key)
    decreases |ys|
  {
    if ys == [] {
      assert xs + ys == xs;
    } else {
      var init := ys[..|ys| - 1];
      assert (xs + ys)[..|xs + ys| - 1] == xs + init;
      assert (xs + ys)[|xs + ys| - 1] == ys[|ys| - 1];
      ChildrenNamedConcat(xs, init, key);
    }
  }

  /** `getConfChildren`: collect the matching children in one pass. */
  method GetConfChildren(ob: ConfNode, key: string) returns (children: seq<ConfNode>)
    ensures children == ChildrenNamed(ob.children, key)
  {
    children := [];
    var i := 0;
    while i < |ob.children|
      invariant 0 <= i <= |ob.children|
      invariant children == ChildrenNamed(ob.children[..i], key)
    {
      var o := ob.children[i];
      assert ob.children[..i + 1][..i] == ob.children[..i];
      if Lower(o.key) == Lower(key) {
        children := children + [o];
      }
      i := i + 1;
    }
    assert ob.children[..i] == ob.children;
  }

  /**
   * `getConfFirstValue` over the children: the first value of the first
   * matching child; IndexError when that child has no value; the default
   * when no child matches, and KeyError when no default was given (None
   * stands for the NOVAL sentinel).
   */
  function FirstValue(children: seq<ConfNode>, key: string, default: Option<PyValue>): Result<PyValue, ConfError> {
    if children == [] then
      if default.None? then Failure(KeyError) else Success(default.value)
    else if KeyMatches(children[0], key) then
      if |children[0].values| > 0 then Success(PyStr(children[0].values[0])) else Failure(IndexError)
    else
      FirstValue(children[1..], key, default)
  }

  /** The value found is the first value of the first child `getConfChildren` would return. */
  lemma {:induction false} FirstValueOfFirstChild(children: seq<ConfNode>, key: string, default: Option<PyValue>)
    ensures var named := ChildrenNamed(children, key);
      FirstValue(children, key, default) ==
        if named == [] then (if default.None? then Failure(KeyError) else Success(default.value))
        else if |named[0].values| > 0 then Success(PyStr(named[0].values[0]))
        else Failure(IndexError)
  {
    if children != [] {
      FirstValueOfFirstChild(children[1..], key, default);
      ChildrenNamedConcat([children[0]], children[1..], key);
      assert [children[0]] + children[1..] == children;
      assert ChildrenNamed([children[0]], key) == if KeyMatches(children[0], key) then [children[0]] else [];
    }
  }

  /** `getConfFirstValue`: scan the children, returning from the first that matches. */
  method GetConfFirstValue(ob: ConfNode, key: string, default: Option<PyValue>) returns (r: Result<PyValue, ConfError>)
    ensures r == FirstValue(ob.children, key, default)
  {
    var i := 0;
    while i < |ob.children|
      invariant 0 <= i <= |ob.children|
      invariant FirstValue(ob.children, key, default) == FirstValue(ob.children[i..], key, default)
    {
      var o := ob.children[i];
      assert ob.children[i..][1..] == ob.children[i + 1..];
      if Lower(o.key) == Lower(key) {
        if |o.values| > 0 {
          return Success(PyStr(o.values[0]));
        }
        return Failure(IndexError);
      }
      i := i + 1;
    }
    if default.None? {
      return Failure(KeyError);
    }
    return Success(default.value);
  }

  /** Without a default, a value found is always configuration text. */
  lemma {:induction false} FirstValueIsText(children: seq<ConfNode>, key: string)
    ensures FirstValue(children, key, None).Success? ==> FirstValue(children, key, None).value.PyStr?
  {
    if children != [] {
      FirstValueIsText(children[1..], key);
    }
  }

  /** A lookup without a default: the text of the first matching child. */
  function FirstText(ob: ConfNode, key: string): (r: Result<string, ConfError>)
    ensures r.Success? <==> FirstValue(ob.children, key, None).Success?
    ensures r.Success? ==> FirstValue(ob.children, key, None) == Success(PyStr(r.value))
    ensures r.Failure? ==> r.error == FirstValue(ob.children, key, None).error
  {
    FirstValueIsText(ob.children, key);
    var v :- FirstValue(ob.children, key, None);
    Success(v.s)
  }

  /** A lookup with default None: the text of the first matching child, if there is one. */
  function OptionalText(ob: ConfNode, key: string): (r: Result<Option<string>, ConfError>)
    ensures r.Failure? ==> r.error == IndexError
    ensures r == Success(None) <==> ChildrenNamed(ob.children, key) == []
    ensures r.Success? && r.value.Some? ==>
      var named := ChildrenNamed(ob.children, key);
      named != [] && |named[0].values| > 0 && r.value.value == named[0].values[0]
  {
    FirstValueOfFirstChild(ob.children, key, Some(PyNone));
    var v :- FirstValue(ob.children, key, Some(PyNone));
    Success(if v.PyStr? then Some(v.s) else None)
  }

  /** `int(v)` on a looked-up value: text is parsed (ValueError when it is no number), None raises TypeError. */
  function PyToInt(v: PyValue): (r: Result<int, ConfError>)
    ensures v.PyInt? ==> r == Success(v.i)
    ensures v.PyStr? ==> (r.Success? <==> ParseInt(v.s).Some?)
    ensures v.PyStr? && r.Success? ==> r.value == ParseInt(v.s).value
    ensures v.PyStr? && r.Failure? ==> r.error == ValueError
    ensures v.PyNone? ==> r == Failure(TypeError)
  {
    match v
    case PyInt(i) => Success(i)
    case PyNone => Failure(TypeError)
    case PyStr(s) =>
      match ParseInt(s)
      case None => Failure(ValueError)
      case Some(n) => Success(n)
  }

  /** `re.compile`, with re.error as RegexError. */
  function Compile(compile: Compiler, regex: string): (r: Result<Matcher, ConfError>)
    ensures r.Success? <==> compile(regex).Some?
    ensures r.Success? ==> r.value == compile(regex).value
    ensures r.Failure? ==> r.error == RegexError
  {
    match compile(regex)
    case None => Failure(RegexError)
    case Some(m) => Success(m)
  }

  // ---------------------------------------------------------------------
  // The instrument factories
  // ---------------------------------------------------------------------

  /**
   * `INSTRUMENTS[dstype]`: exactly CounterInc, CounterSumInt and GaugeInt
   * have a factory, and the key is compared exactly; Max has none.
   */
  function InstrumentKindFor(dstype: string): (r: Result<Kind, ConfError>)
    ensures r.Success? <==> dstype == "CounterInc" || dstype == "CounterSumInt" || dstype == "GaugeInt"
    ensures r.Failure? ==> r.error == KeyError
    ensures r.Success? ==> r.value != Max
    ensures dstype == "CounterInc" ==> r == Success(CounterInc)
    ensures dstype == "CounterSumInt" ==> r == Success(CounterSum)
    ensures dstype == "GaugeInt" ==> r == Success(GaugeInt)
  {
    if dstype == "CounterInc" then Success(CounterInc)
    else if dstype == "CounterSumInt" then Success(CounterSum)
    else if dstype == "GaugeInt" then Success(GaugeInt)
    else Failure(KeyError)
  }

  /**
   * `configure_counterinc`, `configure_countersumint` and `configure_gaugeint`:
   * the Regex is required; CounterInc gets no group name, the other two the
   * optional GroupName; every instrument gets the default cap of 64 groups
   * and, through its kind, the cast `int(x) % 2**32`.
   */
  function Configure(kind: Kind, m: ConfNode, compile: Compiler): (r: Result<InstrumentSpec, ConfError>)
    requires kind != Max
    ensures r.Success? ==> r.value.kind == kind && r.value.maxgroups == DefaultMaxGroups
    ensures r.Success? ==>
      (FirstText(m, "Regex").Success? && Compile(compile, FirstText(m, "Regex").value).Success?
       && r.value.test == compile(FirstText(m, "Regex").value).value)
    ensures r.Success? && kind == CounterInc ==> r.value.regexGroup == None
    ensures r.Success? && kind != CounterInc ==> OptionalText(m, "GroupName") == Success(r.value.regexGroup)
    ensures FirstText(m, "Regex").Failure? ==> r == Failure(FirstText(m, "Regex").error)
  {
    var regex :- FirstText(m, "Regex");
    var groupname :- if kind == CounterInc then Success(None) else OptionalText(m, "GroupName");
    var test :- Compile(compile, regex);
    Success(InstrumentSpec(kind, test, DefaultMaxGroups, groupname))
  }

  /**
   * Conversely, a `Match` block whose Regex is found and compiles, and whose
   * GroupName lookup (for the kinds that make one) succeeds, is accepted.
   */
  lemma ConfigureFields(kind: Kind, m: ConfNode, compile: Compiler, regex: string, test: Matcher, groupname: Option<string>)
    requires kind != Max
    requires FirstText(m, "Regex") == Success(regex) && compile(regex) == Some(test)
    requires if kind == CounterInc then groupname == None else OptionalText(m, "GroupName") == Success(groupname)
    ensures Configure(kind, m, compile) == Success(InstrumentSpec(kind, test, DefaultMaxGroups, groupname))
  {
  }

  // ---------------------------------------------------------------------
  // What read_config builds
  // ---------------------------------------------------------------------

  /** One `Match` block: the metric instance, the collectd type and the instrument. */
  datatype MatchPlan = MatchPlan(instanceName: string, valuetype: string, spec: InstrumentSpec)

  /** The lookups at the head of one `File` block. */
  datatype FileHeader = FileHeader(
    instanceName: string, source: string, groupmatch: Matcher, groupbygroup: Option<string>, maxgroups: int)

  /** One `File` block: its header and its `Match` blocks in order. */
  datatype FilePlan = FilePlan(header: FileHeader, matches: seq<MatchPlan>)

  /** A `Match` block: Instance, Type and DSType, then the factory for that DSType. */
  function PlanMatch(m: ConfNode, compile: Compiler): (r: Result<MatchPlan, ConfError>)
    ensures r.Success? ==> r.value.spec.maxgroups == DefaultMaxGroups && r.value.spec.kind != Max
    ensures r.Success? ==>
      (FirstText(m, "DSType").Success? && InstrumentKindFor(FirstText(m, "DSType").value) == Success(r.value.spec.kind))
    ensures r.Success? ==>
      FirstText(m, "Instance") == Success(r.value.instanceName) && FirstText(m, "Type") == Success(r.value.valuetype)
    ensures r.Success? ==> Configure(r.value.spec.kind, m, compile) == Success(r.value.spec)
  {
    var instanceName :- FirstText(m, "Instance");
    var valuetype :- FirstText(m, "Type");
    var dstype :- FirstText(m, "DSType");
    var kind :- InstrumentKindFor(dstype);
    var spec :- Configure(kind, m, compile);
    Success(MatchPlan(instanceName, valuetype, spec))
  }

  /**
   * Conversely, a `Match` block whose Instance, Type and DSType are found,
   * whose DSType has a factory and whose factory succeeds is accepted, with
   * exactly those fields.
   */
  lemma PlanMatchFields(m: ConfNode, compile: Compiler, instanceName: string, valuetype: string, dstype: string,
                        kind: Kind, spec: InstrumentSpec)
    requires FirstText(m, "Instance") == Success(instanceName) && FirstText(m, "Type") == Success(valuetype)
    requires FirstText(m, "DSType") == Success(dstype) && InstrumentKindFor(dstype) == Success(kind)
    requires Configure(kind, m, compile) == Success(spec)
    ensures PlanMatch(m, compile) == Success(MatchPlan(instanceName, valuetype, spec))
  {
  }

  /**
   * The head of a `File` block, in the source's order: Instance, the block's
   * own value, GroupBy, GroupName, MaxGroups (parsed, default 64), then the
   * compiled GroupBy expression.
   */
  function PlanHeader(f: ConfNode, compile: Compiler): Result<FileHeader, ConfError>
  {
    var instanceName :- FirstText(f, "Instance");
    var source :- if |f.values| > 0 then Success(f.values[0]) else Failure(IndexError);
    var groupby :- FirstText(f, "GroupBy");
    var groupbygroup :- OptionalText(f, "GroupName");
    var maxvalue :- FirstValue(f.children, "MaxGroups", Some(PyInt(DefaultMaxGroups)));
    var maxgroups :- PyToInt(maxvalue);
    var groupmatch :- Compile(compile, groupby);
    Success(FileHeader(instanceName, source, groupmatch, groupbygroup, maxgroups))
  }

  /**
   * When every lookup of a `File` block succeeds, its header holds the
   * block's Instance, its own first value, the GroupName (None when absent),
   * MaxGroups as an integer (64 when absent) and the compiled GroupBy
   * expression.
   */
  lemma PlanHeaderFields(f: ConfNode, compile: Compiler, instanceName: string, groupby: string,
                         groupbygroup: Option<string>, maxvalue: PyValue, maxgroups: int, groupmatch: Matcher)
    requires FirstText(f, "Instance") == Success(instanceName) && |f.values| > 0
    requires FirstText(f, "GroupBy") == Success(groupby) && OptionalText(f, "GroupName") == Success(groupbygroup)
    requires FirstValue(f.children, "MaxGroups", Some(PyInt(DefaultMaxGroups))) == Success(maxvalue)
    requires PyToInt(maxvalue) == Success(maxgroups) && compile(groupby) == Some(groupmatch)
    ensures PlanHeader(f, compile) == Success(FileHeader(instanceName, f.values[0], groupmatch, groupbygroup, maxgroups))
  {
  }

  /** Conversely, a header is read only when every one of its lookups succeeds. */
  lemma PlanHeaderNeedsAll(f: ConfNode, compile: Compiler)
    requires PlanHeader(f, compile).Success?
    ensures FirstText(f, "Instance").Success? && |f.values| > 0
    ensures FirstText(f, "GroupBy").Success? && OptionalText(f, "GroupName").Success?
    ensures FirstValue(f.children, "MaxGroups", Some(PyInt(DefaultMaxGroups))).Success?
    ensures PyToInt(FirstValue(f.children, "MaxGroups", Some(PyInt(DefaultMaxGroups))).value).Success?
    ensures compile(FirstText(f, "GroupBy").value).Some?
  {
  }

  /** The Instance lookup comes first: a block without one fails with KeyError, whatever else is wrong with it. */
  lemma PlanHeaderNeedsInstance(f: ConfNode, compile: Compiler)
    requires ChildrenNamed(f.children, "Instance") == []
    ensures PlanHeader(f, compile) == Failure(KeyError)
  {
    FirstValueOfFirstChild(f.children, "Instance", None);
  }

  /**
   * A step for each element in order, stopping at the first failure:
   * the shape of a loop whose body may raise.
   */
  function MapResult<A, B>(step: A -> Result<B, ConfError>, xs: seq<A>): Result<seq<B>, ConfError> {
    if xs == [] then Success([])
    else
      var init :- MapResult(step, xs[..|xs| - 1]);
      var last :- step(xs[|xs| - 1]);
      Success(init + [last])
  }

  /** On success, one result per element, each the element's own step. */
  lemma {:induction false} MapResultSuccess<A, B>(step: A -> Result<B, ConfError>, xs: seq<A>)
    ensures MapResult(step, xs).Success? <==> forall i :: 0 <= i < |xs| ==> step(xs[i]).Success?
    ensures MapResult(step, xs).Success? ==>
      |MapResult(step, xs).value| == |xs|
      && forall i :: 0 <= i < |xs| ==> MapResult(step, xs).value[i] == step(xs[i]).value
  {
    if xs != [] {
      var init := xs[..|xs| - 1];
      MapResultSuccess(step, init);
      assert forall i :: 0 <= i < |init| ==> init[i] == xs[i];
    }
  }

  /** A failure on some prefix is the failure of the whole run: nothing after it is evaluated. */
  lemma {:induction false} MapResultPrefixFailure<A, B>(step: A -> Result<B, ConfError>, xs: seq<A>, n: nat)
    requires n <= |xs| && MapResult(step, xs[..n]).Failure?
    ensures MapResult(step, xs) == MapResult(step, xs[..n])
    decreases |xs|
  {
    if n < |xs| {
      var init := xs[..|xs| - 1];
      assert init[..n] == xs[..n];
      MapResultPrefixFailure(step, init, n);
    } else {
      assert xs[..n] == xs;
    }
  }

  /** One more element: the prefix's results and its own, or the first failure. */
  lemma MapResultStep<A, B>(step: A -> Result<B, ConfError>, xs: seq<A>, n: nat)
    requires n < |xs|
    ensures MapResult(step, xs[..n + 1]) ==
      match MapResult(step, xs[..n])
      case Failure(e) => Failure(e)
      case Success(init) =>
        match step(xs[n])
        case Failure(e) => Failure(e)
        case Success(last) => Success(init + [last])
  {
    assert xs[..n + 1][..n] == xs[..n];
  }

  function MatchPlanner(compile: Compiler): ConfNode -> Result<MatchPlan, ConfError> {
    m => PlanMatch(m, compile)
  }

  /** A whole `File` block: the header, then each `Match` child in order. */
  function PlanFile(f: ConfNode, compile: Compiler): Result<FilePlan, ConfError> {
    var header :- PlanHeader(f, compile);
    var matches :- MapResult(MatchPlanner(compile), ChildrenNamed(f.children, "Match"));
    Success(FilePlan(header, matches))
  }

  function FilePlanner(compile: Compiler): ConfNode -> Result<FilePlan, ConfError> {
    f => PlanFile(f, compile)
  }

  /** `read_config`, as values: one plan per `File` child in order, or the first exception. */
  function PlanConfig(conf: ConfNode, compile: Compiler): Result<seq<FilePlan>, ConfError> {
    MapResult(FilePlanner(compile), ChildrenNamed(conf.children, "File"))
  }

  /**
   * A successful configuration has one plan per `File` child and one match
   * per `Match` child inside it, in order; every instrument has the cap of
   * 64 groups whatever MaxGroups says, and none is a Max.
   */
  lemma PlanConfigShape(conf: ConfNode, compile: Compiler)
    requires PlanConfig(conf, compile).Success?
    ensures var files := ChildrenNamed(conf.children, "File");
      var plans := PlanConfig(conf, compile).value;
      && |plans| == |files|
      && forall i :: 0 <= i < |files| ==>
        && PlanFile(files[i], compile) == Success(plans[i])
        && |plans[i].matches| == |ChildrenNamed(files[i].children, "Match")|
        && forall j :: 0 <= j < |plans[i].matches| ==>
          && PlanMatch(ChildrenNamed(files[i].children, "Match")[j], compile) == Success(plans[i].matches[j])
          && plans[i].matches[j].spec.maxgroups == DefaultMaxGroups
          && plans[i].matches[j].spec.kind != Max
  {
    var files := ChildrenNamed(conf.children, "File");
    MapResultSuccess(FilePlanner(compile), files);
    forall i | 0 <= i < |files|
      ensures var p := PlanConfig(conf, compile).value[i];
        |p.matches| == |ChildrenNamed(files[i].children, "Match")|
        && forall j :: 0 <= j < |p.matches| ==>
          PlanMatch(ChildrenNamed(files[i].children, "Match")[j], compile) == Success(p.matches[j])
    {
      MapResultSuccess(MatchPlanner(compile), ChildrenNamed(files[i].children, "Match"));
    }
  }

  // ---------------------------------------------------------------------
  // read_config
  // ---------------------------------------------------------------------

  /** An entry of the list `read_config` returns. */
  datatype FileEntry = FileEntry(instanceName: string, tail: GroupingTail)

  /** The objects an entry consists of. */
  ghost function Footprint(e: FileEntry): set<object>
    reads e.tail
  {
    {e.tail} + e.tail.Instruments()
  }

  /** The definitions were attached as planned, each with a new, empty instrument. */
  ghost predicate DefinitionsBuilt(defs: seq<MatchDefinition>, plans: seq<MatchPlan>)
    reads set i | 0 <= i < |defs| :: defs[i].instrument
  {
    && |defs| == |plans|
    && forall j :: 0 <= j < |defs| ==>
      && defs[j].instanceName == plans[j].instanceName
      && defs[j].valuetype == plans[j].valuetype
      && defs[j].instrument.Spec() == plans[j].spec
      && defs[j].instrument.State() == Empty
  }

  lemma DefinitionsBuiltExtend(defs: seq<MatchDefinition>, plans: seq<MatchPlan>, d: MatchDefinition, p: MatchPlan)
    requires DefinitionsBuilt(defs, plans)
    requires d.instanceName == p.instanceName && d.valuetype == p.valuetype
    requires d.instrument.Spec() == p.spec && d.instrument.State() == Empty
    ensures DefinitionsBuilt(defs + [d], plans + [p])
  {
    var defs', plans' := defs + [d], plans + [p];
    forall j | 0 <= j < |defs'|
      ensures defs'[j].instanceName == plans'[j].instanceName && defs'[j].valuetype == plans'[j].valuetype
      ensures defs'[j].instrument.Spec() == plans'[j].spec && defs'[j].instrument.State() == Empty
    {
      if j < |defs| {
        assert defs'[j] == defs[j] && plans'[j] == plans[j];
      }
    }
  }

  /** The grouping tail of an entry was built as its `File` block says. */
  ghost predicate FileBuilt(e: FileEntry, p: FilePlan)
    reads e.tail, e.tail.Instruments()
  {
    && e.instanceName == p.header.instanceName
    && e.tail.source == p.header.source
    && e.tail.groupmatch == p.header.groupmatch
    && e.tail.groupbygroup == p.header.groupbygroup
    && e.tail.Valid()
    && DefinitionsBuilt(e.tail.matchDefinitions, p.matches)
  }

  /**
   * The entries were built as planned, their objects lie in `built`, and no
   * two entries share an object.
   */
  ghost predicate EntriesBuilt(files: seq<FileEntry>, plans: seq<FilePlan>, built: set<object>)
    reads built
  {
    && |files| == |plans|
    && (forall k :: 0 <= k < |files| ==>
         files[k].tail in built && Footprint(files[k]) <= built && FileBuilt(files[k], plans[k]))
    && (forall k, l :: 0 <= k < l < |files| ==> Footprint(files[k]) !! Footprint(files[l]))
  }

  lemma EntriesExtend(files: seq<FileEntry>, plans: seq<FilePlan>, entry: FileEntry, plan: FilePlan, built: set<object>)
    requires EntriesBuilt(files, plans, built)
    requires FileBuilt(entry, plan) && Footprint(entry) !! built
    ensures EntriesBuilt(files + [entry], plans + [plan], built + Footprint(entry))
  {
    var files', plans' := files + [entry], plans + [plan];
    forall k | 0 <= k < |files'|
      ensures FileBuilt(files'[k], plans'[k]) && Footprint(files'[k]) <= built + Footprint(entry)
    {
      if k < |files| {
        assert files'[k] == files[k] && plans'[k] == plans[k];
      }
    }
  }

  /**
   * `read_config`: for each `File` child, build its grouping tail and attach
   * an instrument for each of its `Match` children; the first exception
   * aborts the whole configuration.
   */
  method ReadConfig(conf: ConfNode, compile: Compiler) returns (r: Result<seq<FileEntry>, ConfError>)
    ensures r.Failure? <==> PlanConfig(conf, compile).Failure?
    ensures r.Failure? ==> r.error == PlanConfig(conf, compile).error
    ensures r.Success? ==>
      && |r.value| == |PlanConfig(conf, compile).value|
      && (forall i :: 0 <= i < |r.value| ==> fresh(Footprint(r.value[i])))
      && (forall i, j :: 0 <= i < j < |r.value| ==> Footprint(r.value[i]) !! Footprint(r.value[j]))
      && forall i :: 0 <= i < |r.value| ==> FileBuilt(r.value[i], PlanConfig(conf, compile).value[i])
  {
    var fs := GetConfChildren(conf, "File");
    r := ReadFiles(fs, compile);
  }

  /** The loop of `read_config` over the `File` children. */
  method ReadFiles(fs: seq<ConfNode>, compile: Compiler) returns (r: Result<seq<FileEntry>, ConfError>)
    ensures r.Failure? <==> MapResult(FilePlanner(compile), fs).Failure?
    ensures r.Failure? ==> r.error == MapResult(FilePlanner(compile), fs).error
    ensures r.Success? ==>
      && |r.value| == |MapResult(FilePlanner(compile), fs).value|
      && (forall i :: 0 <= i < |r.value| ==> fresh(Footprint(r.value[i])))
      && (forall i, j :: 0 <= i < j < |r.value| ==> Footprint(r.value[i]) !! Footprint(r.value[j]))
      && forall i :: 0 <= i < |r.value| ==> FileBuilt(r.value[i], MapResult(FilePlanner(compile), fs).value[i])
  {
    var files: seq<FileEntry> := [];
    ghost var plans: seq<FilePlan> := [];
    ghost var built: set<object> := {};
    var i := 0;
    while i < |fs|
      invariant 0 <= i <= |fs| && |files| == i && |plans| == i
      invariant MapResult(FilePlanner(compile), fs[..i]) == Success(plans)
      invariant fresh(built) && EntriesBuilt(files, plans, built)
    {
      MapResultStep(FilePlanner(compile), fs, i);
      assert FilePlanner(compile)(fs[i]) == PlanFile(fs[i], compile);
      var read := ReadFile(fs[i], compile);
      if read.Failure? {
        MapResultPrefixFailure(FilePlanner(compile), fs, i + 1);
        return Failure(read.error);
      }
      var entry := read.value;
      ghost var plan := PlanFile(fs[i], compile).value;
      EntriesExtend(files, plans, entry, plan, built);
      files := files + [entry];
      plans := plans + [plan];
      built := built + Footprint(entry);
      i := i + 1;
    }
    assert fs[..i] == fs;
    r := Success(files);
  }

  /** One `Match` block: build its instrument and `add_match` it to the tail. */
  method AttachInstrument(tail: GroupingTail, ghost done: seq<MatchPlan>, mp: MatchPlan)
    requires tail.Valid() && DefinitionsBuilt(tail.matchDefinitions, done)
    modifies tail
    ensures tail.Valid() && DefinitionsBuilt(tail.matchDefinitions, done + [mp])
    ensures fresh(tail.Instruments() - old(tail.Instruments()))
  {
    var spec := mp.spec;
    ghost var before := tail.matchDefinitions;
    var instrument := new Instrument(spec.kind, spec.test, spec.maxgroups, spec.regexGroup);
    assert DefinitionsBuilt(before, done);
    tail.AddMatch(mp.instanceName, mp.valuetype, instrument);
    assert DefinitionsBuilt(before, done);
    DefinitionsBuiltExtend(before, done, MatchDefinition(mp.instanceName, mp.valuetype, instrument), mp);
  }

  /**
   * The inner loop of `read_config`: one new instrument attached to the tail
   * per `Match` child, in order, until the first exception.
   */
  method AttachAll(tail: GroupingTail, ms: seq<ConfNode>, compile: Compiler) returns (plans: Result<seq<MatchPlan>, ConfError>)
    requires tail.Valid() && tail.matchDefinitions == []
    modifies tail
    ensures plans == MapResult(MatchPlanner(compile), ms)
    ensures tail.Valid() && fresh(tail.Instruments())
    ensures plans.Success? ==> DefinitionsBuilt(tail.matchDefinitions, plans.value)
  {
    var done: seq<MatchPlan> := [];
    var j := 0;
    while j < |ms|
      invariant 0 <= j <= |ms|
      invariant MapResult(MatchPlanner(compile), ms[..j]) == Success(done)
      invariant fresh(tail.Instruments())
      invariant tail.Valid() && DefinitionsBuilt(tail.matchDefinitions, done)
    {
      MapResultStep(MatchPlanner(compile), ms, j);
      var mp := PlanMatch(ms[j], compile);
      if mp.Failure? {
        MapResultPrefixFailure(MatchPlanner(compile), ms, j + 1);
        return Failure(mp.error);
      }
      AttachInstrument(tail, done, mp.value);
      done := done + [mp.value];
      j := j + 1;
    }
    assert ms[..j] == ms;
    return Success(done);
  }

  /** One `File` block: its header, then a new grouping tail with its `Match` children attached. */
  method ReadFile(f: ConfNode, compile: Compiler) returns (r: Result<FileEntry, ConfError>)
    ensures r.Failure? <==> PlanFile(f, compile).Failure?
    ensures r.Failure? ==> r.error == PlanFile(f, compile).error
    ensures r.Success? ==> fresh(Footprint(r.value)) && FileBuilt(r.value, PlanFile(f, compile).value)
  {
    var header := PlanHeader(f, compile);
    if header.Failure? {
      return Failure(header.error);
    }
    var tail, mplans := BuildTail(f, header.value, compile);
    if mplans.Failure? {
      return Failure(mplans.error);
    }
    return Success(FileEntry(header.value.instanceName, tail));
  }

  /** One `File` block after its header: a new grouping tail with its `Match` children attached. */
  method BuildTail(f: ConfNode, header: FileHeader, compile: Compiler)
    returns (tail: GroupingTail, plans: Result<seq<MatchPlan>, ConfError>)
    ensures plans == MapResult(MatchPlanner(compile), ChildrenNamed(f.children, "Match"))
    ensures fresh(Footprint(FileEntry(header.instanceName, tail)))
    ensures plans.Success? ==> FileBuilt(FileEntry(header.instanceName, tail), FilePlan(header, plans.value))
  {
    tail := new GroupingTail(header.source, header.groupmatch, header.groupbygroup);
    var ms := GetConfChildren(f, "Match");
    plans := AttachAll(tail, ms, compile);
  }
}
