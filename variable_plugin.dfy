/** A plugin that derives new variables from existing ones: the bookkeeping
    every plugin shares (naming, guarded value derivation, a lazy derived
    2-D array, a metadata hook and the domain "unions"). The two abstract
    methods a concrete plugin overrides are supplied as functions when the
    plugin is constructed. */
module Plugins {
  import opened Base
  import opened Naming
  import opened Domains

  /** A plugin whose metadata nodes have type M. */
  class VariablePlugin<M> {
    /** The IDs of the variables used, in the order they are needed. */
    const uses: seq<string>
    /** The IDs of the variables provided, filled in by the constructor. */
    const provided: array<string>
    var prefixLength: nat
    var metadataProcessed: bool
    /** The memoised combined name; None until combineIds first runs. */
    var combinedName: Option<string>

    /** The concrete plugin's generateValue(suffix, values...). */
    const generateValue: (string, seq<Number>) -> Number
    /** The concrete plugin's doProcessVariableMetadata(metadata...). */
    const doProcessVariableMetadata: seq<M> -> seq<M>

    /** The suffixes the constructor was given; the object keeps only the
        full IDs built from them. */
    ghost const suffixes: seq<string>
    /** How many times doProcessVariableMetadata has been run. */
    ghost var hookCalls: nat

    /** The combined name is the concatenation of the used IDs, and the
        prefix length is its length. */
    ghost predicate NameValid()
      reads this
    {
      && combinedName == Some(Concat(uses))
      && prefixLength == |Concat(uses)|
    }

    /** Every provided ID is the combined name followed by its suffix. */
    ghost predicate Valid()
      reads this, provided
    {
      && NameValid()
      && provided.Length == |suffixes|
      && forall i :: 0 <= i < provided.Length ==> provided[i] == Concat(uses) + suffixes[i]
    }

    constructor (usesVariables: seq<string>, providesSuffixes: seq<string>,
                 generateValue: (string, seq<Number>) -> Number,
                 doProcessVariableMetadata: seq<M> -> seq<M>)
      ensures Valid()
      ensures uses == usesVariables && suffixes == providesSuffixes
      ensures fresh(provided)
      ensures !metadataProcessed && hookCalls == 0
      ensures this.generateValue == generateValue
      ensures this.doProcessVariableMetadata == doProcessVariableMetadata
    {
      uses := usesVariables;
      provided := new string[|providesSuffixes|];
      suffixes := providesSuffixes;
      this.generateValue := generateValue;
      this.doProcessVariableMetadata := doProcessVariableMetadata;
      metadataProcessed := false;
      hookCalls := 0;
      combinedName := None;
      prefixLength := 0;
      new;
      var _ := CombineIds(usesVariables);
      prefixLength := |combinedName.value|;
      for i := 0 to |providesSuffixes|
        modifies provided
        invariant forall j :: 0 <= j < i ==> provided[j] == Concat(usesVariables) + providesSuffixes[j]
      {
        provided[i] := GetFullId(providesSuffixes[i]);
      }
    }

    /** The used IDs, in order; the combined name is their concatenation. */
    function UsesVariables(): (r: seq<string>)
      reads this
      requires NameValid()
      ensures combinedName == Some(Concat(r))
    {
      uses
    }

    /** The provided IDs: one per suffix, each the combined name followed by
        that suffix. */
    function ProvidesVariables(): (r: array<string>)
      reads this, provided
      requires Valid()
      ensures r == provided
      ensures r.Length == |suffixes|
      ensures forall i :: 0 <= i < r.Length ==> r[i] == Concat(uses) + suffixes[i]
    {
      provided
    }

    /** The combined name is computed on the first call only; later calls,
        whatever IDs they pass, return the memoised name. */
    method CombineIds(partsToUse: seq<string>) returns (r: string)
      modifies this`combinedName
      ensures old(combinedName).Some? ==> combinedName == old(combinedName) && r == old(combinedName).value
      ensures old(combinedName).None? ==> combinedName == Some(Concat(partsToUse)) && r == Concat(partsToUse)
      ensures old(Valid()) ==> Valid()
    {
      if combinedName.None? {
        var ret := "";
        for i := 0 to |partsToUse|
          invariant ret == Concat(partsToUse[..i])
        {
          assert partsToUse[..i + 1][..i] == partsToUse[..i];
          ret := ret + partsToUse[i];
        }
        assert partsToUse[..|partsToUse|] == partsToUse;
        combinedName := Some(ret);
      }
      r := combinedName.value;
    }

    /** The full ID of a suffix: the combined name in front of the suffix,
        so that stripping the combined name gives the suffix back. Before
        the name is set, Java's string concatenation writes "null". */
    function GetFullId(suffix: string): (r: string)
      reads this
      ensures combinedName.Some? ==>
        && |r| == |combinedName.value| + |suffix|
        && r[..|combinedName.value|] == combinedName.value
        && r[|combinedName.value|..] == suffix
      ensures combinedName.None? ==> r == "null" + suffix
    {
      match combinedName
      case None => "null" + suffix
      case Some(name) => name + suffix
    }

    /** Stripping the prefix from a provided ID gives back the suffix it was
        built from. */
    lemma ProvidedIdSuffix(varId: string)
      requires Valid()
      requires varId in provided[..]
      ensures prefixLength <= |varId|
      ensures forall i :: 0 <= i < provided.Length && provided[i] == varId ==> varId[prefixLength..] == suffixes[i]
    {
    }

    /** getValue: the ID must be provided, then the arity must match, then a
        null in slot 0 or 1 gives null (indexing slot 0 or 1 of a shorter
        array throws), and otherwise the concrete plugin derives the value
        from the suffix of the ID and all the values. */
    function GetValue(varId: string, values: seq<Number>): (r: Result<Number>)
      reads this, provided
      requires Valid()
      ensures varId !in provided[..] <==> r == Failure(UnknownVariable)
      ensures varId in provided[..] && |values| != |uses| ==> r == Failure(ArityMismatch)
      ensures varId in provided[..] && |values| == |uses| == 0 ==> r == Failure(IndexOutOfBounds)
      ensures varId in provided[..] && |values| == |uses| == 1 ==>
        r == if values[0].None? then Success(None) else Failure(IndexOutOfBounds)
      ensures varId in provided[..] && |values| == |uses| >= 2 && (values[0].None? || values[1].None?) ==>
        r == Success(None)
      ensures forall i :: (0 <= i < provided.Length && provided[i] == varId &&
        |values| == |uses| >= 2 && values[0].Some? && values[1].Some?) ==>
        r == Success(generateValue(suffixes[i], values))
    {
      if varId !in provided[..] then Failure(UnknownVariable)
      else if |values| != |uses| then Failure(ArityMismatch)
      else if |values| == 0 then Failure(IndexOutOfBounds)
      else if values[0].None? then Success(None)
      else if |values| == 1 then Failure(IndexOutOfBounds)
      else if values[1].None? then Success(None)
      else
        ProvidedIdSuffix(varId);
        Success(generateValue(varId[prefixLength..], values))
    }

    /** generateArray2D: checks the arity and returns a read-only view shaped
        like the first source array; nothing is computed until a cell is read. */
    method GenerateArray2D(varId: string, sourceArrays: seq<array2<Number>>) returns (r: Result<DerivedArray2D<M>>)
      ensures |sourceArrays| != |uses| ==> r == Failure(ArityMismatch)
      ensures |sourceArrays| == |uses| == 0 ==> r == Failure(IndexOutOfBounds)
      ensures |sourceArrays| == |uses| > 0 ==>
        && r.Success? && fresh(r.value)
        && r.value.plugin == this && r.value.varId == varId && r.value.sourceArrays == sourceArrays
        && r.value.ySize == sourceArrays[0].Length0 && r.value.xSize == sourceArrays[0].Length1
    {
      if |sourceArrays| != |uses| {
        return Failure(ArityMismatch);
      }
      if |sourceArrays| == 0 {
        // sourceArrays[0] of an empty array
        return Failure(IndexOutOfBounds);
      }
      var view := new DerivedArray2D(this, varId, sourceArrays, sourceArrays[0].Length0, sourceArrays[0].Length1);
      r := Success(view);
    }

    /** processVariableMetadata: refuses when the flag is set, then checks
        the arity, then runs the hook and returns what it returns. It never
        sets the flag. */
    method ProcessVariableMetadata(metadata: seq<M>) returns (r: Result<seq<M>>)
      modifies this`hookCalls
      ensures metadataProcessed ==> r == Failure(AlreadyProcessed)
      ensures !metadataProcessed && |metadata| != |uses| ==> r == Failure(ArityMismatch)
      ensures !metadataProcessed && |metadata| == |uses| ==> r == Success(doProcessVariableMetadata(metadata))
      ensures hookCalls == old(hookCalls) + (if r.Success? then 1 else 0)
    {
      if metadataProcessed {
        return Failure(AlreadyProcessed);
      }
      if |metadata| != |uses| {
        return Failure(ArityMismatch);
      }
      r := Success(doProcessVariableMetadata(metadata));
      hookCalls := hookCalls + 1;
    }

    /** Processing the metadata twice runs the hook twice: the flag stays
        clear, so both calls are admitted. */
    method RepeatedMetadataProcessing(metadata: seq<M>) returns (first: Result<seq<M>>, second: Result<seq<M>>)
      requires !metadataProcessed && |metadata| == |uses|
      modifies this`hookCalls
      ensures first == Success(doProcessVariableMetadata(metadata))
      ensures second.Success? && !metadataProcessed
      ensures hookCalls == old(hookCalls) + 2
    {
      first := ProcessVariableMetadata(metadata);
      second := ProcessVariableMetadata(metadata);
    }

    /** The one-shot processing the flag is there for: a successful call
        sets the flag, so the hook runs at most once. */
    method ProcessVariableMetadataOnce(metadata: seq<M>) returns (r: Result<seq<M>>)
      modifies this`metadataProcessed, this`hookCalls
      ensures old(metadataProcessed) ==> r == Failure(AlreadyProcessed) && metadataProcessed
      ensures !old(metadataProcessed) && |metadata| != |uses| ==> r == Failure(ArityMismatch) && !metadataProcessed
      ensures !old(metadataProcessed) && |metadata| == |uses| ==>
        r == Success(doProcessVariableMetadata(metadata)) && metadataProcessed
      ensures hookCalls == old(hookCalls) + (if r.Success? then 1 else 0)
    {
      r := ProcessVariableMetadata(metadata);
      if r.Success? {
        metadataProcessed := true;
      }
    }

    /** With the one-shot processing, the second call is refused and the
        hook runs once. */
    method OnceProcessingRefusesSecondCall(metadata: seq<M>) returns (first: Result<seq<M>>, second: Result<seq<M>>)
      requires !metadataProcessed && |metadata| == |uses|
      modifies this`metadataProcessed, this`hookCalls
      ensures first == Success(doProcessVariableMetadata(metadata))
      ensures second == Failure(AlreadyProcessed)
      ensures hookCalls == old(hookCalls) + 1
    {
      first := ProcessVariableMetadataOnce(metadata);
      second := ProcessVariableMetadataOnce(metadata);
    }

    /** getUnionOfHorizontalDomains, the running max/min loop as written. */
    method GetUnionOfHorizontalDomains(domains: seq<HorizontalDomain>) returns (r: Result<BoundingBox>)
      ensures r == HorizontalUnion(domains)
    {
      if |domains| == 0 {
        return Failure(EmptyInput);
      }
      var minLat: real := 90.0;
      var maxLat: real := -90.0;
      var minLon: real := 180.0;
      var maxLon: real := -180.0;
      for i := 0 to |domains|
        invariant minLon == Greatest(UnionStart.minX, Project(West, domains[..i]))
        invariant minLat == Greatest(UnionStart.minY, Project(South, domains[..i]))
        invariant maxLon == Least(UnionStart.maxX, Project(East, domains[..i]))
        invariant maxLat == Least(UnionStart.maxY, Project(North, domains[..i]))
      {
        GreatestStep(UnionStart.minX, West, domains, i);
        GreatestStep(UnionStart.minY, South, domains, i);
        LeastStep(UnionStart.maxX, East, domains, i);
        LeastStep(UnionStart.maxY, North, domains, i);
        var gbbox := domains[i].geographicBoundingBox;
        if gbbox.east < maxLon {
          maxLon := gbbox.east;
        }
        if gbbox.west > minLon {
          minLon := gbbox.west;
        }
        if gbbox.north < maxLat {
          maxLat := gbbox.north;
        }
        if gbbox.south > minLat {
          minLat := gbbox.south;
        }
      }
      assert domains[..|domains|] == domains;
      r := Success(BoundingBox(minLon, minLat, maxLon, maxLat));
    }

    /** getUnionOfVerticalDomains, the CRS check and running max/min loop as
        written. */
    method GetUnionOfVerticalDomains<Crs(==)>(domains: seq<VerticalDomain<Crs>>) returns (r: Result<VerticalDomain<Crs>>)
      ensures r == VerticalUnion(domains)
    {
      if |domains| == 0 {
        return Failure(EmptyInput);
      }
      var verticalCrs := domains[0].verticalCrs;
      var min: real := -DoubleMax;
      var max: real := DoubleMax;
      for i := 0 to |domains|
        invariant i > 0 ==> verticalCrs.Some?
        invariant forall j :: 0 <= j < i ==> domains[j].verticalCrs == verticalCrs
        invariant min == Greatest(-DoubleMax, Project(Low, domains[..i]))
        invariant max == Least(DoubleMax, Project(High, domains[..i]))
      {
        var domain := domains[i];
        if domain.verticalCrs.None? && verticalCrs.Some? {
          return Failure(IncompatibleCrs);
        }
        if domain.verticalCrs.None? {
          // both null: domain.getVerticalCrs().equals(...) dereferences null
          return Failure(NullPointer);
        }
        if domain.verticalCrs != verticalCrs {
          return Failure(IncompatibleCrs);
        }
        if domain.extent.low > min {
          min := domain.extent.low;
        }
        if domain.extent.high < max {
          max := domain.extent.high;
        }
        ProjectPrefix(Low, domains, i);
        ProjectPrefix(High, domains, i);
      }
      assert domains[..|domains|] == domains;
      r := Success(VerticalDomain(Extent(min, max), verticalCrs));
    }

    /** getUnionOfTemporalDomains, the running latest/earliest loop as
        written. */
    method GetUnionOfTemporalDomains<Chronology>(domains: seq<TemporalDomain<Chronology>>) returns (r: Result<TemporalDomain<Chronology>>)
      ensures r == TemporalUnion(domains)
    {
      if |domains| == 0 {
        return Failure(EmptyInput);
      }
      var chronology := domains[0].chronology;
      var min: Millis := Epoch;
      var max: Millis := LongMax;
      for i := 0 to |domains|
        invariant min == Latest(Epoch, Project(Start, domains[..i]))
        invariant max == Earliest(LongMax, Project(End, domains[..i]))
      {
        var domain := domains[i];
        if domain.extent.low > min {
          min := domain.extent.low;
        }
        if domain.extent.high < max {
          max := domain.extent.high;
        }
        ProjectPrefix(Start, domains, i);
        ProjectPrefix(End, domains, i);
      }
      assert domains[..|domains|] == domains;
      r := Success(TemporalDomain(Extent(min, max), chronology));
    }
  }

  // -----------------------------------------------------------------------
  // The lazy derived array.

  predicate InBounds(a: array2<Number>, y: int, x: int)
  {
    0 <= y < a.Length0 && 0 <= x < a.Length1
  }

  /** Reading cell (y, x) of the first n sources, in order: the first read
      outside a source's shape fails, the first null stops the reading with
      a null, and otherwise all n values are collected. */
  function Gather(srcs: seq<array2<Number>>, y: int, x: int, n: nat): Result<Option<seq<Number>>>
    requires n <= |srcs|
    reads srcs
  {
    if n == 0 then Success(Some([]))
    else
      match Gather(srcs, y, x, n - 1)
      case Failure(e) => Failure(e)
      case Success(None) => Success(None)
      case Success(Some(vs)) =>
        var a: array2<Number> := srcs[n - 1];
        if !InBounds(a, y, x) then Failure(IndexOutOfBounds)
        else if a[y, x].None? then Success(None)
        else Success(Some(vs + [a[y, x]]))
  }

  /** Within the sources' shapes, reading gives null exactly when some
      source is null at the cell, and otherwise the cell's values in source
      order. */
  lemma {:induction false} GatherInBounds(srcs: seq<array2<Number>>, y: int, x: int, n: nat)
    requires n <= |srcs|
    requires forall k :: 0 <= k < n ==> InBounds(srcs[k], y, x)
    ensures Gather(srcs, y, x, n).Success?
    ensures Gather(srcs, y, x, n).value.None? <==>
      exists k :: 0 <= k < n && InBounds(srcs[k], y, x) && srcs[k][y, x].None?
    ensures Gather(srcs, y, x, n).value.Some? ==>
      && |Gather(srcs, y, x, n).value.value| == n
      && forall k :: 0 <= k < n ==> InBounds(srcs[k], y, x) && Gather(srcs, y, x, n).value.value[k] == srcs[k][y, x]
  {
    if n > 0 {
      GatherInBounds(srcs, y, x, n - 1);
    }
  }

  /** Once reading has failed or met a null, reading further sources does
      not change the outcome. */
  lemma {:induction false} GatherSettled(srcs: seq<array2<Number>>, y: int, x: int, k: nat, n: nat)
    requires k <= n <= |srcs|
    requires !Gather(srcs, y, x, k).Success? || Gather(srcs, y, x, k).value.None?
    ensures Gather(srcs, y, x, n) == Gather(srcs, y, x, k)
  {
    if n > k {
      GatherSettled(srcs, y, x, k, n - 1);
    }
  }

  /** Reading stops at the first null: the sources after it are not read,
      so they may be null, non-null or even too small. */
  lemma {:induction false} GatherStopsAtFirstNull(srcs: seq<array2<Number>>, y: int, x: int, k: nat, n: nat)
    requires k < n <= |srcs|
    requires forall j :: 0 <= j < k ==> InBounds(srcs[j], y, x) && srcs[j][y, x].Some?
    requires InBounds(srcs[k], y, x) && srcs[k][y, x].None?
    ensures Gather(srcs, y, x, n) == Success(None)
  {
    GatherInBounds(srcs, y, x, k);
    GatherSettled(srcs, y, x, k + 1, n);
  }

  /** The anonymous Array2D that generateArray2D returns: it keeps
      references to the plugin and the caller's source arrays, and computes
      each cell when it is read. */
  class DerivedArray2D<M> {
    const plugin: VariablePlugin<M>
    const varId: string
    const sourceArrays: seq<array2<Number>>
    const ySize: nat
    const xSize: nat

    constructor (plugin: VariablePlugin<M>, varId: string, sourceArrays: seq<array2<Number>>, ySize: nat, xSize: nat)
      ensures this.plugin == plugin && this.varId == varId && this.sourceArrays == sourceArrays
      ensures this.ySize == ySize && this.xSize == xSize
    {
      this.plugin := plugin;
      this.varId := varId;
      this.sourceArrays := sourceArrays;
      this.ySize := ySize;
      this.xSize := xSize;
    }

    /** The value of cell (y, x) as the sources stand now: a failed or null
        read decides it; otherwise the suffix of the ID (which substring
        refuses when the ID is shorter than the combined name) and the
        values go to the concrete plugin. */
    function ValueAt(y: int, x: int): Result<Number>
      reads plugin, sourceArrays
    {
      match Gather(sourceArrays, y, x, |sourceArrays|)
      case Failure(e) => Failure(e)
      case Success(None) => Success(None)
      case Success(Some(vs)) =>
        if plugin.prefixLength > |varId| then Failure(StringIndexOutOfBounds)
        else Success(plugin.generateValue(varId[plugin.prefixLength..], vs))
    }

    /** get: reads the sources in order into a fresh array, returning null
        at the first null, then asks the plugin for the derived value. */
    method Get(y: int, x: int) returns (r: Result<Number>)
      ensures r == ValueAt(y, x)
    {
      var sourceValues := new Number[|sourceArrays|];
      for i := 0 to |sourceArrays|
        invariant Gather(sourceArrays, y, x, i) == Success(Some(sourceValues[..i]))
      {
        var source := sourceArrays[i];
        if !InBounds(source, y, x) {
          GatherSettled(sourceArrays, y, x, i + 1, |sourceArrays|);
          return Failure(IndexOutOfBounds);
        }
        sourceValues[i] := source[y, x];
        if sourceValues[i].None? {
          GatherSettled(sourceArrays, y, x, i + 1, |sourceArrays|);
          return Success(None);
        }
        assert sourceValues[..i + 1] == sourceValues[..i] + [source[y, x]];
      }
      assert sourceValues[..] == sourceValues[..|sourceArrays|];
      if plugin.prefixLength > |varId| {
        return Failure(StringIndexOutOfBounds);
      }
      r := Success(plugin.generateValue(varId[plugin.prefixLength..], sourceValues[..]));
    }

    /** set: the view is immutable, so every write fails and nothing changes. */
    method Set(value: Number, y: int, x: int) returns (r: Result<()>)
      ensures r == Failure(ImmutableArray)
    {
      r := Failure(ImmutableArray);
    }
  }
}
