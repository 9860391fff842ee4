# VariablePlugin: derived variables in EDAL

This project models `VariablePlugin`, the abstract base class of EDAL's dataset plugins. A plugin makes new variables, such as the magnitude and direction of a vector, from variables a dataset already has. The base class does the shared bookkeeping:

- **Naming.** The IDs of the variables used are concatenated into one combined name, which is memoised. Each provided ID is that name followed by a suffix.
- **Value derivation.** `getValue` checks that the requested ID is provided and that the arity matches. It returns null when source slot 0 or 1 is null. Otherwise it strips the combined name from the ID and calls the concrete plugin's `generateValue`.
- **Lazy derived array.** `generateArray2D` returns a read-only 2-D view shaped like the first source array. Each read of a cell reads that cell from every source in order. The first null makes the cell null; otherwise the cell's value comes from `generateValue`. Every write fails.
- **Metadata hook.** `processVariableMetadata` checks a one-shot flag and the arity, then calls the concrete plugin's `doProcessVariableMetadata`.
- **Domain "unions".** Three utilities fold a list of horizontal, vertical or temporal domains with running max/min variables that start from fixed values.

## How the model is built

- **Modules.**
  - `Base` holds Option, Number, Error and Result.
  - `Naming` holds the default combined name, `Concat`.
  - `Domains` holds the domain records, the running folds and the union specifications.
  - `Plugins` holds the class `VariablePlugin` and the class `DerivedArray2D`.
- **The plugin object.** `VariablePlugin` is a class with the source's fields:
  - `uses`, the array `provided` (the source's `provides`) and `prefixLength`;
  - `metadataProcessed`;
  - `combinedName`, an Option because the source starts it at null.

  `Valid()` is the object invariant. It says that each provided ID is the combined name followed by its suffix. Its naming half, `NameValid()`, covers only the combined name and the prefix length. Two ghost fields complete the picture: `suffixes` records the constructor's suffixes, and `hookCalls` counts how many times the metadata hook has run.
- **The abstract hooks.** The two abstract methods are constant function-valued fields supplied to the constructor. The value hook is a pure function. The metadata hook maps the source nodes to the new nodes; metadata nodes have the class's type parameter `M`.
- **Numbers, arrays, exceptions.** A `Number` is `Option<real>`, where `None` is null. A source `Array2D` is an `array2<Number>` owned by the caller; the view reads it when a cell is read. Exceptions are `Failure` values of a `Result`.
- **The unions.** Each union method runs the source's loop. It is proved equal to a specification written as folds (`Greatest`, `Least`, `Latest`, `Earliest`). Each fold is proved to be the maximum or minimum of its start value and the inputs.
- **Values and CRSs.** Doubles are reals and instants are `Millis`, the long milliseconds of a Joda `DateTime`. The vertical CRS and the chronology are type parameters. `VerticalCrs.equals` is value equality.

Quirks of the code as written, which the model reproduces (all citations are to `VariablePlugin.java`):

- Lines 55-63: the constructor does not check that any source ID is given. A plugin with none is built, and its combined name is empty.
- Lines 108 and 120: `metadataProcessed` is never set, so the guard at line 120 never fires and the metadata hook can run any number of times. The hook's documentation at line 163 says it is called only once.
- Lines 246-249: the horizontal "union" starts its running values inverted. For boxes inside the globe it always yields the box (180, 90, -180, -90). Lines 236-238 say the result is the area valid in all the domains.
- Line 315: the temporal "union" starts its lower bound at the epoch (millisecond 0), so any part of the domains before 1970 is cut off. Lines 306-308 say the result is the range valid in all the domains.
- Line 147: `getValue` with a single source throws an index exception when slot 0 is not null, because it reads slot 1.

## Model

| member | source | states |
|---|---|---|
| `Plugins.VariablePlugin.constructor` | common/src/main/java/uk/ac/rdg/resc/edal/dataset/plugins/VariablePlugin.java:55-63 | establishes the invariant: there is one provided ID per suffix, each equal to the concatenated used IDs followed by that suffix, and the prefix length is the combined name's length; the flag starts false and the hook has not run |
| `Plugins.VariablePlugin.UsesVariables` | common/src/main/java/uk/ac/rdg/resc/edal/dataset/plugins/VariablePlugin.java:69-71 | the used IDs, whose in-order concatenation is the combined name; needs only the naming part of the invariant, not the provided IDs |
| `Plugins.VariablePlugin.ProvidesVariables` | common/src/main/java/uk/ac/rdg/resc/edal/dataset/plugins/VariablePlugin.java:76-78 | the provided IDs: as many as the suffixes, the i-th being the combined name followed by the i-th suffix |
| `Plugins.VariablePlugin.CombineIds` | common/src/main/java/uk/ac/rdg/resc/edal/dataset/plugins/VariablePlugin.java:200-212 | the first call stores and returns the in-order concatenation of the parts; any later call returns the stored name unchanged, whatever parts it is given, and keeps the invariant |
| `Plugins.VariablePlugin.GetFullId` | common/src/main/java/uk/ac/rdg/resc/edal/dataset/plugins/VariablePlugin.java:227-229 | the full ID begins with the combined name, and stripping the name gives the suffix back; before the name is set, the prefix is "null" |
| `Plugins.VariablePlugin.ProvidedIdSuffix` | common/src/main/java/uk/ac/rdg/resc/edal/dataset/plugins/VariablePlugin.java:59-62 | every provided ID is at least prefixLength long, and its substring from prefixLength is the suffix it was built from |
| `Naming.ConcatAppend` | common/src/main/java/uk/ac/rdg/resc/edal/dataset/plugins/VariablePlugin.java:205-209 | the combined name of two joined lists of IDs is the two combined names joined |
| `Naming.ConcatPartAt` | common/src/main/java/uk/ac/rdg/resc/edal/dataset/plugins/VariablePlugin.java:205-209 | each ID appears unchanged in the combined name, right after the IDs before it (no separator) |
| `Naming.ConcatLength` | common/src/main/java/uk/ac/rdg/resc/edal/dataset/plugins/VariablePlugin.java:205-209 | the combined name's length (the prefix length) is the total length of the IDs |
| `Plugins.VariablePlugin.GetValue` | common/src/main/java/uk/ac/rdg/resc/edal/dataset/plugins/VariablePlugin.java:139-151 | the checks apply in order. An ID that is not provided fails, and only it fails that way. Then a wrong arity fails. Then a null in slot 0, or in slot 1 when there are at least two sources, gives null whatever the other values are. With no sources, or one non-null source, an index error is thrown. Otherwise the result is the hook applied to the ID's own suffix and all the values |
| `Plugins.VariablePlugin.GenerateArray2D` | common/src/main/java/uk/ac/rdg/resc/edal/dataset/plugins/VariablePlugin.java:83-88 | a wrong arity fails; with no sources, reading the first source throws; otherwise the result is a new view over this plugin, the ID and the caller's arrays, sized like the first source |
| `Plugins.DerivedArray2D.constructor` | common/src/main/java/uk/ac/rdg/resc/edal/dataset/plugins/VariablePlugin.java:88 | the view keeps references to the plugin, the ID and the source arrays, and records the Y and X sizes it is given |
| `Plugins.DerivedArray2D.Get` | common/src/main/java/uk/ac/rdg/resc/edal/dataset/plugins/VariablePlugin.java:94-104 | the loop with its early returns computes the cell from the sources as they stand now: the first failed or null read decides; otherwise the substring from prefixLength, which fails for an ID shorter than the combined name, and the values in source order go to the hook |
| `Plugins.DerivedArray2D.Set` | common/src/main/java/uk/ac/rdg/resc/edal/dataset/plugins/VariablePlugin.java:89-92 | every write fails as immutable and changes nothing |
| `Plugins.GatherInBounds` | common/src/main/java/uk/ac/rdg/resc/edal/dataset/plugins/VariablePlugin.java:96-102 | inside every source's shape, a cell reads as null exactly when some source is null there; otherwise it reads as that cell's values, in source order |
| `Plugins.GatherSettled` | common/src/main/java/uk/ac/rdg/resc/edal/dataset/plugins/VariablePlugin.java:97-101 | once a read has failed or met a null, reading more sources does not change the outcome |
| `Plugins.GatherStopsAtFirstNull` | common/src/main/java/uk/ac/rdg/resc/edal/dataset/plugins/VariablePlugin.java:97-101 | a null at source k, after k good reads, makes the cell null whatever the later sources hold, even sources too small for the cell |
| `Plugins.VariablePlugin.ProcessVariableMetadata` | common/src/main/java/uk/ac/rdg/resc/edal/dataset/plugins/VariablePlugin.java:119-128 | a set flag fails the call first; then a wrong arity fails; otherwise the hook runs once and its result is returned; the flag is left unchanged |
| `Plugins.VariablePlugin.RepeatedMetadataProcessing` | common/src/main/java/uk/ac/rdg/resc/edal/dataset/plugins/VariablePlugin.java:108-128 | starting with the flag clear, two calls in a row both succeed, the flag stays clear, and the hook runs twice |
| `Plugins.VariablePlugin.ProcessVariableMetadataOnce` | common/src/main/java/uk/ac/rdg/resc/edal/dataset/plugins/VariablePlugin.java:108-128 | corrected version: same checks; a successful call runs the hook once and sets the flag, and a refused call runs nothing |
| `Plugins.VariablePlugin.OnceProcessingRefusesSecondCall` | common/src/main/java/uk/ac/rdg/resc/edal/dataset/plugins/VariablePlugin.java:163 | with the corrected version, the first call returns the hook's result, the second call is refused, and the hook runs exactly once |
| `Plugins.VariablePlugin.GetUnionOfHorizontalDomains` | common/src/main/java/uk/ac/rdg/resc/edal/dataset/plugins/VariablePlugin.java:242-266 | fails on no domains; otherwise minLon is the greatest of 180 and all west bounds, minLat the greatest of 90 and all south bounds, maxLon the least of -180 and all east bounds, and maxLat the least of -90 and all north bounds |
| `Domains.GreatestIsMaximum` | common/src/main/java/uk/ac/rdg/resc/edal/dataset/plugins/VariablePlugin.java:255-257 | the running "raise if strictly greater" fold yields a value at least its start and every element, and equal to one of them |
| `Domains.LeastIsMinimum` | common/src/main/java/uk/ac/rdg/resc/edal/dataset/plugins/VariablePlugin.java:252-254 | the running "lower if strictly less" fold yields a value at most its start and every element, and equal to one of them |
| `Domains.HorizontalUnionOfBoxesInGlobe` | common/src/main/java/uk/ac/rdg/resc/edal/dataset/plugins/VariablePlugin.java:246-265 | for any non-empty list of boxes inside [-180, 180] x [-90, 90], the result is the inverted box (180, 90, -180, -90), which contains no point |
| `Domains.HorizontalUnionOfTwoBoxes` | common/src/main/java/uk/ac/rdg/resc/edal/dataset/plugins/VariablePlugin.java:242-265 | the boxes [-10, 10] x [-5, 5] and [-5, 5] x [-2, 2] give (180, 90, -180, -90) as written, and (-5, -2, 5, 2) with the corrected start |
| `Domains.HorizontalIntersectionContains` | common/src/main/java/uk/ac/rdg/resc/edal/dataset/plugins/VariablePlugin.java:236-238 | with the corrected start, a point is in the result exactly when it is on the globe and inside every input box |
| `Plugins.VariablePlugin.GetUnionOfVerticalDomains` | common/src/main/java/uk/ac/rdg/resc/edal/dataset/plugins/VariablePlugin.java:278-299 | fails on no domains. A null CRS on the first domain dereferences null. A domain whose CRS differs from the first one's, or is null, is refused. Otherwise the extent is (greatest of -Double.MAX_VALUE and all lows, least of Double.MAX_VALUE and all highs), in the first domain's CRS |
| `Domains.VerticalUnionIsCommonRange` | common/src/main/java/uk/ac/rdg/resc/edal/dataset/plugins/VariablePlugin.java:274-276 | when the vertical union succeeds, a level lies in its extent exactly when it lies in every input extent and within the double range; the CRS is the first domain's |
| `Domains.VerticalUnionOfTwoExtents` | common/src/main/java/uk/ac/rdg/resc/edal/dataset/plugins/VariablePlugin.java:282-298 | (0, 100) and (20, 80) in one CRS give (20, 80); two different CRSs are refused; two null CRSs dereference null |
| `Plugins.VariablePlugin.GetUnionOfTemporalDomains` | common/src/main/java/uk/ac/rdg/resc/edal/dataset/plugins/VariablePlugin.java:310-326 | fails on no domains; otherwise the extent is (latest of the epoch and all starts, earliest of Long.MAX_VALUE milliseconds and all ends), in the first domain's chronology |
| `Domains.LatestIsMaximum` | common/src/main/java/uk/ac/rdg/resc/edal/dataset/plugins/VariablePlugin.java:318-320 | the running isAfter fold yields an instant no earlier than its start and every element, and equal to one of them |
| `Domains.EarliestIsMinimum` | common/src/main/java/uk/ac/rdg/resc/edal/dataset/plugins/VariablePlugin.java:321-323 | the running isBefore fold yields an instant no later than its start and every element, and equal to one of them |
| `Domains.TemporalUnionIsCommonRangeFromEpoch` | common/src/main/java/uk/ac/rdg/resc/edal/dataset/plugins/VariablePlugin.java:314-325 | an instant lies in the result exactly when it is not before the epoch and lies in every input extent; the chronology is the first domain's |
| `Domains.TemporalUnionBeforeEpoch` | common/src/main/java/uk/ac/rdg/resc/edal/dataset/plugins/VariablePlugin.java:315-320 | a single domain from -1000 ms to 1000 ms yields 0 ms to 1000 ms |

## Findings

| source | as written | input that shows it | evidently intended | confidence | as-written member | corrected member |
|---|---|---|---|---|---|---|
| common/src/main/java/uk/ac/rdg/resc/edal/dataset/plugins/VariablePlugin.java:246-249 | the running minimum latitude and longitude start at 90 and 180, and the maxima at -90 and -180, so the folds can only move them outward | the boxes [-10, 10] x [-5, 5] and [-5, 5] x [-2, 2] give (180, 90, -180, -90) | start at -180/-90 for the minima and 180/90 for the maxima, giving the common area (-5, -2, 5, 2), as the method's documentation says (lines 236-238) | high; not executed | `Domains.HorizontalUnionOfTwoBoxes` | `Domains.HorizontalIntersectionContains` |
| common/src/main/java/uk/ac/rdg/resc/edal/dataset/plugins/VariablePlugin.java:108 | `metadataProcessed` is initialised false and never assigned, so the guard at line 120 never fires | two calls of processVariableMetadata with the right number of nodes both succeed, and the hook runs twice | set the flag after a successful call, so the hook runs once, as its documentation (line 163) promises | high; not executed | `Plugins.VariablePlugin.RepeatedMetadataProcessing` | `Plugins.VariablePlugin.OnceProcessingRefusesSecondCall` |

The class methods `GetUnionOfHorizontalDomains` and `ProcessVariableMetadata` follow the code as written. The corrected definitions, `Domains.HorizontalIntersection` and `Plugins.VariablePlugin.ProcessVariableMetadataOnce`, stand beside them and carry the intended properties.

## Left out

- Concurrency: the class has no synchronisation, and the model is sequential.
- Subclass overrides of `combineIds` are not modelled. `Valid()` assumes the default concatenation.
- What `doProcessVariableMetadata` does to the `VariableMetadata` tree (creating nodes and re-parenting them) is not modelled. The hook is a function from the source nodes to the new nodes, and `VariableMetadata` is not part of this model. A ghost counter records how many times the hook runs. The model therefore does not say which nodes a second run returns: in Java they are new objects, built from a tree the first run has already changed.
- Concrete `generateValue` arithmetic (vector magnitude and direction, in subclasses) is not modelled. The hook is an arbitrary pure function.
- Array2D implementations are not part of this model. A source is a stored grid indexed (y, x), and a read outside a source's shape is modelled as an index failure. The source's `get(int... coords)` takes any number of coordinates; the model always passes two.
- Aliasing of arrays is not modelled:
  - the constructor keeps the caller's `usesVariables` array, and the model keeps its contents as a sequence;
  - a caller that writes into the array returned by `providesVariables` breaks `Valid()`, which `GetValue` requires.
- `Plugins.VariablePlugin.GetValue`: requires the object invariant `Valid()`. This excludes only a provided-IDs array that a caller has overwritten. Under the invariant, the substring of a provided ID never fails.
- Null arguments are not modelled: null ID arrays, null suffix strings (Java would write "null" into the ID), and null domains, extents or bounding boxes.
- Doubles are reals: NaN, infinities and -0.0 are not modelled. Every comparison with NaN is false in Java, so a NaN bound would never replace a running value.
- The constructors of SimpleHorizontalDomain, SimpleVerticalDomain and SimpleTemporalDomain are not part of this model; results are plain records. The horizontal result's WGS84 CRS is implied, not represented. Any validation those constructors perform, for example on an inverted extent, is not modelled.
- Joda `DateTime` is reduced to its milliseconds. `isAfter` and `isBefore` compare milliseconds, and the chronology that the sentinel instants carry is not modelled.
- Strings are sequences of Unicode characters, while Java's `length()` and `substring` count UTF-16 code units. For an ID holding a character outside the Basic Multilingual Plane, `prefixLength` differs. The cut that `generateArray2D`'s view makes in an arbitrary ID, and when that cut throws, can then differ too. For the provided IDs the round trip (combined name plus suffix, then cut) holds either way.
- Exception messages are not modelled, only which exception is thrown.
