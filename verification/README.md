# Verification of crdmetrics

A Dafny model of the two cores of crdmetrics, with proofs.

**The metrics index and its printer** (`internal/store.go`, `family.go`, `metric.go`, `writer.go`, `builder.go`,
`pkg/resolver`). A store renders every object it is told of to one text block per metric family and keeps the blocks
by UID; a scrape writes them out under their headers. Rendering hands labels down by changing families and metrics in
place, so every `Add` changes what the next one sees.

**The reconcile loop** (`internal/controller.go`, `events.go`, `config.go`, and the status conditions in
`pkg/apis/crdmetrics/v1alpha1/types.go`). Events of the informer are filtered, queued and handled; handling writes labels
and status back to the API server and drops or rebuilds the stores of one UID.

`dafny verify dfyconfig.toml` checks everything.

## How it is built

| file | what it holds |
|---|---|
| `Text.dfy`, `Output.dfy`, `Sync.dfy` | strings, ranging over a map, the two kinds of writers, `sync.RWMutex` |
| `Exposition.dfy` | the text format: its printer, and an independent reader after "Line format" and "Comments, help text, and type information" of Prometheus' "Exposition formats" (text format 0.0.4) |
| `Labelset.dfy` | `metric.go` |
| `Resolver.dfy` | `unstructured.go` and the shaping of results in `cel.go` |
| `Family.dfy`, `Store.dfy` | `family.go`, `store.go` and `buildStore`, as classes |
| `Determinism.dfy` | what map order and the sort can change |
| `StoreRuns.dfy`, `Readding.dfy` | any sequence of store events; adding an object again |
| `Document.dfy`, `Writer.dfy` | what a scrape's text means; `writer.go` |
| `Scrape.dfy` | scrapes and store calls interleaving lock by lock |
| `Readable.dfy` | which configurations give scrapes that can be read |
| `Series.dfy`, `SeriesRuns.dfy` | which objects and configurations give series and label names of their own |
| `Conditions.dfy` | `CRDMetricsResourceStatus.Set` |
| `Reconcile.dfy` | the reconcile loop as a machine of users, informer and one worker |
| `Draining.dfy`, `Installing.dfy`, `Converging.dfy`, `Losing.dfy` | what holds of its runs, and what does not |
| `Configuring.dfy`, `Handler.dfy` | `config.go`, and the code of the loop, proved to take the machine's steps |

Code that changes things in place is a class or a method over arrays; each is proved against a specification on values
(`View`), and the properties are lemmas about that specification. Library code is a function-valued parameter: number
parsing and printing, `%v`, CEL evaluation, YAML, and `sort.Slice`, of which only its promise is known
(`Labelset.Sorts`). The order in which a Go map is ranged over is an arbitrary enumeration of its keys. What users and the
informer do between two calls of the worker, and what becomes of each call, is given from outside (`others`, `fates`): a
call is answered, or served without the worker's being told, or lost.

## What was found

Where the code and its documentation differ, the model follows the code.

- Labels accumulate. Each `Add` appends the store's labels to the family and the family's to the metric again, so
  after n adds a metric carries n copies of its family's and n(n+1)/2 copies of its store's labels. The documented
  inheritance holds for the first object only, unless there is nothing to hand down
  (`StoreRuns.DocumentedInheritance`, `StoreRuns.HistoryFreeExactly`). From the second object on, such labels repeat a
  label name within one line (`Series.NamesInText`).
  Adding the same object again changes the store, unless there is nothing to hand down (`Readding.AddAgain`).
- Two objects of one kind that no label query tells apart are the same series, be it that there is no query or that all
  give the same for both, as a single `namespace` label does. With labels handed down there are no such objects, but
  only because each addition carries more of them than the last (`SeriesRuns.AdditionsClash`,
  `SeriesRuns.ScrapeSeries`, `SeriesRuns.TwinsAdded`).
- Whatever the sort does, a metric without composite results has one text. With one, the order in which Go ranges over a
  map shows when entries collide after sanitising and differ (`Determinism.MapOrderShows`). That it shows in no other
  case (`Determinism.MapOrderDetermined`) needs a sort that keeps equal keys in order. `sort.Slice`
  (internal/metric.go:101) does not promise that, and need not do it for long lists of labels; what holds under whatever
  sort is `Determinism.RenderingDetermined`.
- Sanitised keys may be empty or begin with a digit, which the format does not allow. One sample with such a key has the
  whole scrape rejected, whatever else it holds (`Document.DocumentAccepted`); under the unstructured resolver every
  sample of a metric that has such a key, or is handed one, is such a sample (`Readable.KeysDecide`). Help text is not
  escaped (`Exposition.HeaderInDocument`).
- The type switch for composite CEL results knows `int` and `uint` but not the 64-bit integers CEL uses, so these
  entries are dropped like nested ones (`Resolver.Kept` treats them so).
- A deletion never drops the stores of the object deleted: the handling ends at its first call, for want of the object
  (`Installing.StoresOutliveTheirObject`). A deletion told by tombstone is not even queued: no key is made of it.
- The poll in `updateMetadata` does not retry, and no failed call is tried again. An event is lost for good to a failed
  call, or to someone's relabelling the resource or writing its status at the wrong moment; a remade resource can lose
  its new stores to its predecessor's deletion and still show as processed; and merged notifications can hide an edit
  that was built (`Losing`). Without these, the loop catches up (`Converging.OrderlyRunsConverge`).
- "Failed" is only ever set to true, so it stays after later successes (`Conditions.FailureSticks`).
- An empty configuration is refused before the stores are dropped, so the old ones stay
  (`Losing.EmptyingKeepsStores`).

A scrape here is one call of `writeAllTo`, for one resource. An HTTP response is one such call after another, each with
locks of its own (internal/server.go:141): what is said of scrapes, being of one moment, grouping names, giving each
series once, holds resource by resource, and not of responses.

## Model

| member | source | states |
|---|---|---|
| `Text.SanitisedKey` | internal/family.go:118-129 | Sanitising keeps the length, leaves only `[0-9a-z_]`, and is idempotent. |
| `Text.SanitisedChars` | internal/family.go:118-129 | Digits, underscores and small letters stay, capitals become small, all else becomes an underscore. |
| `Text.JoinSplit` | pkg/resolver/unstructured.go:46 | Splitting a query on dots loses nothing: joining the parts gives the query back. |
| `Text.SplitJoin` | pkg/resolver/unstructured.go:46 | Splitting a joined path of dot-free segments gives the path back. |
| `Text.ItoaInjective` | pkg/resolver/cel.go:156 | Two list indices never print alike. |
| `Text.ItoaIsDecimal` | pkg/resolver/cel.go:156 | They print as decimal numerals without leading zeros. |
| `Resolver.DottedPath` | pkg/resolver/unstructured.go:43-57 | For every object and every path, resolving the joined path yields one entry, named by the query: the formatted value the path leads to, or the query itself if it leads nowhere. |
| `Resolver.ResolveList` | pkg/resolver/cel.go:145-163 | The loop computes the entries of a list's primitive elements. |
| `Resolver.ResolveMap` | pkg/resolver/cel.go:165-185 | Whatever order the map is ranged over, the loop computes the same entries. |
| `Resolver.ListEntriesCount` | pkg/resolver/cel.go:153-160 | A list result has as many entries as the list has kept elements: none collide. |
| `Resolver.ListEntryAt` | pkg/resolver/cel.go:153-160 | Each kept element stands under its own index, and no other does. |
| `Resolver.CelResults` | pkg/resolver/cel.go:123-142 | By the outcome of the query: a scalar gives one entry, the query with its own formatted value; an error or a failed cast the query with itself; an unsupported type none; a map or list an entry for exactly each string, int, uint, float64 or bool in it, by key or index, with that element's formatted value. |
| `Resolver.PathResults` | pkg/resolver/unstructured.go:43-57 | The unstructured resolver gives exactly one entry, the query with what its path leads to, or with itself. |
| `Resolver.ResolveQuery` | pkg/resolver/cel.go:64-143 | Resolving gives just that, under either resolver. |
| `Labelset.ShorterFirst` | internal/metric.go:101-108 | A key comes before another if and only if it is shorter, or as long and smaller at the first character that differs. |
| `Labelset.KeyOrder` | internal/metric.go:101-108 | That is a strict total order on keys. |
| `Labelset.SortLabelset` | internal/metric.go:89-115 | Both arrays end up holding what the sort makes of the original pairs: a permutation, duplicates included, in which no key is longer than a later one, and keys of one length are in the order of their first different characters; values beyond the keys are untouched. |
| `Labelset.ArrangementUnique` | internal/metric.go:99-108 | The sorted pairs are unique if and only if equal keys carry equal values. |
| `Labelset.InsertionSort` | internal/metric.go:101-108 | The promise of the sort can be kept: insertion sort keeps it. |
| `Labelset.InsertionIsStable` | internal/metric.go:101-108 | It can be kept with equal keys left in order. |
| `Labelset.ValuesDetermine` | internal/metric.go:99-108 | Sorted pairs are determined by the values under each key, in order. |
| `Labelset.WriteMetricTo` | internal/metric.go:43-86 | On unequal lengths it fails and changes nothing; else the arrays are sorted and the label block of the sorted pairs, then the group under `group`, the version under `version` and the kind under `kind`, is appended, then the value and a newline if the value is a number, and nothing more if not; read back, the appended text gives these labels in this order, and the value. |
| `Labelset.WriteBody` | internal/metric.go:59-74 | The loop with its changing separator writes the braced, comma-separated block. |
| `Exposition.QuotedRoundTrip` | internal/metric.go:65 | For every value, reading the escaped text up to the closing quote gives the value back. |
| `Exposition.LabelsRoundTrip` | internal/metric.go:60-73 | Reading a printed label block gives back its pairs in order. |
| `Exposition.SampleRoundTrip` | internal/metric.go:43-86 | Reading a printed line, of any family name, gives back one sample if and only if the names are ones the format allows: of the name `kube_customresource_` and the family's, with the sorted labels, then the object's group under `group`, its version under `version` and its kind under `kind`, and the value; if only label names are not, the reader rejects the line. |
| `Exposition.SampleLineInjective` | internal/metric.go:43-86 | Different samples of one family never print the same line, nor do samples of families named in name characters. |
| `Exposition.SampleHasNoNewline` | internal/metric.go:60-73 | No label value, however written, breaks the line. |
| `Exposition.SampleInDocument` | internal/family.go:142-157 | A line before any other text is read as its sample and leaves the rest to be read, if and only if it is well named. |
| `Exposition.HeaderLines` | internal/family.go:183-203 | The header, spelled out. |
| `Exposition.HeaderInDocument` | internal/family.go:183-203 | A header before any other text is read as its HELP and TYPE, text included, if and only if the name is valid and the help text survives unescaped. |
| `Family.EntryLabelsExact` | internal/family.go:122-131 | A composite result gives each label as often as its entries produce it. |
| `Family.PairsAreLabels` | internal/family.go:110-132 | Whatever order the entries of each result are visited in, the resolved pairs are the specified labels. |
| `Family.QueryExpansion` | internal/family.go:110-132 | Each query adds one label under its own key if its result names the query, else one prefixed label per entry. |
| `Family.UnstructuredLabelCount` | internal/family.go:110-132 | With the unstructured resolver there is one label per query. |
| `Family.MetricNames` | internal/family.go:118-129 | Every label key consists of word characters. |
| `Family.RenderedIsPrintable` | internal/family.go:110-150 | Whatever the configuration, what is rendered can be printed: word keys, and a value of one token. |
| `Family.RendersByName` | internal/family.go:101-181 | By the names of the resolvers: with `unstructured` a metric is dropped exactly if what its value's path leads to is no number, with `cel` or none exactly if what the expression gives is none, with any other name always; and a sample carries its object's group, version and kind and the number. |
| `Family.QueryInSample` | internal/family.go:110-132 | Each query's result stands in the sample: under the query's own sanitised key if it names the query, else each entry under that key and the entry's. |
| `Family.CelInSample` | pkg/resolver/cel.go:123-142 | For CEL's outcomes: a scalar value is the number shown and a scalar label its own formatted value; errors and failed casts count as the query's text; a value of an unsupported type drops the metric. |
| `Determinism.RenderingDetermined` | internal/family.go:110-150 | Under every order of visiting and every way of sorting there is one rendering, if and only if no key is given two values. |
| `Determinism.TextDetermined` | internal/family.go:86-161 | The same for the text. |
| `Determinism.ScalarRenderingDetermined` | internal/family.go:110-132 | Without composite results there is one rendering, whatever the sort does with equal keys. |
| `Determinism.UnstructuredIsScalar` | pkg/resolver/unstructured.go:43-57 | The unstructured resolver never gives a composite result. |
| `Determinism.MapOrderDetermined` | internal/family.go:123-131 | Under a sort that keeps equal keys in order, the order of ranging over composite results leaves one rendering, if and only if in each of them entries whose sanitised keys collide agree. |
| `Determinism.MapOrderInText` | internal/family.go:123-131 | The same for the text. |
| `Determinism.MapOrderShows` | internal/family.go:123-131 | A result `{"a-b": x, "a_b": y}` with different x and y: two orders, two texts. |
| `Family.RenderingExists` | internal/family.go:90-158 | Every metric has an outcome: a sample, or being skipped. |
| `Family.ResolveLabels` | internal/family.go:105-132 | The loops produce key and value lists of equal length that are the pairs of the queries in order, each composite result in the order its range took, so that the length error cannot occur; each query's result, as the resolver owes it, stands among them. Spare keys are allowed. |
| `Family.FamilyType.BuildHeaders` | internal/family.go:183-203 | The builder ends up with `# HELP kube_customresource_`, name and help and `# TYPE kube_customresource_`, name and `gauge`, and the type is pinned to gauge. |
| `Family.FamilyType.ResolverFor` | internal/family.go:163-181 | The metric's resolver if it has one, else the family's; none or `cel` is CEL, and other names than `unstructured` are errors. |
| `Family.FamilyType.RawFrom` | internal/family.go:86-161 | The text is the in-order concatenation of one whole line for each metric that renders, and nothing for the others; every metric has inherited the family's labels, skipped or not. |
| `Family.FamilyType.RawMetric` | internal/family.go:91-157 | One metric: a line is printed under `unstructured` exactly if what the value's path leads to is a number, under `cel` or none exactly if what the expression gives is one, and never under another name, even if part of a line had been built; labels are handed down in any case. |
| `Family.FamilyType.RenderLine` | internal/family.go:142-157 | A line is either complete or absent. |
| `Store.StoreType.constructor` | internal/store.go:85-101 | A new store is empty and unlocked, with the given configuration. |
| `Store.StoreType.Add` | internal/store.go:104-138 | An object that converts replaces its UID's block by a rendering under the labels now in force and changes the families for good; one that does not changes nothing. The lock is released either way. |
| `Store.StoreType.AddFamilies` | internal/store.go:116-131 | The loop renders every family once, in order, without disturbing the others. |
| `Store.StoreType.AddAt` | internal/store.go:116-131 | One turn of it. |
| `Store.StoreType.AddFamily` | internal/store.go:117-129 | A family takes its resolver from the store only if it has none, and the store's labels always. |
| `Store.StoreType.Update` | internal/store.go:141-145 | An update is an add. |
| `Store.StoreType.Delete` | internal/store.go:148-164 | Only the object's block goes; labels already accumulated stay. |
| `Store.StoreType.Replace` | internal/store.go:190-192 | Nothing changes, whatever its comment says. |
| `Store.StoreType.Resync` | internal/store.go:196-198 | Nothing changes. |
| `Store.BuildStore` | internal/builder.go:82-100 | The store has one header per family in order, a resolver that is never empty, no rows, and untouched families. |
| `StoreRuns.LabelsAccumulate` | internal/store.go:117-129 | After n adds a family's keys are F ++ S^n and a metric's M ++ (F++S^1) ++ ... ++ (F++S^n), and values likewise. |
| `StoreRuns.HandedDownLength` | internal/family.go:93-95 | What is handed down in n adds has n·F + n(n+1)/2·S entries. |
| `StoreRuns.HandedDownStaysAligned` | internal/family.go:93-95 | Handed-down keys and values stay paired. |
| `StoreRuns.MetricPairs` | internal/store.go:117-129 | With as many values as keys at each level, after n adds each metric has its own pairs, then those handed down, key by key with its value, and M + n·F + n(n+1)/2·S of them. |
| `StoreRuns.DocumentedInheritance` | internal/family.go:93-95 | A metric's keys are M ++ F ++ S, as documented, if and only if this is the first add or there is nothing to hand down. |
| `StoreRuns.HistoryFreeExactly` | internal/store.go:117-129 | All adds see the same families if and only if no store has labels and no family with metrics has any. |
| `StoreRuns.ResolverIsStable` | internal/builder.go:88-91 | On every add the engine is that of the first non-empty of the metric's, family's and store's resolver, else of `unstructured`. |
| `StoreRuns.ResolverByName` | internal/builder.go:88-91 | So on every add: with `unstructured`, or no resolver given anywhere, a metric is dropped exactly if what its value's path leads to is no number; with `cel` exactly if what the expression gives is none; with any other name always. |
| `StoreRuns.RunFamilies` | internal/store.go:104-138 | After any events the families depend only on the number of adds. |
| `StoreRuns.StoreRefinesFold` | internal/store.go:104-198 | After any events a store holds exactly the UIDs last added or updated, each rendered under the labels in force at that add. |
| `StoreRuns.HistoryFreeRun` | internal/store.go:104-198 | Without labels to hand down, each block is a rendering of its object under the configuration as the first add finds it, whatever came before. |
| `Readding.AddAgain` | internal/store.go:104-145 | After any events, adding or updating once more with the object a UID stands for leaves the whole store as it was, if and only if there is nothing to hand down, for objects of which each metric has one rendering. |
| `Readding.SameObjectsSameRows` | internal/store.go:104-198 | Without labels to hand down, two runs of events that end with the same objects end with the same blocks. |
| `Readding.OneOutcome` | internal/family.go:110-158 | A metric has one rendering where no key is given two values, or no result is composite, or colliding entries agree under a sort that keeps equal keys in order. |
| `StoreRuns.RunKeepsPrinted` | internal/store.go:104-198 | Every reachable store has a header and a printable row entry for each family. |
| `StoreRuns.LabelsInTheText` | internal/store.go:117-129 | Under the unstructured resolver the n-th rendering of a metric shows M + n·F + n(n+1)/2·S labels, counting values. |
| `Document.DocumentRoundTrip` | internal/writer.go:40-67 | For any stores in reachable form and any order of UIDs, reading a scrape gives back every store's families in order with help, type and samples, if and only if names, help texts and the keys of the held samples are ones the format allows. |
| `Document.DocumentAccepted` | internal/writer.go:40-67 | With family names in name characters and plain help texts, a scrape is read at all if and only if every held sample is well named: one bad line anywhere has the whole text rejected. |
| `Document.EverySampleOnce` | internal/writer.go:57-62 | Under each header stand exactly the samples held for all UIDs, whatever the order. |
| `Document.DocumentGrouped` | internal/writer.go:37-39 | Each name's samples form one group under its own HELP and TYPE, as "Grouping and sorting" requires of names, if and only if no two families share a name. |
| `Writer.MetricsWriter.LockAll` | internal/writer.go:44-47 | Every store's read lock is taken once. |
| `Writer.MetricsWriter.UnlockAll` | internal/writer.go:44-47 | And given back. |
| `Writer.MetricsWriter.WriteRows` | internal/writer.go:57-62 | Writes column i of the blocks in the range's order; no index is out of bounds; on a failed write only a prefix is written. |
| `Writer.MetricsWriter.WriteFamily` | internal/writer.go:49-62 | A header, then its rows. |
| `Writer.MetricsWriter.WriteStore` | internal/writer.go:48-63 | All families of a store, each in an order of its own. |
| `Writer.MetricsWriter.WriteStores` | internal/writer.go:48-64 | All stores in order. |
| `Writer.MetricsWriter.WriteAllTo` | internal/writer.go:40-67 | The whole document of the stores' contents, or a prefix of it on a write error; stores and locks are as before either way. |
| `Scrape.RunKeepsInv` | internal/writer.go:44-64 | In every interleaving, each lock's readers are the scrapes that hold it, a writer inside is alone, and every scrape has written the part of its snapshot's document it stands at. |
| `Scrape.SnapshotWasTaken` | internal/writer.go:44-47 | There was a moment at which a scrape held all its locks and its stores held what it writes. |
| `Scrape.ScrapeIsAtomic` | internal/writer.go:40-67 | A scrape's text is the document of contents that all its stores had at one moment, and reads back as them. |
| `Scrape.AnyDocumentWritten` | internal/writer.go:40-67 | A scrape that holds all its locks can, by its own steps, write the document of what its stores hold in any orders: every successful outcome of `WriteAllTo` is one of the machine. |
| `Scrape.NoDeadlock` | internal/writer.go:44-47 | Scrapes that take locks in the stores' order, and store calls, are never all waiting. |
| `Scrape.ScrapeCanStep` | internal/writer.go:48-64 | A scrape not waiting for a lock can go on: the row it reads is there and has the column. |
| `Scrape.NeverStuck` | internal/writer.go:44-64 | In every reachable state with work left some step is possible. |
| `Readable.GoodKeyExactly` | internal/family.go:118-129 | A configured key gives a label name the format allows if and only if it is not empty and does not begin with a digit; a composite result cannot spoil it. |
| `Readable.RenderedWellNamed` | internal/family.go:110-150 | With such keys and a name in name characters every rendered sample is well named, whatever queries resolve to. |
| `Readable.UnstructuredWellNamed` | internal/family.go:110-150 | Under the unstructured resolver a sample is well named if and only if its family's name and the keys of its queries are. |
| `Readable.RunKeepsGood` | internal/store.go:104-198 | Good keys, names and help texts stay so over any events, and every held sample is well named. |
| `Readable.GoodConfigurationsRead` | internal/writer.go:40-67 | From good configurations, through any events, every scrape reads back as what its stores hold. |
| `Readable.GoodScrapesRead` | internal/writer.go:40-67 | So does every finished scrape of every interleaving, as the contents of one moment. |
| `Readable.KeysInTheText` | internal/store.go:117-129 | Under the unstructured resolver a sample of any add is well named if and only if the family's name and the keys of metric, family and store are good. |
| `Readable.KeysDecide` | internal/writer.go:40-67 | Under the unstructured resolver, with plain names and help texts, through any events, a scrape is read at all if and only if for every sample its stores hold the keys of metric, family and store are good. |
| `Readable.BadKeyCannotBeRead` | internal/family.go:118-119 | A store that gets there: any configuration with a bad key on a metric under the unstructured resolver, and one add of an object that has a value for it; no scrape of it reads back, and with plain names and help texts none is read at all. |
| `Series.SeriesUnique` | internal/writer.go:37-39 | Each combination of name and labels stands once in a scrape, as "Grouping and sorting" requires, if and only if no two samples the stores hold are the same series. |
| `SeriesRuns.ClashExactly` | internal/family.go:110-157 | Two samples of a metric whose queries give scalars are the same series if the objects are of one kind and every query gives the same for both; and only then, if the sort keeps equal keys in order or queries under one key are one. |
| `SeriesRuns.UnlabelledClash` | internal/family.go:142-157 | Under a metric without labels that is so if and only if the objects are of one kind. |
| `SeriesRuns.AdditionsClash` | internal/store.go:117-129 | Samples of one metric in two additions to a store are the same series if and only if nothing is handed down, the kind is one and the metric's own queries give the same. |
| `SeriesRuns.ScrapeSeries` | internal/writer.go:37-67 | Through any events: if a store was last told of two such objects, no scrape gives each series once; and where families have one metric and a name of their own, each scrape does if and only if no store was. |
| `SeriesRuns.TwinsAdded` | internal/store.go:104-138 | Stores that get there: any configuration and any two such objects with different UIDs, both added; then every scrape repeats a series. |
| `Series.NamesInSample` | internal/metric.go:51-56 | Under the unstructured resolver no label name repeats in a sample if and only if its sanitised keys are distinct and none is `group`, `version` or `kind`. |
| `Series.NamesInText` | internal/store.go:117-129 | In the n-th add none repeats if and only if the configured keys are so and n is 1 or there is nothing to hand down. |
| `Conditions.CRDMetricsResourceStatus.Set` | pkg/apis/crdmetrics/v1alpha1/types.go:101-134 | The first entry of the kind is overwritten in place, or the report appended, with reason, message prefix and generation filled in. |
| `Conditions.DressedAs` | pkg/apis/crdmetrics/v1alpha1/types.go:29-59 | The reasons and message prefixes of both kinds for both statuses, spelled out. |
| `Conditions.PutIsUpdate` | pkg/apis/crdmetrics/v1alpha1/types.go:122-133 | One report is a map update: its kind shows it, no other entry changes or moves. |
| `Conditions.ConditionsAreAMap` | pkg/apis/crdmetrics/v1alpha1/types.go:101-134 | Over any calls kinds stay distinct, entries keep their places and are never removed, untouched ones do not change, and each kind shows its last report. |
| `Conditions.FailureSticks` | pkg/apis/crdmetrics/v1alpha1/types.go:101-134 | A resource reads as failed if and only if a failure was ever reported. |
| `Reconcile.RunKeepsConsistent` | internal/events.go:79-168 | In every run, what the worker has read is a version the server gave out, UIDs have one name, and no unknown event is queued or handled. |
| `Reconcile.WritesKeep` | internal/events.go:170-272 | The worker writes only to the object as it is, and leaves its UID and specification alone. |
| `Reconcile.PutWrites` | internal/events.go:170-272 | From any consistent state: a write that arrives and is accepted adds one version of the object as it was, with the two labels of the program set and every other label kept, or with one condition reported, kind, status, reason, message and generation spelled out, and every other condition kept; a write that is not accepted adds none. |
| `Reconcile.RunWrites` | internal/events.go:170-272 | So in every run. |
| `Reconcile.DecisionLeads` | internal/events.go:113-167 | Where a decision leads and what a failure says, spelled out. |
| `Reconcile.EventsTold` | internal/controller.go:134-168 | An appearance is told as an add, a disappearance as a deletion unless missed, a change as an update exactly if version and specification differ. |
| `Reconcile.StepPays` | internal/controller.go:136-188 | No step makes more due for a name but a user's creating, deleting or changing its specification, or a lister failure. |
| `Reconcile.HandlingsBounded` | internal/controller.go:136-188 | In every run a name is taken up at most as often as that happened: the worker's own writes bring nothing back, however notifications are merged. |
| `Draining.StepDrains` | internal/controller.go:283-319 | A measure never grows but by such a cause, and falls with every taking, call and telling of a change. |
| `Draining.WorkCanProceed` | internal/controller.go:283-319 | Rest is exactly the state in which nothing can be done. |
| `Draining.EventuallyQuiet` | internal/controller.go:283-319 | Every fair infinite behaviour with finitely many causes comes to rest and stays there. |
| `Installing.StepStores` | internal/events.go:124-157 | Only a decision changes the map, and only at the UID decided on. |
| `Installing.StoresFollowDecisions` | internal/events.go:79-168 | After any run the entry of a UID is what the last decision on it built: one store per configured store in order, or nothing after a deletion, a parse failure or an empty list. |
| `Installing.StoresOutliveTheirObject` | internal/events.go:97-131 | Once an object is gone, no run changes the entry under its UID. |
| `Installing.ProcessedMeansInstalled` | internal/events.go:105-167 | If no one forges the condition and no success crosses to a remade object, every resource that shows as processed has exactly the stores its last decision built, and that decision was sound. |
| `Installing.HonestExactly` | internal/events.go:79-168 | All along a run every resource that shows as processed has been soundly decided on, if and only if no step forges that status on one that has not, brings success to such an object, or fails a decision on one that shows as processed. |
| `Installing.StepLies` | internal/events.go:124-167 | The same for one step of any reachable state. |
| `Installing.SuccessIsHonestExactly` | internal/events.go:159-167 | Reporting success, answered or not, keeps this true if and only if the object is the one decided on, or was soundly decided on itself. |
| `Converging.UnderwayMoves` | internal/events.go:79-168 | A handling whose calls are answered, and that is not overtaken, ends with stores and conditions answering to the object. |
| `Converging.OrderlyRunsConverge` | internal/controller.go:136-164 | After any orderly run, when nothing is due for a resource: if its specification parses, its stores are those it asks for and "Processed" is true for its present generation; if it is malformed or empty, "Failed" is true for its present generation and "Processed" is not, and it has no stores if malformed, those of the last decision if empty. |
| `Losing.FailedCallForgets` | internal/events.go:97-103 | One call that fails or is not answered: nothing is left to do, and the stores are missing. |
| `Losing.RelabellingForgets` | internal/events.go:106-111 | The same after a relabelling between read and write. |
| `Losing.StatusWriteForgets` | internal/events.go:106-111 | The same after someone else's status write at that moment. |
| `Losing.WipingForgets` | internal/events.go:159-167 | After someone else's wiping the conditions the stores are right but nothing says so, and nothing is left to do. |
| `Losing.RemakingForgets` | internal/controller.go:178-189 | The same after a deletion and remaking whose events merge, with the condition showing processed. |
| `Losing.MergingForgets` | internal/controller.go:149-160 | The same after an edit undone before the informer saw it. |
| `Losing.EmptyingKeepsStores` | internal/events.go:113-121 | An orderly run after which an empty specification is reported as refused and the stores are still the old ones. |
| `Losing.SuccessCrosses` | internal/events.go:159-167 | A remade object shows as processed without stores. |
| `Configuring.Configurer.Parse` | internal/config.go:74-81 | The decoded configuration is kept, with objects of its own, or the error returned. |
| `Configuring.Configurer.Build` | internal/config.go:84-107 | One store is built per configured store, new, empty and as configured, and appended in order under the resource's UID; there is no entry if there is none to build. |
| `Handler.Controller.OnUpdate` | internal/controller.go:136-165 | An update is queued only if version and specification differ. |
| `Handler.Controller.OnDelete` | internal/controller.go:166-168 | A deletion is queued unless told by a tombstone. |
| `Handler.Controller.EnqueueCRDMetrics` | internal/controller.go:179-189 | The pair of name and event is appended unless it is already waiting; if it is being handled it is marked to be taken again instead. |
| `Handler.Controller.UpdateMetadata` | internal/events.go:228-272 | One read and one write of the labels, as the machine does them, whatever happens around them and becomes of them; if it succeeds, the object last written is the one read with `app.kubernetes.io/managed-by` and, if there is a revision, `app.kubernetes.io/version` set, all other labels, specification, generation and conditions being kept. |
| `Handler.Controller.EmitSuccess` | internal/events.go:171-196 | One read and one status write, as the machine does them. |
| `Handler.Controller.EmitFailure` | internal/events.go:199-225 | The same for a failure. |
| `Handler.Controller.Rebuild` | internal/events.go:113-157 | Dropping, parsing and building leave the stores and the failure that the machine's decision step gives: other UIDs keep their very stores, and those under this one are newly built. |
| `Handler.Controller.HandleEvent` | internal/events.go:79-168 | A handling takes the machine's steps from its first call to its end. |
| `Handler.Controller.SyncHandler` | internal/controller.go:322-347 | Only a lister failure is an error; an object not found is handled by its name. |
| `Handler.Controller.ProcessNextWorkItem` | internal/controller.go:283-319 | One item is taken, handled, and requeued only after a lister failure or if it was added meanwhile. |
| `Handler.Controller.Work` | internal/controller.go:244-250 | However long the worker runs, what it has done is the machine's run under the same outside actions and fates, and its map holds for each UID one store made for each configured store of the last decision, in order. |

## Left out

- HTTP servers, probes, profiling, telemetry, options, signals: wiring and I/O.
- Generated clients, informers and deepcopy code.
- YAML, CEL parsing, evaluation and cost limits, float parsing and formatting: functions given from outside. A printed
  number is only assumed to be one token.
- The reader follows the format for what the printer can produce: blanks inside braces, timestamps and a missing final
  newline are not read.
- Strings are sequences of characters, not bytes; sanitised keys are ASCII, so their length and order agree.
- Reflector, informer and work queue internals: sources of the calls the code accepts. Rate limiting delays, polling
  intervals and `LastTransitionTime` are not modelled.
- Every successful write makes a new version, even one that changes nothing; the server is free not to.
- Namespaces: managed resources are cluster-scoped, so a key is a name.
- Several workers, and the main server ranging over the map of stores while a worker changes it: the map has no lock,
  and properties of it are stated for one worker.
- `Scrape.NoDeadlock`: a resource's stores are numbered in the order it lists them, and scrapes take them in that
  order, as `writeAllTo` does. A store call is one step while it holds its lock.
- `Configuring.Configurer.Build`: group, version, kind and selectors of a configured store, and the reflector started
  for it, are not modelled, nor that reflectors of dropped stores go on running.
- `Handler.Controller.ProcessNextWorkItem`: returns instead of waiting when the queue is empty, and shutting down is not
  modelled.
- `Converging.OrderlyRunsConverge`: convergence under its assumptions. For each kind of step they bar, `Losing` has a run
  with one such step that does not converge; it is not claimed that every such run fails to.
- `Installing.ProcessedMeansInstalled`: one direction, for runs that nobody disturbs; the exact condition for whole runs
  is that of `Installing.HonestExactly`.
- `Determinism.MapOrderDetermined`: for sorts that keep equal keys in order, which `sort.Slice` does not promise. For one
  that does not, no more is stated than `Determinism.RenderingDetermined`, the exact condition under all sorts at once.
- `Determinism.MapOrderInText`: the same.
- `Document.DocumentGrouped`, `Series.SeriesUnique`, `Scrape.ScrapeIsAtomic`: of the text of one resource; a response
  joins those of all resources.
- `Writer.MetricsWriter.WriteAllTo`: its loops are proved against the text they write, not step by step against the
  machine of `Scrape`; that the two have the same outcomes is `Scrape.AnyDocumentWritten` and `Scrape.ScrapeIsAtomic`.
- `SeriesRuns.ScrapeSeries`: in families of several metrics, or of shared names, other samples than those of twins may be
  the same series; `Series.SeriesUnique` covers them, by the samples held. Label queries with composite results are not
  covered by objects.
- `Exposition.SampleRoundTrip`: that the reader rejects the line of a badly named family outright is not stated, only
  that it does not give the sample back.
- Configurations whose families or metrics are shared between stores, or with more values than keys at some level,
  which the code indexes out of range.
