# Cedar `Chart`: definition store, dataset lookup and query bookkeeping

This project models the `Chart` class of Cedar (`packages/cedar/src/Chart.ts`),
a facade that holds a declarative chart definition, fetches the remote
datasets it names, shapes the results and hands them to a renderer. What is
modelled is the part of the class that is its own logic:

- **The definition store.** A `Chart` keeps a container identifier, an
  optional definition (`datasets`, `series`, `type`, `specification`,
  `overrides`, `legend`) and the shaped data. `definition()` and the six
  per-property accessors are dual-mode: called with `undefined` they read,
  called with a value they write and return the chart for chaining. Every
  property accessor goes through one private accessor. That accessor writes
  into the existing definition in place, or creates a definition holding only
  that property when there is none.
- **Construction.** A falsy container throws `A container is required`. A
  definition given to the constructor is stored, as a copy.
- **Dataset lookup.** `dataset(name)` returns the first dataset whose `name`
  is `name`.
- **Query bookkeeping.** `query()` issues one request per dataset with a
  truthy `url`, in list order. It files each response under the dataset's
  `name`, or under `dataset<i>` when the name is falsy. Here `i` is the
  position in the full list, inline datasets included. The join is all or
  nothing. A later duplicate key overwrites an earlier one.
- **Data update and show.** `updateData` replaces the shaped data and changes
  nothing else. `show` runs the query and then the update.

Files: `Wrappers.dfy` (Option, Result), `Definitions.dfy` (the definition
record and the value-level read/write of one property), `Decimal.dfy` (the
decimal spelling of an index in `dataset${i}`), `Queries.dfy` (which datasets
are fetched, their keys, the response hash, and lemmas about them), `Chart.dfy`
(the `Chart` class).

Modelling choices:

- JavaScript `undefined` is `None`.
- A string is falsy when it is absent or empty.
- The opaque JavaScript values (query objects, specification, overrides,
  series entries, responses, shaped data, rejection reasons) are a small
  `Json` datatype.
- The external collaborators are parameters of the methods that call them:
  - `createQueryParams` is a function parameter.
  - `getChartData` is a function parameter.
  - The outcome of `Promise.all` over the issued requests is the input
    `joined`. `JoinFits` states its contract: one response per request, in
    request order, or a rejection, which needs at least one request.

Only the constructor clones the definition (`packages/cedar/src/Chart.ts:38`).
`definition(x)` stores `x` as given (`Chart.ts:49`), so later accessor writes
alias the caller's object.

## Model

| member | source | states |
|---|---|---|
| `Definitions.Get` | packages/cedar/src/Chart.ts:172-173 | reading a property yields nothing when no definition is set, and otherwise a value of that property |
| `Definitions.With` | packages/cedar/src/Chart.ts:175-177 | writing a property of an existing definition makes that property read back as the value written, and every other property reads as before |
| `Definitions.Store` | packages/cedar/src/Chart.ts:175-181 | after a write the property reads back as the value written and the other properties read as before; with no prior definition, every other property is absent |
| `Definitions.DefinitionExtensionality` | packages/cedar/src/Chart.ts:16-23 | two definitions whose six property reads agree are equal |
| `Definitions.StoreIsTheOnlyChange` | packages/cedar/src/Chart.ts:170-184 | any definition that reads the written value at the written property and agrees with the old definition elsewhere is exactly the one the accessor produces |
| `Definitions.ProjectionsAgreeWithGet` | packages/cedar/src/Chart.ts:54-88 | each per-property reader returns what the shared accessor reads for that property |
| `Decimal.NatToString` | packages/cedar/src/Chart.ts:123 | the index in `dataset${i}` is spelled with one or more decimal digits and no leading zero |
| `Decimal.ParseNatToString` | packages/cedar/src/Chart.ts:123 | parsing the decimal spelling of an index gives back the index |
| `Decimal.NatToStringInjective` | packages/cedar/src/Chart.ts:123 | different indices give different fallback keys |
| `Queries.RemoteIndices` | packages/cedar/src/Chart.ts:118-121 | the requested positions are exactly the datasets with a truthy `url`, each once, in increasing list order |
| `Queries.KeyOf` | packages/cedar/src/Chart.ts:123 | the key of a dataset at full-list position `i` (its name when truthy, else `dataset<i>`): never empty, and starting with `dataset` when the name is falsy |
| `Queries.RequestFor` | packages/cedar/src/Chart.ts:124-128 | the request for a remote dataset: its (non-empty) `url` and the parameters built from its `query` |
| `Queries.Zip` | packages/cedar/src/Chart.ts:134-136 | the hash filled by `responseHash[names[i]] = responses[i]` in order: at most one entry per name, and only names as keys |
| `Queries.ResponseHash` | packages/cedar/src/Chart.ts:132-137 | what `query()` resolves to: the request keys zipped with the responses, at most one entry per response |
| `Queries.RemoteIndicesStep` | packages/cedar/src/Chart.ts:119-121 | visiting one more dataset adds its position exactly when it has a truthy `url` |
| `Queries.RemoteKeys` | packages/cedar/src/Chart.ts:123 | there is one key per request |
| `Queries.ZipKeys` | packages/cedar/src/Chart.ts:134-136 | the response hash has exactly the request keys as keys |
| `Queries.ZipLastWins` | packages/cedar/src/Chart.ts:134-136 | a key that no later request reuses maps to its own request's response, so a later duplicate key overwrites an earlier one |
| `Queries.ZipDistinctSize` | packages/cedar/src/Chart.ts:134-136 | with distinct keys the hash keeps one entry per response |
| `Queries.ResponseHashKeys` | packages/cedar/src/Chart.ts:118-137 | a key is in the result iff some dataset with a `url` has that key (its `name`, or `dataset<i>` for its full-list position `i`) |
| `Queries.ResponseHashAt` | packages/cedar/src/Chart.ts:118-137 | a remote dataset whose key no later remote dataset reuses maps to the response of the request issued for it |
| `Queries.UnnamedResponsesAllKept` | packages/cedar/src/Chart.ts:119-136 | when no remote dataset is named, the positional keys never collide and the result has one entry per request |
| `Queries.NoRemoteNoKeys` | packages/cedar/src/Chart.ts:118-137 | with no dataset having a `url`, nothing is requested and the result is the empty hash |
| `Queries.TwoNamedDatasets` | packages/cedar/src/Chart.ts:118-137 | two remote datasets named `a` and `b` resolve to `{ a: r1, b: r2 }` |
| `Queries.FallbackKeyUsesFullIndex` | packages/cedar/src/Chart.ts:119-123 | an unnamed remote dataset after one inline dataset is keyed `dataset1`, not `dataset0` |
| `Queries.FallbackKeyCollision` | packages/cedar/src/Chart.ts:119-136 | a dataset named `dataset1` followed by an unnamed remote dataset at position 1 collide, and the second response wins |
| `Charts.Chart.constructor` | packages/cedar/src/Chart.ts:30-40 | for a non-empty container: stores it, stores the given definition or leaves none, and no data |
| `Charts.Construct` | packages/cedar/src/Chart.ts:30-40 | fails with `A container is required` iff the container is falsy; otherwise a fresh chart holding the container and the given definition (or none), with no data |
| `Charts.Chart.Definition` | packages/cedar/src/Chart.ts:43-52 | without an argument it returns the definition and changes nothing; with one it stores it as given and chains |
| `Charts.Chart.Access` | packages/cedar/src/Chart.ts:170-184 | a read returns the property (nothing when there is no definition) and changes nothing; a write makes the property read back as the value and leaves the other properties, the container and the data unchanged |
| `Charts.Chart.Datasets` | packages/cedar/src/Chart.ts:54-58 | the `datasets` property through the accessor: read without change, or write and chain |
| `Charts.Chart.Series` | packages/cedar/src/Chart.ts:60-64 | the `series` property through the accessor: read without change, or write and chain |
| `Charts.Chart.Type` | packages/cedar/src/Chart.ts:66-70 | the `type` property through the accessor: read without change, or write and chain |
| `Charts.Chart.Specification` | packages/cedar/src/Chart.ts:72-76 | the `specification` property through the accessor: read without change, or write and chain |
| `Charts.Chart.Overrides` | packages/cedar/src/Chart.ts:78-82 | the `overrides` property through the accessor: read without change, or write and chain |
| `Charts.Chart.Legend` | packages/cedar/src/Chart.ts:84-88 | the `legend` property through the accessor: read without change, or write and chain |
| `Charts.Chart.Data` | packages/cedar/src/Chart.ts:90-93 | returns the shaped data without changing anything |
| `Charts.Chart.Dataset` | packages/cedar/src/Chart.ts:95-108 | returns the first dataset named `name`; returns nothing iff there are no datasets or none has that name |
| `Charts.Chart.Query` | packages/cedar/src/Chart.ts:110-141 | one request per dataset with a `url`, in list order, built from its `url` and its `query`; on success the key-to-response hash, on rejection that rejection; with no remote dataset the empty hash |
| `Charts.Requests` | packages/cedar/src/Chart.ts:113-131 | the keys and the requests of the remote datasets, position by position |
| `Charts.HashResponses` | packages/cedar/src/Chart.ts:132-137 | the hash filled from the keys and the responses in order |
| `Charts.Chart.UpdateData` | packages/cedar/src/Chart.ts:143-152 | the shaped data becomes the transform of the current datasets, the given results and the current series; nothing else changes; the chart itself is returned for chaining |
| `Charts.Chart.Show` | packages/cedar/src/Chart.ts:160-167 | on a rejected query the data is unchanged and the rejection is returned; otherwise the data is shaped from the query's hash and the chart itself is returned |

## Left out

- Rendering (`render`, the external `cedarAmCharts`) is a side effect with nothing to check. `Charts.Chart.Show` stops after the data update.
- The remote query client (`queryFeatures`) is not modelled. The outcome of the join over the issued requests is an input. Completion order, and which of several failing requests supplies the rejection, are not modelled.
- `createQueryParams` and `getChartData` live in modules that are not part of this model. They appear as function parameters.
- The JSON round trip of `clone` is treated as a value copy. Definitions are values here, so the aliasing left by the `definition(x)` setter is not captured: a caller who keeps `x` and mutates it, or sees the accessors mutate it, is not modelled.
- Promise scheduling and re-entrant `show` calls are not modelled, because they are event-loop concurrency.
- JavaScript values are untyped; the model types them. Falsy containers other than a missing or empty string (`0`, `false`, `null`) are not represented. `null` passed to a setter is not represented either: JavaScript would store it, because only `undefined` selects a read.
- Charts.Chart.Access: the value written must belong to the property named, as the TypeScript overloads declare. JavaScript would store a value of any type.
- Charts.Chart.Dataset: the name is a string, as declared. JavaScript called with `undefined` would return the first unnamed dataset.
- The response hash is modelled as an unordered map: the insertion order of the keys of the object literal `{}` is not represented, and neither is the `__proto__` key of a plain object, where an assignment replaces the prototype instead of adding a key (a dataset named `__proto__` gets an ordinary entry in the model).
- Numbers in opaque values are integers; floating point is not modelled.
- TypeScript overload signatures are type-level only.
